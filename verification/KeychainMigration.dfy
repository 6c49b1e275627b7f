/** The two-copy move of the wallet secrets to the target protection class, on
    a store that may fail or crash before or after the effect of any operation. */
module KeychainMigration {
  import opened Base
  import opened Keychain

  datatype MigrationError =
    | InvalidService | DuplicateAccount(account: string) | ConflictingCopies(account: string)
    | UnexpectedAccessibility(account: string) | OperationFailed

  /** What happens to one store operation: a crash and a thrown error differ
      only in who notices, so one constructor stands for both. */
  datatype Fault = NoFault | FailsBefore | FailsAfter

  /** `after` is `before` with the copy `it` added. */
  ghost predicate Added(before: seq<Item>, after: seq<Item>, it: Item) {
    && (forall b :: Copy(after, b) == if b == it.account then Some(it) else Copy(before, b))
    && (UniqueAccounts(before) ==> UniqueAccounts(after))
  }

  /** `after` is `before` without the copy of `account`. */
  ghost predicate Removed(before: seq<Item>, after: seq<Item>, account: string) {
    && (forall b :: Copy(after, b) == if b == account then None else Copy(before, b))
    && (UniqueAccounts(before) ==> UniqueAccounts(after))
  }

  ghost predicate OtherServicesSame(before: map<Name, seq<Item>>, after: map<Name, seq<Item>>, service: Name) {
    forall n :: n != service && n != service + SUFFIX ==> ItemsOf(after, n) == ItemsOf(before, n)
  }

  ghost predicate OnlyServiceChanged(before: map<Name, seq<Item>>, after: map<Name, seq<Item>>, service: Name) {
    forall n :: n != service ==> ItemsOf(after, n) == ItemsOf(before, n)
  }

  class KeychainStore {
    var services: map<Name, seq<Item>>
    var operations: nat
    const faults: nat -> Fault

    constructor (services: map<Name, seq<Item>>, faults: nat -> Fault)
      ensures this.services == services && this.faults == faults && operations == 0
    {
      this.services, this.faults, operations := services, faults, 0;
    }

    /** No operation from now on fails. */
    ghost predicate Faultless()
      reads this
    {
      forall n :: n >= operations ==> faults(n).NoFault?
    }

    method ReadItems(service: Name) returns (r: Result<seq<Item>, MigrationError>)
      modifies this`operations
      ensures operations == old(operations) + 1
      ensures r == Success(ItemsOf(services, service)) || r == Failure(OperationFailed)
      ensures old(Faultless()) ==> r.Success?
    {
      var fault := faults(operations);
      operations := operations + 1;
      return if fault.NoFault? then Success(ItemsOf(services, service)) else Failure(OperationFailed);
    }

    /** Adds a copy in the target class; an account already there is an error. */
    method Add(it: Item, service: Name) returns (r: Result<(), MigrationError>)
      modifies this
      ensures operations == old(operations) + 1 && OnlyServiceChanged(old(services), services, service)
      ensures services == old(services)
              || (Copy(ItemsOf(old(services), service), it.account).None?
                  && Added(ItemsOf(old(services), service), ItemsOf(services, service), InTargetClass(it)))
      ensures r.Success? ==> Added(ItemsOf(old(services), service), ItemsOf(services, service), InTargetClass(it))
      ensures r.Failure? ==> r.error == OperationFailed
      ensures old(Faultless()) && Copy(ItemsOf(old(services), service), it.account).None? ==> r.Success?
    {
      var fault := faults(operations);
      operations := operations + 1;
      if fault.FailsBefore? || Copy(ItemsOf(services, service), it.account).Some? { return Failure(OperationFailed); }
      AppendingAdds(ItemsOf(services, service), InTargetClass(it));
      services := services[service := ItemsOf(services, service) + [InTargetClass(it)]];
      return if fault.FailsAfter? then Failure(OperationFailed) else Success(());
    }

    method Delete(service: Name, account: string) returns (r: Result<(), MigrationError>)
      modifies this
      ensures operations == old(operations) + 1 && OnlyServiceChanged(old(services), services, service)
      ensures services == old(services) || Removed(ItemsOf(old(services), service), ItemsOf(services, service), account)
      ensures r.Success? ==> Removed(ItemsOf(old(services), service), ItemsOf(services, service), account)
      ensures r.Failure? ==> r.error == OperationFailed
      ensures old(Faultless()) ==> r.Success?
    {
      var fault := faults(operations);
      operations := operations + 1;
      if fault.FailsBefore? { return Failure(OperationFailed); }
      FilteringRemoves(ItemsOf(services, service), account);
      services := services[service := Without(ItemsOf(services, service), account)];
      return if fault.FailsAfter? then Failure(OperationFailed) else Success(());
    }
  }

  function InTargetClass(it: Item): Item { it.(accessibility := FirstUnlockThisDeviceOnly) }

  lemma AppendingAdds(items: seq<Item>, it: Item)
    requires Copy(items, it.account).None?
    ensures Added(items, items + [it], it)
  {
    forall b ensures Copy(items + [it], b) == if b == it.account then Some(it) else Copy(items, b) {
      CopyAppended(items, it, b);
    }
    forall i | 0 <= i < |items| ensures items[i].account != it.account {
      assert items[i] in items;
    }
  }

  lemma FilteringRemoves(items: seq<Item>, account: string)
    ensures Removed(items, Without(items, account), account)
  {
    forall b ensures Copy(Without(items, account), b) == if b == account then None else Copy(items, b) {
      CopyRemoved(items, account, b);
    }
    if UniqueAccounts(items) { RemovalKeepsUnique(items, account); }
  }

  // ------------------------------------------------------------ the migrator

  /** Whether migrating the account moves something, and so counts. */
  predicate NeedsMove(c: Option<Item>, s: Option<Item>) {
    if c.None? then s.Some? else c.value.accessibility.FirstUnlock?
  }

  /** `v` differs from `v0` at `account` only. */
  ghost predicate OnlyAt(v0: Vault, v: Vault, account: string) {
    && (Indexable(v0) ==> Indexable(v))
    && forall b :: b != account ==> SameAt(v0, v, b)
  }

  predicate SameAt(v0: Vault, v: Vault, b: string) {
    Copy(v.canonical, b) == Copy(v0.canonical, b) && Copy(v.staging, b) == Copy(v0.staging, b)
  }

  predicate DoneAt(v: Vault, account: string) {
    var c := Copy(v.canonical, account);
    Copy(v.staging, account).None? && (c.Some? ==> IsTarget(c.value))
  }

  class Migrator {
    const store: KeychainStore
    var completed: set<Name>

    constructor (store: KeychainStore, completed: set<Name>)
      ensures this.store == store && this.completed == completed
    {
      this.store, this.completed := store, completed;
    }

    function State(service: Name): Vault
      reads this, store
    {
      VaultOf(store.services, service)
    }

    /** Reads the copy back: exactly one, in the target class, same bytes. */
    method Verify(expected: Item, service: Name) returns (r: Result<(), MigrationError>)
      modifies store`operations
      ensures store.operations == old(store.operations) + 1
      ensures old(store.Faultless()) && UniqueAccounts(ItemsOf(store.services, service))
              && Copy(ItemsOf(store.services, service), expected.account) == Some(InTargetClass(expected))
              ==> r.Success?
      ensures r.Success? ==>
                var c := Copy(ItemsOf(store.services, service), expected.account);
                c.Some? && IsTarget(c.value) && c.value.data == expected.data
      ensures r.Failure? ==> r.error != InvalidService
    {
      var read := store.ReadItems(service);
      if read.Failure? { return Failure(read.error); }
      var matches := Filter(read.value, (it: Item) => it.account == expected.account);
      OneMatch(read.value, expected.account);
      if |matches| != 1 { return Failure(ConflictingCopies(expected.account)); }
      if !IsTarget(matches[0]) { return Failure(UnexpectedAccessibility(expected.account)); }
      if matches[0].data != expected.data { return Failure(ConflictingCopies(expected.account)); }
      return Success(());
    }

    /** A copy only in staging: put it back under its canonical service. */
    method RestoreStaged(staged: Item, service: Name) returns (r: Result<bool, MigrationError>)
      requires Indexable(State(service)) && IsTarget(staged)
      requires Copy(State(service).canonical, staged.account).None?
      requires Copy(State(service).staging, staged.account) == Some(staged)
      modifies store
      ensures store.operations >= old(store.operations)
      ensures OtherServicesSame(old(store.services), store.services, service)
      ensures OnlyAt(old(State(service)), State(service), staged.account)
      ensures KeptAt(old(State(service)), State(service), staged.account)
      ensures r.Success? ==> r.value && DoneAt(State(service), staged.account)
      ensures r.Failure? ==> r.error != InvalidService
      ensures old(store.Faultless()) ==> r.Success?
    {
      var a := staged.account;
      ghost var s0, v0 := store.services, State(service);
      var added := store.Add(staged, service);
      ghost var s1, v1 := store.services, State(service);
      CanonicalChanged(s0, s1, service, a);
      if added.Failure? { return Failure(added.error); }
      var verified := Verify(staged, service);
      if verified.Failure? { return Failure(verified.error); }
      var deleted := store.Delete(service + SUFFIX, a);
      StagingChanged(s1, store.services, service, a);
      SetsTwice(v0, v1, State(service), a);
      return if deleted.Failure? then Failure(deleted.error) else Success(true);
    }

    /** A legacy copy, with a staged one of the same bytes: move it. */
    method ReplaceLegacy(canonical: Item, service: Name) returns (r: Result<bool, MigrationError>)
      requires Indexable(State(service)) && canonical.accessibility.FirstUnlock?
      requires Copy(State(service).canonical, canonical.account) == Some(canonical)
      requires var s := Copy(State(service).staging, canonical.account);
               s.Some? && IsTarget(s.value) && s.value.data == canonical.data
      modifies store
      ensures store.operations >= old(store.operations)
      ensures OtherServicesSame(old(store.services), store.services, service)
      ensures OnlyAt(old(State(service)), State(service), canonical.account)
      ensures KeptAt(old(State(service)), State(service), canonical.account)
      ensures r.Success? ==> r.value && DoneAt(State(service), canonical.account)
      ensures r.Failure? ==> r.error != InvalidService
      ensures old(store.Faultless()) ==> r.Success?
    {
      hide Copy, ItemsOf;
      var a := canonical.account;
      ghost var s0, v0 := store.services, State(service);
      ghost var copy := Copy(v0.staging, a);
      var deleted := store.Delete(service, a);
      ghost var s1, v1 := store.services, State(service);
      CanonicalChanged(s0, s1, service, a);
      assert Sets(v0, v1, a, Some(canonical), copy) || Sets(v0, v1, a, None, copy);
      if deleted.Failure? { return Failure(deleted.error); }
      var added := store.Add(canonical, service);
      ghost var s2, v2 := store.services, State(service);
      CanonicalChanged(s1, s2, service, a);
      SetsTwice(v0, v1, v2, a);
      assert Sets(v0, v2, a, None, copy) || Sets(v0, v2, a, Some(InTargetClass(canonical)), copy);
      if added.Failure? { return Failure(added.error); }
      var verified := Verify(canonical, service);
      if verified.Failure? { return Failure(verified.error); }
      deleted := store.Delete(service + SUFFIX, a);
      StagingChanged(s2, store.services, service, a);
      SetsTwice(v0, v2, State(service), a);
      return if deleted.Failure? then Failure(deleted.error) else Success(true);
    }

    /** Writes a second copy of a legacy one and reads it back. */
    method StageLegacy(canonical: Item, service: Name) returns (r: Result<(), MigrationError>)
      requires Indexable(State(service)) && canonical.accessibility.FirstUnlock?
      requires Copy(State(service).canonical, canonical.account) == Some(canonical)
      requires Copy(State(service).staging, canonical.account).None?
      modifies store
      ensures store.operations >= old(store.operations)
      ensures OtherServicesSame(old(store.services), store.services, service)
      ensures OnlyAt(old(State(service)), State(service), canonical.account)
      ensures KeptAt(old(State(service)), State(service), canonical.account)
      ensures Copy(State(service).canonical, canonical.account) == Some(canonical)
      ensures r.Success? ==> Copy(State(service).staging, canonical.account) == Some(InTargetClass(canonical))
      ensures r.Failure? ==> r.error != InvalidService
      ensures old(store.Faultless()) ==> r.Success?
    {
      ghost var s0 := store.services;
      var added := store.Add(canonical, service + SUFFIX);
      StagingChanged(s0, store.services, service, canonical.account);
      if added.Failure? { return Failure(added.error); }
      r := Verify(canonical, service + SUFFIX);
    }

    method MigrateAccount(account: string, canonical: Option<Item>, staged: Option<Item>, service: Name)
      returns (r: Result<bool, MigrationError>)
      requires Indexable(State(service))
      requires canonical == Copy(State(service).canonical, account) && staged == Copy(State(service).staging, account)
      modifies store
      ensures store.operations >= old(store.operations)
      ensures OtherServicesSame(old(store.services), store.services, service)
      ensures OnlyAt(old(State(service)), State(service), account)
      ensures KeptAt(old(State(service)), State(service), account)
      ensures r.Success? ==> DoneAt(State(service), account) && r.value == NeedsMove(canonical, staged)
                             && Movable(canonical, staged)
      ensures r.Failure? ==> r.error != InvalidService
      ensures old(store.Faultless()) && Movable(canonical, staged) ==> r.Success?
    {
      ghost var v0 := State(service);
      if staged.Some? && !IsTarget(staged.value) { return Failure(UnexpectedAccessibility(account)); }
      if canonical.None? {
        if staged.None? { return Success(false); }
        r := RestoreStaged(staged.value, service);
        return;
      }
      if IsTarget(canonical.value) {
        if staged.None? { return Success(false); }
        if canonical.value.data != staged.value.data { return Failure(ConflictingCopies(account)); }
        ghost var s0 := store.services;
        var deleted := store.Delete(service + SUFFIX, account);
        StagingChanged(s0, store.services, service, account);
        return if deleted.Failure? then Failure(deleted.error) else Success(false);
      }
      if !canonical.value.accessibility.FirstUnlock? { return Failure(UnexpectedAccessibility(account)); }
      if staged.Some? {
        if canonical.value.data != staged.value.data { return Failure(ConflictingCopies(account)); }
      } else {
        var stagedNow := StageLegacy(canonical.value, service);
        if stagedNow.Failure? { return Failure(stagedNow.error); }
      }
      ghost var v1 := State(service);
      r := ReplaceLegacy(canonical.value, service);
      KeptAtTransitive(v0, v1, State(service), account);
      SetsTwice(v0, v1, State(service), account);
    }

    /** Moves every secret of `service` into the target class. Wherever it stops,
        each secret is still in one of the two services with its bytes, what
        cannot be moved is untouched, and the completion flag is set only when
        everything has been moved. Without faults it succeeds exactly on a
        conflict-free vault. */
    method EnsureFirstUnlockThisDeviceOnly(service: Name) returns (r: Result<nat, MigrationError>)
      modifies this, store
      ensures VaultKept(old(State(service)), State(service))
      ensures OtherServicesSame(old(store.services), store.services, service)
      ensures completed == old(completed)
              || (completed == old(completed) + {service} && Migrated(State(service)) && ConflictFree(old(State(service))))
      ensures r.Success? && service !in old(completed) ==> Migrated(State(service)) && service in completed
      ensures r.Success? ==> r.value == if service in old(completed) then 0
                                        else Moves(old(State(service)), AccountsOf(old(State(service))))
      ensures r == Failure(InvalidService) <==> service !in ALLOWED_SERVICES
      ensures service !in ALLOWED_SERVICES || service in old(completed) ==> store.services == old(store.services)
      ensures service in ALLOWED_SERVICES && service !in old(completed) && old(store.Faultless())
              ==> (r.Success? <==> ConflictFree(old(State(service))))
    {
      ghost var v0 := State(service);
      VaultKeptReflexive(v0);
      if service !in ALLOWED_SERVICES { return Failure(InvalidService); }
      if service in completed { return Success(0); }
      var inCanonical := store.ReadItems(service);
      if inCanonical.Failure? { return Failure(inCanonical.error); }
      var canonical := IndexedItems(inCanonical.value);
      if canonical.Failure? { return Failure(canonical.error); }
      var inStaging := store.ReadItems(service + SUFFIX);
      if inStaging.Failure? { return Failure(inStaging.error); }
      var staged := IndexedItems(inStaging.value);
      if staged.Failure? { return Failure(staged.error); }
      var accounts := SortedSet(Accounts(inCanonical.value) + Accounts(inStaging.value));
      SortedSetIsSorted(Accounts(inCanonical.value) + Accounts(inStaging.value));
      assert accounts == AccountsOf(v0);
      var moved := MigrateAll(service, accounts, canonical.value, staged.value);
      if moved.Failure? { return Failure(moved.error); }
      AllDone(v0, State(service), accounts);
      completed := completed + {service};
      return Success(moved.value);
    }

    method MigrateNext(service: Name, accounts: seq<string>, n: nat, canonical: map<string, Item>,
                       staged: map<string, Item>, ghost v0: Vault) returns (r: Result<bool, MigrationError>)
      requires StrictlySorted(accounts) && n < |accounts| && Progress(v0, State(service), accounts, n)
      requires Indexes(canonical, v0.canonical) && Indexes(staged, v0.staging)
      modifies store
      ensures store.operations >= old(store.operations)
      ensures OtherServicesSame(old(store.services), store.services, service)
      ensures VaultKept(v0, State(service))
      ensures r.Success? ==> Progress(v0, State(service), accounts, n + 1)
                             && r.value == NeedsMove(Copy(v0.canonical, accounts[n]), Copy(v0.staging, accounts[n]))
      ensures r.Failure? ==> r.error != InvalidService && (old(store.Faultless()) ==> !MovableAt(v0, accounts[n]))
    {
      var account := accounts[n];
      ghost var v1 := State(service);
      assert SameAt(v0, v1, account);
      r := MigrateAccount(account, Find(canonical, account), Find(staged, account), service);
      OneAccountFurther(v0, v1, State(service), accounts, n);
    }

    method MigrateAll(service: Name, accounts: seq<string>, canonical: map<string, Item>, staged: map<string, Item>)
      returns (r: Result<nat, MigrationError>)
      requires Indexable(State(service)) && StrictlySorted(accounts)
      requires Indexes(canonical, State(service).canonical) && Indexes(staged, State(service).staging)
      modifies store
      ensures VaultKept(old(State(service)), State(service))
      ensures OtherServicesSame(old(store.services), store.services, service)
      ensures r.Success? ==> Progress(old(State(service)), State(service), accounts, |accounts|)
                             && r.value == Moves(old(State(service)), accounts)
      ensures r.Failure? ==> r.error != InvalidService
      ensures r.Failure? && old(store.Faultless()) ==> exists a :: !MovableAt(old(State(service)), a)
    {
      ghost var v0 := State(service);
      var migratedCount := 0;
      VaultKeptReflexive(v0);
      for n := 0 to |accounts|
        invariant store.operations >= old(store.operations)
        invariant Progress(v0, State(service), accounts, n) && VaultKept(v0, State(service))
        invariant OtherServicesSame(old(store.services), store.services, service)
        invariant migratedCount == Moves(v0, accounts[..n])
      {
        var didMigrate := MigrateNext(service, accounts, n, canonical, staged, v0);
        if didMigrate.Failure? { return Failure(didMigrate.error); }
        assert accounts[..n + 1][..n] == accounts[..n];
        if didMigrate.value { migratedCount := migratedCount + 1; }
      }
      assert accounts[..|accounts|] == accounts;
      return Success(migratedCount);
    }
  }

  ghost predicate Reliable(faults: nat -> Fault) { forall n :: faults(n).NoFault? }

  /** Every secret of `v0` is under its canonical service, in the target class,
      with its bytes, and nothing is staged. */
  ghost predicate AllArrived(v0: Vault, v: Vault) {
    && v.staging == []
    && forall account, data :: HoldsBytes(Copy(v0.canonical, account), Copy(v0.staging, account), data)
         ==> ArrivedAt(v, account, data)
  }

  predicate ArrivedAt(v: Vault, account: string, data: Bytes) {
    var c := Copy(v.canonical, account);
    c.Some? && c.value.data == data && IsTarget(c.value)
  }

  lemma MigratedHasArrived(v0: Vault, v: Vault)
    requires VaultKept(v0, v) && Migrated(v)
    ensures AllArrived(v0, v)
  {
    forall account, data | HoldsBytes(Copy(v0.canonical, account), Copy(v0.staging, account), data)
      ensures ArrivedAt(v, account, data)
    {
      MigratedHoldsEverySecret(v0, v, account, data);
    }
  }

  /** The migration of one service over any number of launches, each with its
      own faults. Whatever they are no secret is lost; the completion flag is
      only set once every secret has arrived; and a last launch without faults
      brings all of them home if the vault was conflict-free at the first. */
  method MigrateOverLaunches(services: map<Name, seq<Item>>, service: Name, launches: seq<nat -> Fault>)
    returns (after: map<Name, seq<Item>>, completed: set<Name>)
    requires service in ALLOWED_SERVICES
    ensures VaultKept(VaultOf(services, service), VaultOf(after, service))
    ensures service in completed ==> AllArrived(VaultOf(services, service), VaultOf(after, service))
    ensures launches != [] && Reliable(launches[|launches| - 1]) ==>
              (service in completed <==> ConflictFree(VaultOf(services, service)))
  {
    ghost var v0 := VaultOf(services, service);
    after, completed := services, {};
    VaultKeptReflexive(v0);
    for i := 0 to |launches|
      invariant VaultKept(v0, VaultOf(after, service))
      invariant service in completed ==> Migrated(VaultOf(after, service)) && ConflictFree(v0)
      invariant i > 0 && Reliable(launches[i - 1]) ==> (service in completed <==> ConflictFree(v0))
    {
      ghost var v := VaultOf(after, service);
      var store := new KeychainStore(after, launches[i]);
      var migrator := new Migrator(store, completed);
      var _ := migrator.EnsureFirstUnlockThisDeviceOnly(service);
      VaultKeptTransitive(v0, v, VaultOf(store.services, service));
      ConflictFreeEitherWay(v0, v);
      after, completed := store.services, migrator.completed;
    }
    if service in completed { MigratedHasArrived(v0, VaultOf(after, service)); }
  }

  /** A kept vault is conflict-free exactly when the one it was made from was. */
  lemma ConflictFreeEitherWay(v0: Vault, v: Vault)
    requires VaultKept(v0, v)
    ensures ConflictFree(v0) <==> ConflictFree(v)
  {
    KeepingConflictFree(v0, v);
    if ConflictFree(v) && Indexable(v0) {
      forall account ensures MovableAt(v0, account) {
        assert KeptAt(v0, v, account) && MovableAt(v, account);
      }
    }
  }

  /** Reads the copies into a dictionary; a repeated account is an error. */
  method IndexedItems(items: seq<Item>) returns (r: Result<map<string, Item>, MigrationError>)
    ensures r.Success? <==> UniqueAccounts(items)
    ensures r.Success? ==> Indexes(r.value, items)
    ensures r.Failure? ==> r.error.DuplicateAccount?
  {
    var result: map<string, Item> := map[];
    for n := 0 to |items|
      invariant UniqueAccounts(items[..n])
      invariant forall a :: a in result <==> exists i :: 0 <= i < n && items[i].account == a
      invariant forall i :: 0 <= i < n ==> items[i].account in result && result[items[i].account] == items[i]
    {
      if items[n].account in result {
        assert !UniqueAccounts(items);
        return Failure(DuplicateAccount(items[n].account));
      }
      result := result[items[n].account := items[n]];
    }
    assert items[..|items|] == items;
    forall a ensures Find(result, a) == Copy(items, a) {
      assert Copy(items, a).Some? ==> Copy(items, a).value in items;
      if a in result {
        var i :| 0 <= i < |items| && items[i].account == a;
        UniqueCopy(items, i);
      }
    }
    return Success(result);
  }

  ghost predicate Indexes(m: map<string, Item>, items: seq<Item>) {
    forall a :: Find(m, a) == Copy(items, a)
  }

  function Find(m: map<string, Item>, account: string): Option<Item> {
    if account in m then Some(m[account]) else None
  }

  function AccountsOf(v: Vault): seq<string> { SortedSet(Accounts(v.canonical) + Accounts(v.staging)) }

  function Accounts(items: seq<Item>): (r: seq<string>)
    ensures forall a :: a in r <==> Copy(items, a).Some?
  {
    if items == [] then [] else [items[0].account] + Accounts(items[1..])
  }

  /** How many of the accounts move when they are migrated from `v0`. */
  function Moves(v0: Vault, accounts: seq<string>): nat {
    if accounts == [] then 0
    else
      var a := accounts[|accounts| - 1];
      Moves(v0, accounts[..|accounts| - 1]) + if NeedsMove(Copy(v0.canonical, a), Copy(v0.staging, a)) then 1 else 0
  }

  /** The accounts before `n` are migrated; those from `n` on are as in `v0`. */
  ghost predicate Progress(v0: Vault, v: Vault, accounts: seq<string>, n: nat) {
    && n <= |accounts| && Indexable(v0) && Indexable(v)
    && (forall a :: KeptAt(v0, v, a))
    && (forall i :: 0 <= i < n ==> DoneAt(v, accounts[i]) && MovableAt(v0, accounts[i]))
    && (forall i :: n <= i < |accounts| ==> SameAt(v0, v, accounts[i]))
    && (forall a :: a !in accounts ==> SameAt(v0, v, a))
  }

  /** One more account, whether its migration ended or was interrupted. */
  lemma OneAccountFurther(v0: Vault, v1: Vault, v2: Vault, accounts: seq<string>, n: nat)
    requires StrictlySorted(accounts) && n < |accounts| && Progress(v0, v1, accounts, n)
    requires OnlyAt(v1, v2, accounts[n]) && KeptAt(v1, v2, accounts[n])
    ensures VaultKept(v0, v2)
    ensures DoneAt(v2, accounts[n]) && MovableAt(v0, accounts[n]) ==> Progress(v0, v2, accounts, n + 1)
  {
    forall i | 0 <= i < |accounts| && i != n ensures accounts[i] != accounts[n] {
      LessIrreflexive(accounts[n]);
    }
    forall a ensures KeptAt(v0, v2, a) {
      assert KeptAt(v0, v1, a);
      if a == accounts[n] { KeptAtTransitive(v0, v1, v2, a); } else { assert SameAt(v1, v2, a); }
    }
    forall i | 0 <= i < |accounts| && i != n ensures SameAt(v1, v2, accounts[i]) {
    }
    forall a | a !in accounts ensures SameAt(v0, v2, a) {
      assert SameAt(v0, v1, a) && SameAt(v1, v2, a);
    }
  }

  lemma SomeMember(items: seq<Item>)
    requires items != []
    ensures exists it :: it in items
  {
    assert items[0] in items;
  }

  /** Once every account is done the vault is migrated, and it was conflict-free. */
  lemma AllDone(v0: Vault, v: Vault, accounts: seq<string>)
    requires Progress(v0, v, accounts, |accounts|)
    requires forall a :: a in accounts <==> Copy(v0.canonical, a).Some? || Copy(v0.staging, a).Some?
    ensures Migrated(v) && ConflictFree(v0)
  {
    forall a ensures DoneAt(v, a) && MovableAt(v0, a) {
      if a in accounts {
        var i :| 0 <= i < |accounts| && accounts[i] == a;
      } else {
        assert SameAt(v0, v, a);
      }
    }
    forall it ensures it !in v.staging {
      assert DoneAt(v, it.account);
    }
    if v.staging != [] { SomeMember(v.staging); }
    forall it | it in v.canonical ensures IsTarget(it) {
      var i :| 0 <= i < |v.canonical| && v.canonical[i] == it;
      UniqueCopy(v.canonical, i);
      assert DoneAt(v, it.account);
    }
  }

  /** `v` differs from `v0` at `account` only, and holds these copies there. */
  ghost predicate Sets(v0: Vault, v: Vault, account: string, c: Option<Item>, s: Option<Item>) {
    OnlyAt(v0, v, account) && Copy(v.canonical, account) == c && Copy(v.staging, account) == s
  }

  /** One service changed, at one account, to these items. */
  ghost predicate ItemsChanged(before: seq<Item>, after: seq<Item>, account: string) {
    && (UniqueAccounts(before) ==> UniqueAccounts(after))
    && forall b :: b != account ==> Copy(after, b) == Copy(before, b)
  }

  lemma CanonicalChanged(s0: map<Name, seq<Item>>, s1: map<Name, seq<Item>>, service: Name, account: string)
    requires OnlyServiceChanged(s0, s1, service)
    requires ItemsChanged(ItemsOf(s0, service), ItemsOf(s1, service), account)
    ensures OtherServicesSame(s0, s1, service)
    ensures var v0, v1 := VaultOf(s0, service), VaultOf(s1, service);
            Sets(v0, v1, account, Copy(ItemsOf(s1, service), account), Copy(v0.staging, account))
  {
    assert |service + SUFFIX| != |service|;
  }

  lemma StagingChanged(s0: map<Name, seq<Item>>, s1: map<Name, seq<Item>>, service: Name, account: string)
    requires OnlyServiceChanged(s0, s1, service + SUFFIX)
    requires ItemsChanged(ItemsOf(s0, service + SUFFIX), ItemsOf(s1, service + SUFFIX), account)
    ensures OtherServicesSame(s0, s1, service)
    ensures var v0, v1 := VaultOf(s0, service), VaultOf(s1, service);
            Sets(v0, v1, account, Copy(v0.canonical, account), Copy(ItemsOf(s1, service + SUFFIX), account))
  {
    assert |service + SUFFIX| != |service|;
  }

  lemma SetsTwice(v0: Vault, v1: Vault, v2: Vault, account: string)
    requires OnlyAt(v0, v1, account) && OnlyAt(v1, v2, account)
    ensures Sets(v0, v2, account, Copy(v2.canonical, account), Copy(v2.staging, account))
  {
    forall b | b != account ensures SameAt(v0, v2, b) {
      assert SameAt(v0, v1, b) && SameAt(v1, v2, b);
    }
  }

  lemma KeptAtTransitive(v0: Vault, v1: Vault, v2: Vault, account: string)
    requires KeptAt(v0, v1, account) && KeptAt(v1, v2, account)
    ensures KeptAt(v0, v2, account)
  {
  }

  lemma {:induction false} OneMatch(items: seq<Item>, account: string)
    ensures var matches := Filter(items, (it: Item) => it.account == account);
            && (Copy(items, account).Some? ==> matches != [] && matches[0] == Copy(items, account).value)
            && (Copy(items, account).None? ==> matches == [])
            && (UniqueAccounts(items) && Copy(items, account).Some? ==> matches == [Copy(items, account).value])
  {
    if items != [] {
      OneMatch(items[1..], account);
      if items[0].account == account && UniqueAccounts(items) {
        forall it | it in items[1..] ensures it.account != account {
          var j :| 0 <= j < |items[1..]| && items[1..][j] == it;
          assert items[j + 1] == it;
        }
      }
    }
  }
}
