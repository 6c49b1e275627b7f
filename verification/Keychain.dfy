/** The secure-store services of the keychain and the copies they hold. */
module Keychain {
  import opened Base

  type Name = string

  datatype Accessibility = FirstUnlockThisDeviceOnly | FirstUnlock | OtherClass(name: string)

  datatype Item = Item(account: string, data: Bytes, accessibility: Accessibility, attributes: string)

  /** A wallet's two services: where its secrets live, and where the migration
      keeps a second copy while it moves them. */
  datatype Vault = Vault(canonical: seq<Item>, staging: seq<Item>)

  const SUFFIX := ".accessibility-migration-v1"

  const ALLOWED_SERVICES := [
    "com.keplr.vizor.secure_store", "com.keplr.vizor.ironwood.secure_store",
    "com.keplr.vizor.test.secure_store", "com.keplr.vizor.regtest.secure_store"]

  function VaultOf(services: map<Name, seq<Item>>, service: Name): Vault {
    Vault(ItemsOf(services, service), ItemsOf(services, service + SUFFIX))
  }

  function ItemsOf(services: map<Name, seq<Item>>, service: Name): seq<Item> {
    if service in services then services[service] else []
  }

  // -------------------------------------------------- the copy of an account

  function Copy(items: seq<Item>, account: string): (r: Option<Item>)
    ensures r.Some? ==> r.value in items && r.value.account == account
    ensures r.None? <==> forall it :: it in items ==> it.account != account
  {
    if items == [] then None
    else if items[0].account == account then Some(items[0])
    else Copy(items[1..], account)
  }

  predicate UniqueAccounts(items: seq<Item>) {
    forall i, j :: 0 <= i < j < |items| ==> items[i].account != items[j].account
  }

  function Without(items: seq<Item>, account: string): seq<Item> {
    Filter(items, (it: Item) => it.account != account)
  }

  lemma {:induction false} CopyAppended(items: seq<Item>, x: Item, account: string)
    ensures Copy(items + [x], account)
            == if Copy(items, account).Some? then Copy(items, account) else if x.account == account then Some(x) else None
  {
    if items != [] {
      CopyAppended(items[1..], x, account);
      assert (items + [x])[1..] == items[1..] + [x];
    }
  }

  lemma WithoutUnfolds(items: seq<Item>, gone: string)
    requires items != []
    ensures Without(items, gone)
            == if items[0].account == gone then Without(items[1..], gone) else [items[0]] + Without(items[1..], gone)
  {
  }

  lemma {:induction false} CopyRemoved(items: seq<Item>, gone: string, account: string)
    ensures Copy(Without(items, gone), account) == if account == gone then None else Copy(items, account)
  {
    if items != [] {
      CopyRemoved(items[1..], gone, account);
      WithoutUnfolds(items, gone);
    }
  }

  lemma {:induction false} RemovalKeepsUnique(items: seq<Item>, gone: string)
    requires UniqueAccounts(items)
    ensures UniqueAccounts(Without(items, gone))
  {
    if items != [] {
      RemovalKeepsUnique(items[1..], gone);
      WithoutUnfolds(items, gone);
      var rest := Without(items[1..], gone);
      forall j | 0 <= j < |rest| ensures rest[j].account != items[0].account {
        assert rest[j] in items[1..];
      }
    }
  }

  lemma {:induction false} UniqueCopy(items: seq<Item>, i: nat)
    requires UniqueAccounts(items) && i < |items|
    ensures Copy(items, items[i].account) == Some(items[i])
  {
    if i > 0 {
      UniqueCopy(items[1..], i - 1);
    }
  }

  // ------------------------------------------- what an interruption may leave

  predicate IsTarget(it: Item) { it.accessibility.FirstUnlockThisDeviceOnly? }

  /** The copies the migration can move: a staged one is in the target class, a
      canonical one in the target or the legacy class, and two hold the same bytes. */
  predicate Movable(c: Option<Item>, s: Option<Item>) {
    && (s.Some? ==> IsTarget(s.value))
    && (c.Some? ==> IsTarget(c.value) || c.value.accessibility.FirstUnlock?)
    && (c.Some? && s.Some? ==> c.value.data == s.value.data)
  }

  predicate HoldsBytes(c: Option<Item>, s: Option<Item>, data: Bytes) {
    (c.Some? && c.value.data == data) || (s.Some? && s.value.data == data)
  }

  /** From copies `c0`, `s0` of an account to `c`, `s`: the same secrets, none
      lost and none invented; copies that conflict or are in an unexpected
      class are exactly as they were. */
  ghost predicate Kept(c0: Option<Item>, s0: Option<Item>, c: Option<Item>, s: Option<Item>) {
    && (forall data :: HoldsBytes(c0, s0, data) <==> HoldsBytes(c, s, data))
    && (Movable(c0, s0) ==> Movable(c, s))
    && (!Movable(c0, s0) ==> c == c0 && s == s0)
  }

  ghost predicate KeptAt(v0: Vault, v: Vault, account: string) {
    Kept(Copy(v0.canonical, account), Copy(v0.staging, account), Copy(v.canonical, account), Copy(v.staging, account))
  }

  predicate Indexable(v: Vault) { UniqueAccounts(v.canonical) && UniqueAccounts(v.staging) }

  ghost predicate VaultKept(v0: Vault, v: Vault) {
    && (forall account :: KeptAt(v0, v, account))
    && (Indexable(v0) ==> Indexable(v))
    && (!Indexable(v0) ==> v == v0)
  }

  lemma VaultKeptTransitive(v0: Vault, v1: Vault, v2: Vault)
    requires VaultKept(v0, v1) && VaultKept(v1, v2)
    ensures VaultKept(v0, v2)
  {
    forall account ensures KeptAt(v0, v2, account) {
      assert KeptAt(v0, v1, account) && KeptAt(v1, v2, account);
      var c0, s0 := Copy(v0.canonical, account), Copy(v0.staging, account);
      var c1, s1 := Copy(v1.canonical, account), Copy(v1.staging, account);
      var c2, s2 := Copy(v2.canonical, account), Copy(v2.staging, account);
      forall data ensures HoldsBytes(c0, s0, data) <==> HoldsBytes(c2, s2, data) {
        assert HoldsBytes(c0, s0, data) <==> HoldsBytes(c1, s1, data);
        assert HoldsBytes(c1, s1, data) <==> HoldsBytes(c2, s2, data);
      }
    }
  }

  lemma VaultKeptReflexive(v: Vault)
    ensures VaultKept(v, v)
  {
    forall account ensures KeptAt(v, v, account) {
    }
  }

  /** No account repeats in a service and every account can be moved. */
  ghost predicate ConflictFree(v: Vault) {
    Indexable(v) && forall account :: MovableAt(v, account)
  }

  predicate MovableAt(v: Vault, account: string) { Movable(Copy(v.canonical, account), Copy(v.staging, account)) }

  /** The end of a migration: nothing staged, every secret in the target class. */
  predicate Migrated(v: Vault) {
    v.staging == [] && forall it :: it in v.canonical ==> IsTarget(it)
  }

  /** Any number of interrupted migrations: each vault is kept by the next. */
  ghost predicate Interruptions(vaults: seq<Vault>) {
    forall i :: 0 <= i < |vaults| - 1 ==> VaultKept(vaults[i], vaults[i + 1])
  }

  /** What any number of interrupted migrations leaves: each original secret
      with its bytes in one of the two services, conflicts untouched, and a
      conflict-free vault still conflict-free. */
  lemma {:induction false} InterruptionsKeepSecrets(vaults: seq<Vault>)
    requires vaults != [] && Interruptions(vaults)
    ensures VaultKept(vaults[0], vaults[|vaults| - 1])
    ensures ConflictFree(vaults[0]) ==> ConflictFree(vaults[|vaults| - 1])
    decreases |vaults|
  {
    var n := |vaults| - 1;
    if n == 0 {
      VaultKeptReflexive(vaults[0]);
    } else {
      var init := vaults[..n];
      forall i | 0 <= i < |init| - 1 ensures VaultKept(init[i], init[i + 1]) {
        assert VaultKept(vaults[i], vaults[i + 1]);
      }
      InterruptionsKeepSecrets(init);
      assert VaultKept(vaults[n - 1], vaults[n - 1 + 1]);
      VaultKeptTransitive(vaults[0], vaults[n - 1], vaults[n]);
    }
    KeepingConflictFree(vaults[0], vaults[n]);
  }

  lemma KeepingConflictFree(v0: Vault, v: Vault)
    requires VaultKept(v0, v)
    ensures ConflictFree(v0) ==> ConflictFree(v)
  {
    if ConflictFree(v0) {
      forall account ensures MovableAt(v, account) {
        assert KeptAt(v0, v, account) && MovableAt(v0, account);
      }
    }
  }

  /** A migrated vault that kept `v0` holds each of its secrets once, in the
      target class, with its original bytes, under its canonical service. */
  lemma MigratedHoldsEverySecret(v0: Vault, v: Vault, account: string, data: Bytes)
    requires VaultKept(v0, v) && Migrated(v)
    requires HoldsBytes(Copy(v0.canonical, account), Copy(v0.staging, account), data)
    ensures var c := Copy(v.canonical, account);
            c.Some? && c.value.data == data && IsTarget(c.value) && v.staging == []
  {
    assert KeptAt(v0, v, account);
    assert HoldsBytes(Copy(v.canonical, account), Copy(v.staging, account), data);
  }

  /** From whatever any number of interrupted migrations left of `vaults[0]`, a
      migration that ends in a migrated vault has brought every original secret
      under its canonical service, in the target class, with its bytes. */
  lemma EverySecretArrives(vaults: seq<Vault>, v: Vault, account: string, data: Bytes)
    requires vaults != [] && Interruptions(vaults) && VaultKept(vaults[|vaults| - 1], v) && Migrated(v)
    requires HoldsBytes(Copy(vaults[0].canonical, account), Copy(vaults[0].staging, account), data)
    ensures var c := Copy(v.canonical, account);
            c.Some? && c.value.data == data && IsTarget(c.value) && v.staging == []
  {
    InterruptionsKeepSecrets(vaults);
    VaultKeptTransitive(vaults[0], vaults[|vaults| - 1], v);
    MigratedHoldsEverySecret(vaults[0], v, account, data);
  }
}
