/** The cleaner that may erase the keychain at the first launch of an install,
    and why an interrupted migration can never lead it to erase a wallet. */
module FreshInstall {
  import opened Base
  import opened Keychain
  import opened KeychainMigration

  const WALLET_DB_NAME_KEY := "zcash_wallet_db_name"

  const ERR_SEC_ITEM_NOT_FOUND := -25_300

  datatype Lookup = Found(name: string) | Missing | Invalid | Failed(status: int)

  datatype Decision =
    | SentinelPresent | MarkInstalled | PreserveExistingInstall | ClearStaleKeychain
    | DeferAfterReadFailure(status: int) | DeferAfterInvalidName

  predicate Deferred(d: Decision) { d.DeferAfterReadFailure? || d.DeferAfterInvalidName? }

  /** What a launch finds outside the keychain: which reads fail and how, which
      stored bytes are a usable file name, which databases exist, and the
      status of each deletion. */
  datatype Launch = Launch(
    readFailure: Name -> Option<int>, decode: Bytes -> Option<string>, walletDbExists: string -> bool,
    deletionStatus: Name -> int)

  /** Staging before canonical, for each allowed service. */
  function SecureStoreServices(): seq<Name> { StagedAndCanonical(ALLOWED_SERVICES) }

  function StagedAndCanonical(services: seq<Name>): (r: seq<Name>)
    ensures |r| == 2 * |services|
    ensures forall i :: 0 <= i < |services| ==> r[2 * i] == services[i] + SUFFIX && r[2 * i + 1] == services[i]
  {
    if services == [] then []
    else StagedAndCanonical(services[..|services| - 1]) + [services[|services| - 1] + SUFFIX, services[|services| - 1]]
  }

  lemma BothServices(service: Name)
    requires service in ALLOWED_SERVICES
    ensures service in SecureStoreServices() && service + SUFFIX in SecureStoreServices()
  {
    var i :| 0 <= i < |ALLOWED_SERVICES| && ALLOWED_SERVICES[i] == service;
    var names := StagedAndCanonical(ALLOWED_SERVICES);
    assert names[2 * i] == service + SUFFIX && names[2 * i + 1] == service;
  }

  const OTHER_SERVICES := [
    "com.zcash.wallet.biometric-unlock", "com.keplr.vizor.ironwood-migration-background.v1",
    "com.keplr.vizor.ironwood-migration-outbox-key.v1"]

  /** Every service the cleaner clears. */
  function ServicesToClear(): seq<Name> { OTHER_SERVICES + SecureStoreServices() }

  /** Each service to clear is emptied, unless its deletion failed, and no other
      service is touched. */
  ghost predicate Cleared(before: map<Name, seq<Item>>, after: map<Name, seq<Item>>, launch: Launch) {
    && (forall n :: n in ServicesToClear() && DeleteSucceeded(launch.deletionStatus(n)) ==> ItemsOf(after, n) == [])
    && (forall n :: n !in ServicesToClear() || !DeleteSucceeded(launch.deletionStatus(n))
          ==> ItemsOf(after, n) == ItemsOf(before, n))
  }

  function LookupIn(services: map<Name, seq<Item>>, service: Name, launch: Launch): Lookup {
    if launch.readFailure(service).Some? then Failed(launch.readFailure(service).value)
    else
      var copy := Copy(ItemsOf(services, service), WALLET_DB_NAME_KEY);
      if copy.None? then Missing
      else
        var name := launch.decode(copy.value.data);
        if name.None? then Invalid else Found(name.value)
  }

  function Lookups(services: map<Name, seq<Item>>, launch: Launch): seq<Lookup> {
    LookupsIn(services, SecureStoreServices(), launch)
  }

  function LookupsIn(services: map<Name, seq<Item>>, names: seq<Name>, launch: Launch): (r: seq<Lookup>)
    ensures |r| == |names| && forall i :: 0 <= i < |r| ==> r[i] == LookupIn(services, names[i], launch)
  {
    seq(|names|, i requires 0 <= i < |names| => LookupIn(services, names[i], launch))
  }

  predicate Unreadable(l: Lookup) { l.Invalid? || l.Failed? }

  function DeferralOf(l: Lookup): Decision
    requires Unreadable(l)
  {
    if l.Invalid? then DeferAfterInvalidName else DeferAfterReadFailure(l.status)
  }

  predicate SomeFound(lookups: seq<Lookup>) { exists l :: l in lookups && l.Found? }

  predicate SomeExisting(lookups: seq<Lookup>, exists_: string -> bool) {
    exists l :: l in lookups && l.Found? && exists_(l.name)
  }

  /** When each decision is made: an unreadable name defers, whichever comes
      first; else no name marks the install, an existing database preserves it,
      and only names of missing databases clear the keychain. */
  ghost predicate Decides(d: Decision, lookups: seq<Lookup>, exists_: string -> bool) {
    && (Deferred(d) <==> exists l :: l in lookups && Unreadable(l))
    && (Deferred(d) ==> exists i :: 0 <= i < |lookups| && FirstUnreadable(lookups, i) && d == DeferralOf(lookups[i]))
    && (!Deferred(d) ==>
          && (d.MarkInstalled? <==> !SomeFound(lookups))
          && (d.PreserveExistingInstall? <==> SomeExisting(lookups, exists_))
          && (d.ClearStaleKeychain? <==> SomeFound(lookups) && !SomeExisting(lookups, exists_))
          && !d.SentinelPresent?)
  }

  predicate FirstUnreadable(lookups: seq<Lookup>, i: int) {
    0 <= i < |lookups| && Unreadable(lookups[i]) && forall j :: 0 <= j < i ==> !Unreadable(lookups[j])
  }

  predicate DeleteSucceeded(status: int) { status == 0 || status == ERR_SEC_ITEM_NOT_FOUND }

  predicate AllSecureDeletionsSucceed(launch: Launch) {
    forall n :: n in SecureStoreServices() ==> DeleteSucceeded(launch.deletionStatus(n))
  }

  /** The database of some wallet is named in one of its two services. */
  ghost predicate NamesExistingWallet(services: map<Name, seq<Item>>, launch: Launch) {
    exists service, data :: service in ALLOWED_SERVICES && NamesIn(services, launch, service, data)
  }

  ghost predicate NamesIn(services: map<Name, seq<Item>>, launch: Launch, service: Name, data: Bytes) {
    var v := VaultOf(services, service);
    && HoldsBytes(Copy(v.canonical, WALLET_DB_NAME_KEY), Copy(v.staging, WALLET_DB_NAME_KEY), data)
    && launch.decode(data).Some? && launch.walletDbExists(launch.decode(data).value)
  }

  class Cleaner {
    const keychain: KeychainStore
    var installSentinel: bool
    var cleanupPending: bool

    constructor (keychain: KeychainStore, installSentinel: bool, cleanupPending: bool)
      ensures this.keychain == keychain
      ensures this.installSentinel == installSentinel && this.cleanupPending == cleanupPending
    {
      this.keychain, this.installSentinel, this.cleanupPending := keychain, installSentinel, cleanupPending;
    }

    method CleanupDecision(launch: Launch) returns (d: Decision)
      ensures installSentinel ==> d == SentinelPresent
      ensures !installSentinel ==> Decides(d, Lookups(keychain.services, launch), launch.walletDbExists)
    {
      if installSentinel { return SentinelPresent; }
      d := DecideFrom(Lookups(keychain.services, launch), launch.walletDbExists);
    }

    /** Deletes every service; the install is marked only once the secure-store
        services are all gone. */
    method Clear(launch: Launch)
      modifies this, keychain`services
      ensures Cleared(old(keychain.services), keychain.services, launch)
      ensures installSentinel == (old(installSentinel) || AllSecureDeletionsSucceed(launch))
      ensures cleanupPending == (old(cleanupPending) && !AllSecureDeletionsSucceed(launch))
    {
      assert forall n :: n in SecureStoreServices() ==> n in ServicesToClear();
      var secureStoreFailure := DeleteAll(ServicesToClear(), SecureStoreServices(), launch);
      if secureStoreFailure.Some? { return; }
      cleanupPending := false;
      installSentinel := true;
    }

    /** Deletes the services in order and keeps the first failure of an anchor. */
    method DeleteAll(names: seq<Name>, anchors: seq<Name>, launch: Launch) returns (anchorFailure: Option<int>)
      requires forall n :: n in anchors ==> n in names
      modifies keychain`services
      ensures forall n :: n in names && DeleteSucceeded(launch.deletionStatus(n)) ==> ItemsOf(keychain.services, n) == []
      ensures forall n :: n !in names || !DeleteSucceeded(launch.deletionStatus(n))
                ==> ItemsOf(keychain.services, n) == ItemsOf(old(keychain.services), n)
      ensures anchorFailure.None? <==> forall n :: n in anchors ==> DeleteSucceeded(launch.deletionStatus(n))
    {
      anchorFailure := None;
      for i := 0 to |names|
        invariant forall n :: n in names[..i] && DeleteSucceeded(launch.deletionStatus(n))
                    ==> ItemsOf(keychain.services, n) == []
        invariant forall n :: n !in names[..i] || !DeleteSucceeded(launch.deletionStatus(n))
                    ==> ItemsOf(keychain.services, n) == ItemsOf(old(keychain.services), n)
        invariant anchorFailure.None? <==>
                    forall n :: n in names[..i] && n in anchors ==> DeleteSucceeded(launch.deletionStatus(n))
      {
        assert names[..i + 1] == names[..i] + [names[i]];
        var status := launch.deletionStatus(names[i]);
        if DeleteSucceeded(status) {
          keychain.services := keychain.services - {names[i]};
        } else if names[i] in anchors && anchorFailure.None? {
          anchorFailure := Some(status);
        }
      }
      assert names[..|names|] == names;
    }

    /** Runs once per launch. It erases nothing while the database of a wallet
        named in the keychain exists, and marks a walletless install only when
        every name could be read and none was found. */
    method RunIfNeeded(launch: Launch) returns (d: Decision)
      modifies this, keychain`services
      ensures old(installSentinel) ==> d == SentinelPresent && installSentinel && cleanupPending == old(cleanupPending)
      ensures !old(installSentinel) ==> Decides(d, Lookups(old(keychain.services), launch), launch.walletDbExists)
      ensures !d.ClearStaleKeychain? ==> keychain.services == old(keychain.services)
      ensures installSentinel <==> d.SentinelPresent? || d.MarkInstalled? || d.PreserveExistingInstall?
                                   || (d.ClearStaleKeychain? && AllSecureDeletionsSucceed(launch))
      ensures d.MarkInstalled? || d.PreserveExistingInstall? ==> !cleanupPending
      ensures d.ClearStaleKeychain? ==> (cleanupPending <==> !AllSecureDeletionsSucceed(launch))
      ensures Deferred(d) ==> cleanupPending == old(cleanupPending)
      ensures d.ClearStaleKeychain? ==> Cleared(old(keychain.services), keychain.services, launch)
      ensures NamesExistingWallet(old(keychain.services), launch) ==>
                keychain.services == old(keychain.services) && !d.MarkInstalled? && !d.ClearStaleKeychain?
    {
      if installSentinel { return SentinelPresent; }
      ghost var services := keychain.services;
      d := CleanupDecision(launch);
      if NamesExistingWallet(services, launch) { NamedWalletIsNeverCleared(services, launch, d); }
      Act(d, launch);
    }

    method Act(d: Decision, launch: Launch)
      modifies this, keychain`services
      ensures !d.ClearStaleKeychain? ==> keychain.services == old(keychain.services)
      ensures installSentinel <==> old(installSentinel) || d.MarkInstalled? || d.PreserveExistingInstall?
                                   || (d.ClearStaleKeychain? && AllSecureDeletionsSucceed(launch))
      ensures d.MarkInstalled? || d.PreserveExistingInstall? ==> !cleanupPending
      ensures d.ClearStaleKeychain? ==> (cleanupPending <==> !AllSecureDeletionsSucceed(launch))
      ensures Deferred(d) || d.SentinelPresent? ==> cleanupPending == old(cleanupPending)
      ensures d.ClearStaleKeychain? ==> Cleared(old(keychain.services), keychain.services, launch)
    {
      match d {
        case SentinelPresent =>
        case MarkInstalled => cleanupPending := false; installSentinel := true;
        case PreserveExistingInstall => cleanupPending := false; installSentinel := true;
        case ClearStaleKeychain =>
          if !cleanupPending { cleanupPending := true; }
          Clear(launch);
        case DeferAfterReadFailure(_) =>
        case DeferAfterInvalidName =>
      }
    }
  }

  /** Collects the names found, and gives up at the first one it cannot read. */
  method DecideFrom(lookups: seq<Lookup>, walletDbExists: string -> bool) returns (d: Decision)
    ensures Decides(d, lookups, walletDbExists)
  {
    var dbNames: seq<string> := [];
    for i := 0 to |lookups|
      invariant forall j :: 0 <= j < i ==> !Unreadable(lookups[j])
      invariant NamesFound(lookups[..i], dbNames)
    {
      assert lookups[..i + 1] == lookups[..i] + [lookups[i]];
      match lookups[i] {
        case Missing =>
        case Found(name) => dbNames := dbNames + [name];
        case Invalid =>
          assert lookups[i] in lookups && FirstUnreadable(lookups, i);
          return DeferAfterInvalidName;
        case Failed(status) =>
          assert lookups[i] in lookups && FirstUnreadable(lookups, i);
          return DeferAfterReadFailure(status);
      }
    }
    assert lookups[..|lookups|] == lookups;
    NamesAreFound(lookups, dbNames, walletDbExists);
    if dbNames == [] { return MarkInstalled; }
    return if exists name :: name in dbNames && walletDbExists(name) then PreserveExistingInstall
           else ClearStaleKeychain;
  }

  predicate NamesFound(lookups: seq<Lookup>, dbNames: seq<string>) {
    && (forall name :: name in dbNames ==> Found(name) in lookups)
    && (forall l :: l in lookups && l.Found? ==> l.name in dbNames)
  }

  lemma NamesAreFound(lookups: seq<Lookup>, dbNames: seq<string>, exists_: string -> bool)
    requires NamesFound(lookups, dbNames)
    ensures dbNames == [] <==> !SomeFound(lookups)
    ensures (exists name :: name in dbNames && exists_(name)) <==> SomeExisting(lookups, exists_)
  {
    if dbNames != [] { assert dbNames[0] in dbNames && Found(dbNames[0]) in lookups; }
    forall name | name in dbNames && exists_(name) ensures SomeExisting(lookups, exists_) {
      assert Found(name) in lookups;
    }
  }

  /** One of the two services answers with the name, unless it cannot be read. */
  lemma HolderOf(services: map<Name, seq<Item>>, launch: Launch, service: Name, data: Bytes) returns (holder: Name)
    requires service in ALLOWED_SERVICES && NamesIn(services, launch, service, data)
    ensures holder in SecureStoreServices()
    ensures var l := LookupIn(services, holder, launch); l.Failed? || (l.Found? && launch.walletDbExists(l.name))
  {
    BothServices(service);
    var inStaging := Copy(ItemsOf(services, service + SUFFIX), WALLET_DB_NAME_KEY);
    holder := if inStaging.Some? && inStaging.value.data == data then service + SUFFIX else service;
  }

  lemma LookedUp(services: map<Name, seq<Item>>, name: Name, launch: Launch)
    requires name in SecureStoreServices()
    ensures LookupIn(services, name, launch) in Lookups(services, launch)
  {
    var i :| 0 <= i < |SecureStoreServices()| && SecureStoreServices()[i] == name;
    assert Lookups(services, launch)[i] == LookupIn(services, name, launch);
  }

  /** Whatever the reads do, a named database that exists is found, or the
      decision is put off. */
  lemma NamedWalletIsNeverCleared(services: map<Name, seq<Item>>, launch: Launch, d: Decision)
    requires NamesExistingWallet(services, launch) && Decides(d, Lookups(services, launch), launch.walletDbExists)
    ensures d.PreserveExistingInstall? || Deferred(d)
  {
    var service, data :| service in ALLOWED_SERVICES && NamesIn(services, launch, service, data);
    var holder := HolderOf(services, launch, service, data);
    var l, lookups := LookupIn(services, holder, launch), Lookups(services, launch);
    LookedUp(services, holder, launch);
    if !Unreadable(l) { assert l in lookups && l.Found? && launch.walletDbExists(l.name); }
  }

  // ---------------------------------------------- beside interrupted migrations

  /** One interrupted or finished migration of some service. */
  ghost predicate MigrationMay(before: map<Name, seq<Item>>, after: map<Name, seq<Item>>) {
    exists service :: service in ALLOWED_SERVICES && MigrationOfMay(before, after, service)
  }

  ghost predicate MigrationOfMay(before: map<Name, seq<Item>>, after: map<Name, seq<Item>>, service: Name) {
    OtherServicesSame(before, after, service) && VaultKept(VaultOf(before, service), VaultOf(after, service))
  }

  /** The services of two wallets never coincide. */
  lemma ServicesAreDistinct(s: Name, t: Name)
    requires s in ALLOWED_SERVICES && t in ALLOWED_SERVICES && s != t
    ensures s + SUFFIX != t && s != t + SUFFIX && s + SUFFIX != t + SUFFIX
  {
    assert |SUFFIX| == 27;
    assert |ALLOWED_SERVICES[0]| == 28 && |ALLOWED_SERVICES[1]| == 37;
    assert |ALLOWED_SERVICES[2]| == 33 && |ALLOWED_SERVICES[3]| == 36;
  }

  lemma MigrationKeepsNames(before: map<Name, seq<Item>>, after: map<Name, seq<Item>>, launch: Launch)
    requires MigrationMay(before, after) && NamesExistingWallet(before, launch)
    ensures NamesExistingWallet(after, launch)
  {
    hide HoldsBytes;
    var moved :| moved in ALLOWED_SERVICES && MigrationOfMay(before, after, moved);
    var service, data :| service in ALLOWED_SERVICES && NamesIn(before, launch, service, data);
    if service == moved {
      assert KeptAt(VaultOf(before, service), VaultOf(after, service), WALLET_DB_NAME_KEY);
    } else {
      ServicesAreDistinct(service, moved);
      assert VaultOf(after, service) == VaultOf(before, service);
    }
    assert NamesIn(after, launch, service, data);
  }

  /** However many migrations were interrupted, at whatever point: while the
      database named in the keychain exists, the cleaner preserves the install
      or puts the decision off. */
  lemma {:induction false} CleanerSparesInterruptedMigrations(keychains: seq<map<Name, seq<Item>>>, launch: Launch,
                                                               d: Decision)
    requires keychains != [] && NamesExistingWallet(keychains[0], launch)
    requires forall i :: 0 <= i < |keychains| - 1 ==> MigrationMay(keychains[i], keychains[i + 1])
    requires Decides(d, Lookups(keychains[|keychains| - 1], launch), launch.walletDbExists)
    ensures d.PreserveExistingInstall? || Deferred(d)
    decreases |keychains|
  {
    if |keychains| == 1 {
      NamedWalletIsNeverCleared(keychains[0], launch, d);
    } else {
      assert MigrationMay(keychains[0], keychains[0 + 1]);
      MigrationKeepsNames(keychains[0], keychains[1], launch);
      var rest := keychains[1..];
      forall i | 0 <= i < |rest| - 1 ensures MigrationMay(rest[i], rest[i + 1]) {
        assert MigrationMay(keychains[i + 1], keychains[i + 1 + 1]);
      }
      CleanerSparesInterruptedMigrations(rest, launch, d);
    }
  }

  // ---------------------------------------------------------- whole launches

  /** One launch of the app: what the cleaner finds, and the migration of one
      service after it with the faults of its store operations. */
  datatype AppLaunch = AppLaunch(found: Launch, service: Name, faults: nat -> Fault)

  /** A wallet whose database is named in the keychain, found by every launch. */
  ghost predicate NamedThroughout(services: map<Name, seq<Item>>, launches: seq<AppLaunch>) {
    exists service, data :: service in ALLOWED_SERVICES && NamedByAll(services, launches, service, data)
  }

  ghost predicate NamedByAll(services: map<Name, seq<Item>>, launches: seq<AppLaunch>, service: Name, data: Bytes) {
    forall i :: 0 <= i < |launches| ==> NamesIn(services, launches[i].found, service, data)
  }

  ghost predicate AllVaultsKept(before: map<Name, seq<Item>>, after: map<Name, seq<Item>>) {
    forall service :: service in ALLOWED_SERVICES ==> VaultKept(VaultOf(before, service), VaultOf(after, service))
  }

  lemma MigrationKeepsAll(s0: map<Name, seq<Item>>, s1: map<Name, seq<Item>>, s2: map<Name, seq<Item>>, moved: Name)
    requires AllVaultsKept(s0, s1) && moved in ALLOWED_SERVICES && MigrationOfMay(s1, s2, moved)
    ensures AllVaultsKept(s0, s2)
  {
    forall service | service in ALLOWED_SERVICES ensures VaultKept(VaultOf(s0, service), VaultOf(s2, service)) {
      if service != moved {
        ServicesAreDistinct(service, moved);
        assert VaultOf(s2, service) == VaultOf(s1, service);
      }
      VaultKeptTransitive(VaultOf(s0, service), VaultOf(s1, service), VaultOf(s2, service));
    }
  }

  lemma KeptVaultsKeepNames(s0: map<Name, seq<Item>>, s1: map<Name, seq<Item>>, launch: Launch, service: Name, data: Bytes)
    requires AllVaultsKept(s0, s1) && service in ALLOWED_SERVICES && NamesIn(s0, launch, service, data)
    ensures NamesIn(s1, launch, service, data)
  {
    assert KeptAt(VaultOf(s0, service), VaultOf(s1, service), WALLET_DB_NAME_KEY);
  }

  /** Any number of launches, each running the cleaner and then a migration that
      may fail or crash at any operation. While every launch finds the named
      database, none of them erases anything: all secrets of all wallets are
      still there with their bytes. */
  method RunLaunches(services: map<Name, seq<Item>>, installSentinel: bool, cleanupPending: bool,
                     launches: seq<AppLaunch>) returns (after: map<Name, seq<Item>>, decisions: seq<Decision>)
    requires NamedThroughout(services, launches)
    ensures AllVaultsKept(services, after)
    ensures |decisions| == |launches|
    ensures forall d :: d in decisions ==> d.SentinelPresent? || d.PreserveExistingInstall? || Deferred(d)
  {
    ghost var named, data :| named in ALLOWED_SERVICES && NamedByAll(services, launches, named, data);
    after, decisions := services, [];
    var sentinel, pending, completed := installSentinel, cleanupPending, {};
    forall service | service in ALLOWED_SERVICES ensures VaultKept(VaultOf(services, service), VaultOf(after, service)) {
      VaultKeptReflexive(VaultOf(services, service));
    }
    for i := 0 to |launches|
      invariant AllVaultsKept(services, after) && |decisions| == i
      invariant forall d :: d in decisions ==> d.SentinelPresent? || d.PreserveExistingInstall? || Deferred(d)
    {
      var launch := launches[i];
      KeptVaultsKeepNames(services, after, launch.found, named, data);
      var keychain := new KeychainStore(after, launch.faults);
      var cleaner := new Cleaner(keychain, sentinel, pending);
      var d := cleaner.RunIfNeeded(launch.found);
      sentinel, pending := cleaner.installSentinel, cleaner.cleanupPending;
      var migrator := new Migrator(keychain, completed);
      var _ := migrator.EnsureFirstUnlockThisDeviceOnly(launch.service);
      completed := migrator.completed;
      if launch.service in ALLOWED_SERVICES {
        MigrationKeepsAll(services, after, keychain.services, launch.service);
      }
      after, decisions := keychain.services, decisions + [d];
    }
  }
}
