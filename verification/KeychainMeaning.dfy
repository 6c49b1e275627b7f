/** What the promises about the keychain mean for the items stored in it. */
module KeychainMeaning {
  import opened Base
  import opened Keychain
  import opened KeychainMigration
  import opened FreshInstall

  predicate Distinct(items: seq<Keychain.Item>) {
    forall i, j :: 0 <= i < j < |items| ==> items[i].account != items[j].account
  }

  lemma OnlyCopy(items: seq<Keychain.Item>, it: Keychain.Item)
    requires Distinct(items) && it in items
    ensures Copy(items, it.account) == Some(it)
  {
    var i :| 0 <= i < |items| && items[i] == it;
    UniqueCopy(items, i);
  }

  /** A vault can be migrated exactly if no account repeats in a service, its
      copies are in the classes the migration knows, and the two copies of an
      account agree. */
  lemma ConflictFreeIs(v: Vault)
    ensures ConflictFree(v) <==>
              && Distinct(v.canonical) && Distinct(v.staging)
              && (forall it :: it in v.canonical ==> it.accessibility in {FirstUnlockThisDeviceOnly, FirstUnlock})
              && (forall it :: it in v.staging ==> it.accessibility == FirstUnlockThisDeviceOnly)
              && (forall c, s :: c in v.canonical && s in v.staging && c.account == s.account ==> c.data == s.data)
  {
    if Distinct(v.canonical) && Distinct(v.staging) {
      forall it | it in v.canonical ensures Copy(v.canonical, it.account) == Some(it) { OnlyCopy(v.canonical, it); }
      forall it | it in v.staging ensures Copy(v.staging, it.account) == Some(it) { OnlyCopy(v.staging, it); }
      if ConflictFree(v) {
        forall it | it in v.canonical ensures it.accessibility in {FirstUnlockThisDeviceOnly, FirstUnlock} {
          assert MovableAt(v, it.account);
        }
        forall it | it in v.staging ensures it.accessibility == FirstUnlockThisDeviceOnly {
          assert MovableAt(v, it.account);
        }
        forall c, s | c in v.canonical && s in v.staging && c.account == s.account ensures c.data == s.data {
          assert MovableAt(v, c.account);
        }
      }
    }
  }

  ghost predicate Stored(v: Vault, account: string, data: Bytes) {
    exists it :: (it in v.canonical || it in v.staging) && it.account == account && it.data == data
  }

  lemma StoredIff(v: Vault, account: string, data: Bytes)
    requires Distinct(v.canonical) && Distinct(v.staging)
    ensures HoldsBytes(Copy(v.canonical, account), Copy(v.staging, account), data) <==> Stored(v, account, data)
  {
    var c, s := Copy(v.canonical, account), Copy(v.staging, account);
    if c.Some? && c.value.data == data { assert c.value in v.canonical; }
    if s.Some? && s.value.data == data { assert s.value in v.staging; }
    if Stored(v, account, data) {
      var it :| (it in v.canonical || it in v.staging) && it.account == account && it.data == data;
      if it in v.canonical { OnlyCopy(v.canonical, it); } else { OnlyCopy(v.staging, it); }
    }
  }

  /** A vault that was kept holds the same secrets, none lost and none made up. */
  lemma KeptMeans(v0: Vault, v: Vault, account: string, data: Bytes)
    requires VaultKept(v0, v)
    ensures Stored(v, account, data) <==> Stored(v0, account, data)
  {
    if Indexable(v0) {
      StoredIff(v0, account, data);
      StoredIff(v, account, data);
      assert KeptAt(v0, v, account);
    }
  }

  /** A vault whose secrets have all arrived holds each of them in its canonical
      service, under the class that only this device can read. */
  lemma ArrivedMeans(v0: Vault, v: Vault, account: string, data: Bytes)
    requires AllArrived(v0, v) && Distinct(v0.canonical) && Distinct(v0.staging) && Stored(v0, account, data)
    ensures v.staging == []
    ensures exists it :: it in v.canonical && it.account == account && it.data == data
                         && it.accessibility == FirstUnlockThisDeviceOnly
  {
    StoredIff(v0, account, data);
    assert ArrivedAt(v, account, data);
    assert Copy(v.canonical, account).value in v.canonical;
  }

  /** A copy put into the target class differs in nothing else. */
  lemma TargetClassIs(it: Keychain.Item)
    ensures InTargetClass(it) == it.(accessibility := FirstUnlockThisDeviceOnly)
    ensures IsTarget(it) <==> it.accessibility == FirstUnlockThisDeviceOnly
  {
  }

  /** A legacy copy, or a staged copy alone, is what there is to move. */
  function ToMove(v: Vault): string -> bool {
    (a: string) =>
      match Copy(v.canonical, a)
      case None => Copy(v.staging, a) != None
      case Some(c) => c.accessibility == FirstUnlock
  }

  /** The accounts counted as moved: those with a legacy copy, and those with a
      staged copy alone. */
  lemma {:induction false} MovesIs(v0: Vault, accounts: seq<string>)
    ensures Moves(v0, accounts) == |Filter(accounts, ToMove(v0))|
  {
    hide Copy, Filter, ToMove, Moves;
    if accounts == [] {
      NothingToMove(v0);
    } else {
      MovesIs(v0, accounts[..|accounts| - 1]);
      OneMoreToMove(v0, accounts);
    }
  }

  lemma OneMoreToMove(v0: Vault, accounts: seq<string>)
    requires accounts != []
    ensures var init, last := accounts[..|accounts| - 1], accounts[|accounts| - 1];
            && Moves(v0, accounts) == Moves(v0, init) + (if ToMove(v0)(last) then 1 else 0)
            && |Filter(accounts, ToMove(v0))| == |Filter(init, ToMove(v0))| + (if ToMove(v0)(last) then 1 else 0)
  {
    var init, last := accounts[..|accounts| - 1], accounts[|accounts| - 1];
    assert Moves(v0, accounts) == Moves(v0, init) + (if ToMove(v0)(last) then 1 else 0);
    hide Copy, Filter, ToMove, Moves;
    FilterSnoc(init, last, ToMove(v0));
    assert accounts == init + [last];
  }

  lemma NothingToMove(v0: Vault)
    ensures Filter([], ToMove(v0)) == [] && Moves(v0, []) == 0
  {
  }

  // --------------------------------------------------------- the first launch

  /** The services looked up, staging before canonical. */
  lemma ServicesAre()
    ensures |SecureStoreServices()| == 8
    ensures SecureStoreServices()[0] == "com.keplr.vizor.secure_store" + ".accessibility-migration-v1"
    ensures SecureStoreServices()[1] == "com.keplr.vizor.secure_store"
    ensures SecureStoreServices()[2] == "com.keplr.vizor.ironwood.secure_store" + ".accessibility-migration-v1"
    ensures SecureStoreServices()[3] == "com.keplr.vizor.ironwood.secure_store"
    ensures SecureStoreServices()[4] == "com.keplr.vizor.test.secure_store" + ".accessibility-migration-v1"
    ensures SecureStoreServices()[5] == "com.keplr.vizor.test.secure_store"
    ensures SecureStoreServices()[6] == "com.keplr.vizor.regtest.secure_store" + ".accessibility-migration-v1"
    ensures SecureStoreServices()[7] == "com.keplr.vizor.regtest.secure_store"
  {
    var names := SecureStoreServices();
    assert names[2 * 0] == names[0] && names[2 * 0 + 1] == names[1];
    assert names[2 * 1] == names[2] && names[2 * 1 + 1] == names[3];
    assert names[2 * 2] == names[4] && names[2 * 2 + 1] == names[5];
    assert names[2 * 3] == names[6] && names[2 * 3 + 1] == names[7];
  }

  /** The services cleared: those, and three others. */
  lemma ClearedAre(n: Name)
    ensures n in ServicesToClear()
            <==> n in SecureStoreServices() || n == "com.zcash.wallet.biometric-unlock"
                 || n == "com.keplr.vizor.ironwood-migration-background.v1"
                 || n == "com.keplr.vizor.ironwood-migration-outbox-key.v1"
  {
  }

  /** A lookup finds the name in the first copy stored under its key. */
  lemma LookupIs(services: map<Name, seq<Keychain.Item>>, service: Name, launch: Launch, i: nat)
    requires i < |ItemsOf(services, service)| && ItemsOf(services, service)[i].account == "zcash_wallet_db_name"
    requires forall j :: 0 <= j < i ==> ItemsOf(services, service)[j].account != "zcash_wallet_db_name"
    ensures LookupIn(services, service, launch)
            == match launch.readFailure(service)
               case Some(status) => Failed(status)
               case None =>
                 match launch.decode(ItemsOf(services, service)[i].data)
                 case Some(name) => Found(name)
                 case None => Invalid
  {
    FirstIsCopy(ItemsOf(services, service), i);
  }

  lemma {:induction false} FirstIsCopy(items: seq<Keychain.Item>, i: nat)
    requires i < |items| && forall j :: 0 <= j < i ==> items[j].account != items[i].account
    ensures Copy(items, items[i].account) == Some(items[i])
  {
    if i > 0 { FirstIsCopy(items[1..], i - 1); }
  }

  lemma LookupMisses(services: map<Name, seq<Keychain.Item>>, service: Name, launch: Launch)
    requires forall it :: it in ItemsOf(services, service) ==> it.account != "zcash_wallet_db_name"
    ensures LookupIn(services, service, launch)
            == match launch.readFailure(service) case Some(status) => Failed(status) case None => Missing
  {
  }

  /** A deletion that finds nothing to delete has succeeded too. */
  lemma DeletionIs(status: int)
    ensures DeleteSucceeded(status) <==> status == 0 || status == -25_300
  {
  }

  /** The lookups that decide, said of the lookups themselves. */
  lemma DecisionIs(d: Decision, lookups: seq<Lookup>, exists_: string -> bool)
    requires Decides(d, lookups, exists_)
    ensures d == DeferAfterInvalidName <==>
              exists i :: 0 <= i < |lookups| && lookups[i] == Invalid && ReadableBefore(lookups, i)
    ensures forall status :: d == DeferAfterReadFailure(status) <==>
              exists i :: 0 <= i < |lookups| && lookups[i] == Failed(status) && ReadableBefore(lookups, i)
    ensures d == MarkInstalled <==> forall i :: 0 <= i < |lookups| ==> lookups[i] == Missing
    ensures d == ClearStaleKeychain <==>
              && (forall i :: 0 <= i < |lookups| ==> lookups[i].Missing? || lookups[i].Found?)
              && (exists i :: 0 <= i < |lookups| && lookups[i].Found?)
              && forall i :: 0 <= i < |lookups| && lookups[i].Found? ==> !exists_(lookups[i].name)
    ensures d != SentinelPresent
  {
    forall i, j | 0 <= i < |lookups| && 0 <= j < |lookups| && FirstUnreadable(lookups, i) && FirstUnreadable(lookups, j)
      ensures i == j
    {
    }
    if Deferred(d) {
      var i :| 0 <= i < |lookups| && FirstUnreadable(lookups, i) && d == DeferralOf(lookups[i]);
      assert lookups[i] in lookups && ReadableBefore(lookups, i);
      forall j | 0 <= j < |lookups| && Unreadable(lookups[j]) && ReadableBefore(lookups, j) ensures j == i {
        assert FirstUnreadable(lookups, j);
      }
    } else {
      forall i | 0 <= i < |lookups| ensures !Unreadable(lookups[i]) {
        assert lookups[i] in lookups;
      }
    }
  }

  predicate ReadableBefore(lookups: seq<Lookup>, i: int)
    requires 0 <= i <= |lookups|
  {
    forall j :: 0 <= j < i ==> lookups[j].Missing? || lookups[j].Found?
  }

  /** What the cleaner must not lose: an item of either service of some wallet
      whose bytes name a database that exists. */
  lemma NamesExistingIs(services: map<Name, seq<Keychain.Item>>, launch: Launch, service: Name, it: Keychain.Item,
                        name: string)
    requires service in ["com.keplr.vizor.secure_store", "com.keplr.vizor.ironwood.secure_store",
                         "com.keplr.vizor.test.secure_store", "com.keplr.vizor.regtest.secure_store"]
    requires var v := VaultOf(services, service);
             Distinct(v.canonical) && Distinct(v.staging) && (it in v.canonical || it in v.staging)
    requires it.account == "zcash_wallet_db_name" && launch.decode(it.data) == Some(name) && launch.walletDbExists(name)
    ensures NamesExistingWallet(services, launch)
  {
    var v := VaultOf(services, service);
    StoredIff(v, it.account, it.data);
    assert Stored(v, it.account, it.data);
    assert NamesIn(services, launch, service, it.data);
  }
}
