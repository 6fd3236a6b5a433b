/** The access gate (`AuthProvider`): one boolean state cell,
    `isAuthenticated`, backed by the `josoft_auth` storage key. Two states,
    anonymous and authenticated; `login` with the fixed secret is the only
    way in and `logout` the only way out. */
module AuthContext {
  import opened Records
  import opened LocalStorage
  import CompanyContext

  /** The password `login` compares against, in plain text. */
  const Secret: string := "admin123"

  /** `localStorage.getItem('josoft_auth') === 'true'`. */
  predicate StoredFlag(m: map<string, Snapshot>)
  {
    AuthKey in m && m[AuthKey] == Text("true")
  }

  /** `m` and `r` agree on every key except `josoft_auth`. */
  ghost predicate SameElsewhere(m: map<string, Snapshot>, r: map<string, Snapshot>)
  {
    forall k :: k != AuthKey ==> (k in r <==> k in m) && (k in m ==> r[k] == m[k])
  }

  /** Storage after `login(password)`. */
  function LoginEntries(m: map<string, Snapshot>, password: string): (r: map<string, Snapshot>)
    ensures password == Secret ==> StoredFlag(r)
    ensures password != Secret ==> r == m
    ensures SameElsewhere(m, r)
  {
    if password == Secret then m[AuthKey := Text("true")] else m
  }

  /** Storage after `logout()`. */
  function LogoutEntries(m: map<string, Snapshot>): (r: map<string, Snapshot>)
    ensures !StoredFlag(r) && AuthKey !in r
    ensures SameElsewhere(m, r)
  {
    m - {AuthKey}
  }

  /** Logging out twice is logging out once. */
  lemma LogoutIdempotent(m: map<string, Snapshot>)
    ensures LogoutEntries(LogoutEntries(m)) == LogoutEntries(m)
  {
  }

  /** Logging in a second time with the same password, right or wrong,
      changes nothing more. */
  lemma LoginIdempotent(m: map<string, Snapshot>, password: string)
    ensures LoginEntries(LoginEntries(m, password), password) == LoginEntries(m, password)
  {
  }

  /** The company store writes only its own three keys, which leaves the
      gate's flag as it was. */
  lemma StoreWritesKeepFlag(m: map<string, Snapshot>, k: string, v: Snapshot)
    requires k == ProfileKey || k == ApplicationsKey || k == InternshipsKey
    ensures StoredFlag(m[k := v]) == StoredFlag(m)
  {
  }

  /** The other direction: the gate writes only its own key, so storage that
      mirrors the company store's three cells still mirrors them after a
      login or a logout. */
  lemma GateWritesKeepMirrors(m: map<string, Snapshot>, password: string, p: CompanyProfile, apps: seq<Application>, interns: seq<Internship>)
    requires CompanyContext.Mirrors(m, p, apps, interns)
    ensures CompanyContext.Mirrors(LoginEntries(m, password), p, apps, interns)
    ensures CompanyContext.Mirrors(LogoutEntries(m), p, apps, interns)
  {
  }

  class AuthGate {
    var isAuthenticated: bool
    const storage: Storage

    /** The state cell agrees with the stored flag. */
    ghost predicate Valid()
      reads this, storage
    {
      isAuthenticated == StoredFlag(storage.entries)
    }

    /** The initial state is read from storage. */
    constructor (local: Storage)
      ensures storage == local
      ensures isAuthenticated == StoredFlag(local.entries)
      ensures Valid()
    {
      storage := local;
      isAuthenticated := StoredFlag(local.entries);
    }

    /** `login(password)`: with the secret, store `'true'`, become
        authenticated and answer true; otherwise answer false and touch
        nothing. */
    method Login(password: string) returns (ok: bool)
      requires Valid()
      modifies this, storage
      ensures Valid()
      ensures ok == (password == Secret)
      ensures storage.entries == LoginEntries(old(storage.entries), password)
      ensures isAuthenticated == (ok || old(isAuthenticated))
    {
      if password == Secret {
        storage.SetItem(AuthKey, Text("true"));
        isAuthenticated := true;
        return true;
      }
      return false;
    }

    /** `logout()`: remove the key and become anonymous, from either state. */
    method Logout()
      requires Valid()
      modifies this, storage
      ensures Valid()
      ensures !isAuthenticated
      ensures storage.entries == LogoutEntries(old(storage.entries))
    {
      storage.RemoveItem(AuthKey);
      isAuthenticated := false;
    }
  }

  /** Logging in with the secret, failing with another password, and logging
      out, in that order. */
  method AuthScenario(local: Storage)
    modifies local
  {
    var gate := new AuthGate(local);
    var ok := gate.Login("admin123");
    assert ok && gate.isAuthenticated;
    var before := local.entries;
    ok := gate.Login("wrong");
    assert !ok && gate.isAuthenticated && local.entries == before;
    gate.Logout();
    assert !gate.isAuthenticated && AuthKey !in local.entries;
    gate.Logout();
    assert !gate.isAuthenticated && local.entries == before - {AuthKey};
  }
}
