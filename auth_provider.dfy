/** The authentication context: the current session (Anonymous when None,
    Authenticated when Some) kept beside the stored record. */
module AuthContext {
  import opened Common
  import opened Sessions

  /** The provider's `user` state together with the storage it writes. */
  datatype AuthState = AuthState(user: Option<Session>, entries: Storage)

  /** The state agrees with what storage holds under `fmc_user`. */
  predicate InStep(s: AuthState)
  {
    s.user == Stored(s.entries)
  }

  /** Before the mount effect runs the user is null, whatever is stored. */
  function Initial(entries: Storage): (s: AuthState)
    ensures s.user.None? && s.entries == entries
  {
    AuthState(None, entries)
  }

  /** The mount effect: a stored record becomes the user; without one the
      user is left as it was. Storage is only read. */
  function AfterMount(s: AuthState): (t: AuthState)
    ensures t.entries == s.entries
    ensures UserKey in s.entries ==> t.user == Some(s.entries[UserKey])
    ensures UserKey !in s.entries ==> t.user == s.user
  {
    if Stored(s.entries).Some? then s.(user := Stored(s.entries)) else s
  }

  /** `login(userData)`: the user is the new record, which overwrites any
      stored session; every other key is kept. */
  function AfterLogin(s: AuthState, userData: Session): (t: AuthState)
    ensures t.user == Some(userData)
    ensures t.entries == s.entries[UserKey := userData]
    ensures InStep(t)
  {
    AuthState(Some(userData), s.entries[UserKey := userData])
  }

  /** `logout()`: the user is null and `fmc_user` is gone; every other key
      is kept. */
  function AfterLogout(s: AuthState): (t: AuthState)
    ensures t.user.None?
    ensures t.entries == s.entries - {UserKey} && UserKey !in t.entries
    ensures InStep(t)
  {
    AuthState(None, s.entries - {UserKey})
  }

  /** Mounting a fresh provider puts the state in step with storage:
      Authenticated exactly when a record is stored. */
  lemma MountedProviderInStep(entries: Storage)
    ensures InStep(AfterMount(Initial(entries)))
    ensures AfterMount(Initial(entries)).user.Some? <==> UserKey in entries
  {
  }

  /** A second logout changes nothing. */
  lemma LogoutIdempotent(s: AuthState)
    ensures AfterLogout(AfterLogout(s)) == AfterLogout(s)
  {
    assert AfterLogout(s).entries - {UserKey} == AfterLogout(s).entries;
  }

  /** A later login replaces an earlier one completely. */
  lemma LoginOverwrites(s: AuthState, first: Session, second: Session)
    ensures AfterLogin(AfterLogin(s, first), second) == AfterLogin(s, second)
  {
    assert s.entries[UserKey := first][UserKey := second] == s.entries[UserKey := second];
  }

  /** Logging in and then out leaves storage as it was, less any session
      stored before. */
  lemma LoginThenLogout(s: AuthState, userData: Session)
    ensures AfterLogout(AfterLogin(s, userData)) == AfterLogout(s)
  {
    assert s.entries[UserKey := userData] - {UserKey} == s.entries - {UserKey};
  }

  /** The provider component. */
  class AuthProvider {
    var user: Option<Session>
    const storage: LocalStorage

    function State(): AuthState
      reads this, storage
    {
      AuthState(user, storage.entries)
    }

    constructor (storage: LocalStorage)
      ensures this.storage == storage
      ensures State() == Initial(storage.entries)
    {
      user := None;
      this.storage := storage;
    }

    /** The effect that runs once after the first render. */
    method Mount()
      modifies this`user
      ensures State() == AfterMount(old(State()))
    {
      var stored := Stored(storage.entries);
      if stored.Some? {
        user := stored;
      }
    }

    method Login(userData: Session)
      modifies this`user, storage
      ensures State() == AfterLogin(old(State()), userData)
    {
      user := Some(userData);
      storage.SetItem(UserKey, userData);
    }

    method Logout()
      modifies this`user, storage
      ensures State() == AfterLogout(old(State()))
    {
      user := None;
      storage.RemoveItem(UserKey);
    }
  }
}
