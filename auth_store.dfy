/**
 * The auth store: the signed-in user and token in memory, kept under the `authToken`
 * and `userInfo` keys of secure storage so that a restart can restore them.
 */
module Auth {
  import opened Outcomes
  import opened Entities
  import opened SecureStorage

  /** Storage after both keys of a session were written. */
  function SavedSession(e: map<string, Value>, u: User, t: string): (r: map<string, Value>)
    ensures r.Keys == e.Keys + {AuthTokenKey, UserInfoKey}
    ensures r[AuthTokenKey] == Str(t) && r[UserInfoKey] == UserJson(u)
    ensures forall k :: k in e && k != AuthTokenKey && k != UserInfoKey ==> r[k] == e[k]
  {
    e[AuthTokenKey := Str(t)][UserInfoKey := UserJson(u)]
  }

  /** Storage after both keys were deleted (deleting a missing key is not an error). */
  function ClearedSession(e: map<string, Value>): (r: map<string, Value>)
    ensures r.Keys == e.Keys - {AuthTokenKey, UserInfoKey}
    ensures forall k :: k in r ==> r[k] == e[k]
  {
    e - {AuthTokenKey, UserInfoKey}
  }

  /** The token `checkAuth` reads back. */
  function RestoredToken(e: map<string, Value>): (r: Option<string>)
    requires WellFormed(e)
    ensures r.Some? <==> AuthTokenKey in e
    ensures r.Some? ==> e[AuthTokenKey] == Str(r.value)
  {
    if AuthTokenKey in e then Some(e[AuthTokenKey].text) else None
  }

  /** The user `checkAuth` reads back: `storedUserInfo ? JSON.parse(storedUserInfo) : null`. */
  function RestoredUser(e: map<string, Value>): (r: Option<User>)
    requires WellFormed(e)
    ensures r.Some? <==> UserInfoKey in e
    ensures r.Some? ==> e[UserInfoKey] == UserJson(r.value)
  {
    if UserInfoKey in e then Some(e[UserInfoKey].user) else None
  }

  /** Signing in, then restarting, gives back the same user and token. */
  lemma RestoreAfterSave(e: map<string, Value>, u: User, t: string)
    ensures WellFormed(SavedSession(e, u, t))
    ensures RestoredToken(SavedSession(e, u, t)) == Some(t)
    ensures RestoredUser(SavedSession(e, u, t)) == Some(u)
  {
  }

  /** Signing out, then restarting, gives no user and no token. */
  lemma RestoreAfterClear(e: map<string, Value>)
    ensures WellFormed(ClearedSession(e))
    ensures RestoredToken(ClearedSession(e)) == None && RestoredUser(ClearedSession(e)) == None
  {
  }

  /** A missing `userInfo` always restores to no user, whatever the token. */
  lemma NoProfileNoUser(e: map<string, Value>)
    requires WellFormed(e)
    ensures RestoredUser(e) == None <==> UserInfoKey !in e
  {
  }

  /** Clearing twice is clearing once. */
  lemma ClearIdempotent(e: map<string, Value>)
    ensures ClearedSession(ClearedSession(e)) == ClearedSession(e)
  {
  }

  /** The later session overwrites the earlier one; signing out forgets a session entirely. */
  lemma SaveOverwritesAndClearForgets(e: map<string, Value>, u1: User, t1: string, u2: User, t2: string)
    ensures SavedSession(SavedSession(e, u1, t1), u2, t2) == SavedSession(e, u2, t2)
    ensures ClearedSession(SavedSession(e, u1, t1)) == ClearedSession(e)
  {
  }

  /** Saving and clearing touch no key but the two session keys. */
  lemma SessionFrame(e: map<string, Value>, u: User, t: string)
    ensures forall k :: k in e && k != AuthTokenKey && k != UserInfoKey ==>
      k in SavedSession(e, u, t) && SavedSession(e, u, t)[k] == e[k] &&
      k in ClearedSession(e) && ClearedSession(e)[k] == e[k]
    ensures forall k :: k in ClearedSession(e) ==> k in e && k != AuthTokenKey && k != UserInfoKey
  {
  }

  class AuthStore {
    var user: Option<User>
    var token: Option<string>
    var isLoading: bool
    const storage: Storage

    /** The state before `checkAuth` has run: nobody, and still loading. */
    constructor (storage: Storage)
      ensures user == None && token == None && isLoading && this.storage == storage
    {
      user, token, isLoading := None, None, true;
      this.storage := storage;
    }

    /** The two writes of `signIn`/`setUser`, token first; `ok` is false when one threw. */
    method Persist(u: User, t: string, fault: StorageFault) returns (ok: bool)
      requires storage.Valid()
      modifies storage
      ensures storage.Valid()
      ensures ok == fault.Survives(2)
      ensures storage.entries == if fault.Fails(0) then old(storage.entries)
                                 else if fault.Fails(1) then old(storage.entries)[AuthTokenKey := Str(t)]
                                 else SavedSession(old(storage.entries), u, t)
    {
      if fault.Fails(0) {
        return false;
      }
      storage.entries := storage.entries[AuthTokenKey := Str(t)];
      if fault.Fails(1) {
        return false;
      }
      storage.entries := storage.entries[UserInfoKey := UserJson(u)];
      ok := true;
    }

    /** The two deletions of `signOut`/`clearUser`, token first; `ok` is false when one threw. */
    method Forget(fault: StorageFault) returns (ok: bool)
      requires storage.Valid()
      modifies storage
      ensures storage.Valid()
      ensures ok == fault.Survives(2)
      ensures storage.entries == if fault.Fails(0) then old(storage.entries)
                                 else if fault.Fails(1) then old(storage.entries) - {AuthTokenKey}
                                 else ClearedSession(old(storage.entries))
    {
      if fault.Fails(0) {
        return false;
      }
      storage.entries := storage.entries - {AuthTokenKey};
      if fault.Fails(1) {
        return false;
      }
      storage.entries := storage.entries - {UserInfoKey};
      ok := true;
    }

    /** Persist the session, then show it; a storage error is logged and the memory left as it was. */
    method SignIn(u: User, t: string, fault: StorageFault)
      requires storage.Valid()
      modifies this, storage
      ensures storage.Valid()
      ensures storage.entries == if fault.Fails(0) then old(storage.entries)
                                 else if fault.Fails(1) then old(storage.entries)[AuthTokenKey := Str(t)]
                                 else SavedSession(old(storage.entries), u, t)
      ensures if fault.Survives(2) then user == Some(u) && token == Some(t) && !isLoading
              else user == old(user) && token == old(token) && isLoading == old(isLoading)
    {
      var ok := Persist(u, t, fault);
      if ok {
        user, token, isLoading := Some(u), Some(t), false;
      }
    }

    /** As `signIn`, but `isLoading` is left alone. */
    method SetUser(u: User, t: string, fault: StorageFault)
      requires storage.Valid()
      modifies this, storage
      ensures storage.Valid()
      ensures storage.entries == if fault.Fails(0) then old(storage.entries)
                                 else if fault.Fails(1) then old(storage.entries)[AuthTokenKey := Str(t)]
                                 else SavedSession(old(storage.entries), u, t)
      ensures isLoading == old(isLoading)
      ensures if fault.Survives(2) then user == Some(u) && token == Some(t)
              else user == old(user) && token == old(token)
    {
      var ok := Persist(u, t, fault);
      if ok {
        user, token := Some(u), Some(t);
      }
    }

    /** Delete both keys, then clear the memory and stop loading. */
    method SignOut(fault: StorageFault)
      requires storage.Valid()
      modifies this, storage
      ensures storage.Valid()
      ensures storage.entries == if fault.Fails(0) then old(storage.entries)
                                 else if fault.Fails(1) then old(storage.entries) - {AuthTokenKey}
                                 else ClearedSession(old(storage.entries))
      ensures if fault.Survives(2) then user == None && token == None && !isLoading
              else user == old(user) && token == old(token) && isLoading == old(isLoading)
    {
      var ok := Forget(fault);
      if ok {
        user, token, isLoading := None, None, false;
      }
    }

    /** As `signOut`, but `isLoading` is left alone. */
    method ClearUser(fault: StorageFault)
      requires storage.Valid()
      modifies this, storage
      ensures storage.Valid()
      ensures storage.entries == if fault.Fails(0) then old(storage.entries)
                                 else if fault.Fails(1) then old(storage.entries) - {AuthTokenKey}
                                 else ClearedSession(old(storage.entries))
      ensures isLoading == old(isLoading)
      ensures if fault.Survives(2) then user == None && token == None
              else user == old(user) && token == old(token)
    {
      var ok := Forget(fault);
      if ok {
        user, token := None, None;
      }
    }

    /** Read both keys (storage calls 0 and 1) into memory; the server is not contacted. */
    method CheckAuth(fault: StorageFault)
      requires storage.Valid()
      modifies this
      ensures if fault.Survives(2)
              then user == RestoredUser(storage.entries) && token == RestoredToken(storage.entries) && !isLoading
              else user == old(user) && token == old(token) && isLoading == old(isLoading)
    {
      if fault.Fails(0) || fault.Fails(1) {
        return;
      }
      var storedToken := if AuthTokenKey in storage.entries then Some(storage.entries[AuthTokenKey].text) else None;
      var storedUserInfo := if UserInfoKey in storage.entries then Some(storage.entries[UserInfoKey].user) else None;
      user, token, isLoading := storedUserInfo, storedToken, false;
    }
  }

  /** A sign-in survives a restart: a fresh store that checks storage sees the same user and token. */
  method SignInThenRestart(storage: Storage, u: User, t: string) returns (user: Option<User>, token: Option<string>)
    requires storage.Valid()
    modifies storage
    ensures user == Some(u) && token == Some(t)
  {
    var before := new AuthStore(storage);
    before.SignIn(u, t, Healthy);
    var after := new AuthStore(storage);
    after.CheckAuth(Healthy);
    user, token := after.user, after.token;
  }

  /** A sign-out (even a repeated one) survives a restart: a fresh store sees nobody. */
  method SignOutThenRestart(storage: Storage, twice: bool) returns (user: Option<User>, token: Option<string>)
    requires storage.Valid()
    modifies storage
    ensures user == None && token == None
  {
    var before := new AuthStore(storage);
    before.SignOut(Healthy);
    if twice {
      before.SignOut(Healthy);
    }
    var after := new AuthStore(storage);
    after.CheckAuth(Healthy);
    user, token := after.user, after.token;
  }
}
