/**
 * The client's auth state (frontend/src/features/auth/authSlice.ts): the
 * signed-in user, the token and an `isAuthenticated` flag, mirrored into
 * local storage under the keys "token" and "user" so that a reload starts
 * from what was stored.
 */
module AuthSlice {
  import opened Wrappers
  import opened UserJson

  type Storage = map<string, string>

  const TokenKey := "token"
  const UserKey := "user"

  datatype AuthState = AuthState(user: Option<User>, token: Option<string>, isAuthenticated: bool)

  /** The state and local storage together. */
  datatype Slice = Slice(state: AuthState, storage: Storage)

  /** `Partial<User>`: the fields an update sets. */
  datatype UserPatch = UserPatch(id: Option<string>, name: Option<string>, email: Option<string>, role: Option<string>,
                                 createdAt: Option<string>, updatedAt: Option<string>)

  /** The invariant the reducers keep: authenticated exactly when there is a
      token. */
  predicate Consistent(s: AuthState) {
    s.isAuthenticated <==> s.token.Some?
  }

  /** `localStorage.getItem(key)` used as a condition: present and not empty. */
  predicate Truthy(storage: Storage, key: string) {
    key in storage && storage[key] != ""
  }

  function GetItem(storage: Storage, key: string): Option<string> {
    if key in storage then Some(storage[key]) else None
  }

  /** `getInitialAuthState()`. Without a window (server rendering) nothing is
      read; otherwise the stored user is parsed, which fails on text that is
      not a stored user. */
  function InitialAuthState(hasWindow: bool, storage: Storage): Result<AuthState, string> {
    if !hasWindow then
      Ok(AuthState(None, None, false))
    else
      var token := GetItem(storage, TokenKey);
      var authenticated := Truthy(storage, TokenKey);
      if Truthy(storage, UserKey) then
        match Decode(storage[UserKey])
        case None => Err("SyntaxError")
        case Some(u) => Ok(AuthState(Some(u), token, authenticated))
      else
        Ok(AuthState(None, token, authenticated))
  }

  /** `{ ...user, ...patch }`. */
  function Merge(u: User, p: UserPatch): User {
    User(if p.id.Some? then p.id.value else u.id,
         if p.name.Some? then p.name.value else u.name,
         if p.email.Some? then p.email.value else u.email,
         if p.role.Some? then p.role.value else u.role,
         if p.createdAt.Some? then p.createdAt else u.createdAt,
         if p.updatedAt.Some? then p.updatedAt else u.updatedAt)
  }

  // ---------------------------------------------------------------------
  // The reducers, on values
  // ---------------------------------------------------------------------

  function SetCredentialsSpec(s: Slice, user: User, token: string): Slice {
    Slice(AuthState(Some(user), Some(token), true), s.storage[TokenKey := token][UserKey := Encode(user)])
  }

  function LogoutSpec(s: Slice): Slice {
    Slice(AuthState(None, None, false), s.storage - {TokenKey, UserKey})
  }

  function UpdateProfileSpec(s: Slice, patch: UserPatch): Slice {
    if s.state.user.None? then s
    else
      var u := Merge(s.state.user.value, patch);
      Slice(s.state.(user := Some(u)), s.storage[UserKey := Encode(u)])
  }

  // ---------------------------------------------------------------------
  // The slice
  // ---------------------------------------------------------------------

  class AuthStore {
    var user: Option<User>
    var token: Option<string>
    var isAuthenticated: bool
    /** The browser's local storage. */
    var storage: Storage

    function Current(): Slice
      reads this
    {
      Slice(AuthState(user, token, isAuthenticated), storage)
    }

    constructor (initial: AuthState, stored: Storage)
      ensures Current() == Slice(initial, stored)
    {
      user := initial.user;
      token := initial.token;
      isAuthenticated := initial.isAuthenticated;
      storage := stored;
    }

    method SetCredentials(payloadUser: User, payloadToken: string)
      modifies this
      ensures Current() == SetCredentialsSpec(old(Current()), payloadUser, payloadToken)
    {
      user := Some(payloadUser);
      token := Some(payloadToken);
      isAuthenticated := true;
      storage := storage[TokenKey := payloadToken];
      storage := storage[UserKey := Encode(payloadUser)];
    }

    method Logout()
      modifies this
      ensures Current() == LogoutSpec(old(Current()))
    {
      user := None;
      token := None;
      isAuthenticated := false;
      storage := storage - {TokenKey};
      storage := storage - {UserKey};
    }

    method UpdateProfile(patch: UserPatch)
      modifies this
      ensures Current() == UpdateProfileSpec(old(Current()), patch)
    {
      if user.Some? {
        user := Some(Merge(user.value, patch));
        storage := storage[UserKey := Encode(user.value)];
      }
    }
  }

  // ---------------------------------------------------------------------
  // Properties
  // ---------------------------------------------------------------------

  /** Without a window the state is empty. With one, the state is
      authenticated exactly when a non-empty token is stored, the token is the
      stored one, and the user is the stored one when one is stored. */
  lemma InitialState(hasWindow: bool, storage: Storage)
    ensures !hasWindow ==> InitialAuthState(hasWindow, storage) == Ok(AuthState(None, None, false))
    ensures hasWindow && InitialAuthState(hasWindow, storage).Ok? ==>
      var s := InitialAuthState(hasWindow, storage).value;
      && (s.isAuthenticated <==> TokenKey in storage && storage[TokenKey] != "")
      && s.token == GetItem(storage, TokenKey)
      && (s.user.Some? <==> Truthy(storage, UserKey))
  {
  }

  /** The initial state keeps the invariant unless the stored token is the
      empty string, which reads as a token but not as signed in. */
  lemma InitialStateConsistentIff(hasWindow: bool, storage: Storage)
    requires InitialAuthState(hasWindow, storage).Ok?
    ensures Consistent(InitialAuthState(hasWindow, storage).value)
        <==> !(hasWindow && TokenKey in storage && storage[TokenKey] == "")
  {
  }

  /** Every reducer keeps the invariant; `setCredentials` and `logout`
      establish it whatever the state before. */
  lemma ReducersKeepConsistent(s: Slice, user: User, token: string, patch: UserPatch)
    ensures Consistent(SetCredentialsSpec(s, user, token).state)
    ensures Consistent(LogoutSpec(s).state)
    ensures Consistent(s.state) ==> Consistent(UpdateProfileSpec(s, patch).state)
  {
  }

  /** After `setCredentials` the state holds the payload, storage holds the
      token and the serialised user, and a reload reads both back (signed in
      when the token is not empty). Other keys are untouched. */
  lemma SetCredentialsThenReload(s: Slice, user: User, token: string)
    ensures var s' := SetCredentialsSpec(s, user, token);
      && s'.state == AuthState(Some(user), Some(token), true)
      && s'.storage[TokenKey] == token && Decode(s'.storage[UserKey]) == Some(user)
      && (forall k :: k != TokenKey && k != UserKey ==> (k in s'.storage <==> k in s.storage))
      && InitialAuthState(true, s'.storage) == Ok(AuthState(Some(user), Some(token), token != ""))
  {
    var stored := s.storage[TokenKey := token][UserKey := Encode(user)];
    assert TokenKey != UserKey by { assert TokenKey[0] != UserKey[0]; }
    assert stored[TokenKey] == token && stored[UserKey] == Encode(user);
    DecodeEncode(user);
    EncodeNotEmpty(user);
    assert Truthy(stored, UserKey);
    assert GetItem(stored, TokenKey) == Some(token);
  }

  /** After `logout` the state is empty, both keys are gone, and a reload
      starts signed out. */
  lemma LogoutThenReload(s: Slice)
    ensures var s' := LogoutSpec(s);
      && s'.state == AuthState(None, None, false)
      && TokenKey !in s'.storage && UserKey !in s'.storage
      && InitialAuthState(true, s'.storage) == Ok(AuthState(None, None, false))
  {
  }

  /** Every field of a merged user is the patch's when the patch sets it and
      the old user's otherwise. */
  lemma MergeFields(u: User, p: UserPatch)
    ensures var m := Merge(u, p);
      && m.id == (if p.id.Some? then p.id.value else u.id)
      && m.name == (if p.name.Some? then p.name.value else u.name)
      && m.email == (if p.email.Some? then p.email.value else u.email)
      && m.role == (if p.role.Some? then p.role.value else u.role)
      && m.createdAt == (if p.createdAt.Some? then p.createdAt else u.createdAt)
      && m.updatedAt == (if p.updatedAt.Some? then p.updatedAt else u.updatedAt)
    ensures p == UserPatch(None, None, None, None, None, None) ==> Merge(u, p) == u
  {
  }

  /** `updateProfile` without a user changes nothing; with one it replaces
      every field the patch sets, keeps the others, leaves the token, the
      flag and every other storage key alone and stores the merged user. */
  lemma UpdateProfileEffect(s: Slice, patch: UserPatch)
    ensures s.state.user.None? ==> UpdateProfileSpec(s, patch) == s
    ensures s.state.user.Some? ==>
      var s' := UpdateProfileSpec(s, patch);
      var old_ := s.state.user.value;
      && s'.state.user == Some(Merge(old_, patch))
      && s'.state.user.value.id == (if patch.id.Some? then patch.id.value else old_.id)
      && s'.state.user.value.name == (if patch.name.Some? then patch.name.value else old_.name)
      && s'.state.user.value.email == (if patch.email.Some? then patch.email.value else old_.email)
      && s'.state.user.value.role == (if patch.role.Some? then patch.role.value else old_.role)
      && s'.state.user.value.createdAt == (if patch.createdAt.Some? then patch.createdAt else old_.createdAt)
      && s'.state.user.value.updatedAt == (if patch.updatedAt.Some? then patch.updatedAt else old_.updatedAt)
      && (patch == UserPatch(None, None, None, None, None, None) ==> s'.state.user == s.state.user)
      && s'.state.token == s.state.token && s'.state.isAuthenticated == s.state.isAuthenticated
      && UserKey in s'.storage && Decode(s'.storage[UserKey]) == s'.state.user
      && (forall k :: k != UserKey ==> (k in s'.storage <==> k in s.storage))
      && (forall k :: k != UserKey && k in s.storage ==> s'.storage[k] == s.storage[k])
  {
    if s.state.user.Some? {
      var m := Merge(s.state.user.value, patch);
      var stored := s.storage[UserKey := Encode(m)];
      assert UpdateProfileSpec(s, patch) == Slice(s.state.(user := Some(m)), stored);
      MergeFields(s.state.user.value, patch);
      DecodeEncode(m);
      assert stored[UserKey] == Encode(m);
    }
  }
}
