/**
 * The session store (`AuthProvider`): the signed-in user and bearer token, mirrored
 * into the browser's key/value storage under the keys "token" and "user".
 *
 * The pure functions LoggedIn, LoggedOut and Restored give each operation's effect on a
 * snapshot of the whole state; the class AuthProvider holds that state in fields and its
 * methods are proved to follow those functions.
 */
module Session {
  import opened Common

  const TokenKey: string := "token"
  const UserKey: string := "user"

  /** What `JSON.parse` of a stored user can give: an exception, the value null, or a user. */
  datatype Parsed = ParseError | ParsedNull | ParsedUser(user: User)

  /**
   * `JSON.stringify` and `JSON.parse` for User, left opaque. Nothing here proves that
   * decode undoes encode; the round-trip results state it as an assumption.
   */
  datatype Codec = Codec(encode: User -> string, decode: string -> Parsed)

  /** The provider's two state variables together with the storage map they mirror. */
  datatype AuthState = AuthState(user: Option<User>, token: Option<string>, storage: map<string, string>)

  /** `localStorage.getItem(key)`. */
  function Lookup(storage: map<string, string>, key: string): Option<string>
  {
    if key in storage then Some(storage[key]) else None
  }

  /** JavaScript truthiness of a `string | null`: present and non-empty. */
  predicate Truthy(v: Option<string>)
  {
    v.Some? && v.value != ""
  }

  /** `storedToken && storedUser`: both keys hold a non-empty string. */
  predicate HasStoredSession(storage: map<string, string>)
  {
    Truthy(Lookup(storage, TokenKey)) && Truthy(Lookup(storage, UserKey))
  }

  /** `isAuthenticated: !!user`: the token plays no part. */
  predicate IsAuthenticated(s: AuthState)
    ensures IsAuthenticated(s) <==> s.user.Some?
  {
    s.user.Some?
  }

  /** Whatever the token holds, it does not decide whether the session is authenticated. */
  lemma AuthenticationIgnoresToken(s: AuthState, t: Option<string>)
    ensures IsAuthenticated(s.(token := t)) == IsAuthenticated(s)
  {
  }

  /** The state a provider starts with: no user, no token, whatever storage already holds. */
  function Initial(storage: map<string, string>): (s: AuthState)
    ensures !IsAuthenticated(s) && s.token.None? && s.storage == storage
  {
    AuthState(None, None, storage)
  }

  /** `login(userData, authToken)`. */
  function LoggedIn(s: AuthState, codec: Codec, u: User, t: string): (r: AuthState)
    ensures r.user == Some(u) && r.token == Some(t) && IsAuthenticated(r)
    ensures Lookup(r.storage, TokenKey) == Some(t)
    ensures Lookup(r.storage, UserKey) == Some(codec.encode(u))
    ensures forall k :: k != TokenKey && k != UserKey ==> Lookup(r.storage, k) == Lookup(s.storage, k)
  {
    AuthState(Some(u), Some(t), s.storage[TokenKey := t][UserKey := codec.encode(u)])
  }

  /** `logout()`. */
  function LoggedOut(s: AuthState): (r: AuthState)
    ensures r.user.None? && r.token.None? && !IsAuthenticated(r)
    ensures TokenKey !in r.storage && UserKey !in r.storage
    ensures forall k :: k != TokenKey && k != UserKey ==> Lookup(r.storage, k) == Lookup(s.storage, k)
  {
    AuthState(None, None, s.storage - {TokenKey, UserKey})
  }

  /** The restore effect that runs when a provider mounts. */
  function Restored(s: AuthState, codec: Codec): (r: AuthState)
    // a missing or empty key: nothing happens, a lone leftover key stays
    ensures !HasStoredSession(s.storage) ==> r == s
    // both keys present: the outcome follows what parsing the stored user gives
    ensures HasStoredSession(s.storage) ==>
      match codec.decode(s.storage[UserKey])
      case ParseError =>
        r.user == s.user && r.token == s.token && r.storage == s.storage - {TokenKey, UserKey}
      case ParsedNull =>
        r.user.None? && r.token == Some(s.storage[TokenKey]) && r.storage == s.storage
      case ParsedUser(u) =>
        r.user == Some(u) && r.token == Some(s.storage[TokenKey]) && r.storage == s.storage
  {
    if HasStoredSession(s.storage) then
      var storedToken := s.storage[TokenKey];
      match codec.decode(s.storage[UserKey])
      case ParseError => AuthState(s.user, s.token, s.storage - {UserKey, TokenKey})
      case ParsedNull => AuthState(None, Some(storedToken), s.storage)
      case ParsedUser(u) => AuthState(Some(u), Some(storedToken), s.storage)
    else
      s
  }

  /** A second login replaces the first entirely: only the last login is visible. */
  lemma LoginOverwrites(s: AuthState, codec: Codec, u1: User, t1: string, u2: User, t2: string)
    ensures LoggedIn(LoggedIn(s, codec, u1, t1), codec, u2, t2) == LoggedIn(s, codec, u2, t2)
  {
  }

  /** Logging out undoes a login's storage writes up to the two session keys, whatever was there before. */
  lemma LogoutAfterLogin(s: AuthState, codec: Codec, u: User, t: string)
    ensures LoggedOut(LoggedIn(s, codec, u, t)) == LoggedOut(s)
  {
  }

  /** After logout nothing is left for a reload to restore. */
  lemma RestoreAfterLogout(s: AuthState, codec: Codec)
    ensures Restored(Initial(LoggedOut(s).storage), codec) == Initial(LoggedOut(s).storage)
  {
  }

  /**
   * Round trip: after `login(u, t)` a freshly mounted provider over the same storage
   * restores exactly u and t, provided decoding the encoded user gives u back and both
   * stored strings are non-empty.
   */
  lemma LoginThenRestore(s: AuthState, codec: Codec, u: User, t: string)
    requires codec.decode(codec.encode(u)) == ParsedUser(u)
    requires t != "" && codec.encode(u) != ""
    ensures var reloaded := Restored(Initial(LoggedIn(s, codec, u, t).storage), codec);
      reloaded.user == Some(u) && reloaded.token == Some(t)
      && reloaded.storage == LoggedIn(s, codec, u, t).storage
  {
  }

  /** An empty token is stored by login but is falsy, so a reload restores nobody. */
  lemma EmptyTokenNotRestored(s: AuthState, codec: Codec, u: User)
    ensures var reloaded := Restored(Initial(LoggedIn(s, codec, u, "").storage), codec);
      !IsAuthenticated(reloaded) && reloaded.token.None?
  {
  }

  /** A stored user that parses to null restores the token but not a user, so the session is not authenticated. */
  lemma TokenWithoutUser(storage: map<string, string>, codec: Codec)
    requires HasStoredSession(storage) && codec.decode(storage[UserKey]) == ParsedNull
    ensures var r := Restored(Initial(storage), codec); r.token.Some? && !IsAuthenticated(r)
  {
  }

  /** Restoring twice is the same as restoring once. */
  lemma RestoreIdempotent(s: AuthState, codec: Codec)
    ensures Restored(Restored(s, codec), codec) == Restored(s, codec)
  {
  }

  /** The session store. `storage` stands for the browser's localStorage. */
  class AuthProvider {
    var user: Option<User>
    var token: Option<string>
    var storage: map<string, string>
    const codec: Codec

    function State(): AuthState
      reads this
    {
      AuthState(user, token, storage)
    }

    /** The provider as first rendered: both state variables null, storage as found. */
    constructor (storage: map<string, string>, codec: Codec)
      ensures State() == Initial(storage) && this.codec == codec
    {
      this.user := None;
      this.token := None;
      this.storage := storage;
      this.codec := codec;
    }

    /** The provider's mount effect. */
    method Restore()
      modifies this
      ensures State() == Restored(old(State()), codec)
    {
      var storedToken := Lookup(storage, TokenKey);
      var storedUser := Lookup(storage, UserKey);
      if Truthy(storedToken) && Truthy(storedUser) {
        var parsed := codec.decode(storedUser.value);
        if parsed.ParseError? {
          storage := storage - {UserKey};
          storage := storage - {TokenKey};
        } else {
          token := storedToken;
          user := if parsed.ParsedUser? then Some(parsed.user) else None;
        }
      }
    }

    method Login(userData: User, authToken: string)
      modifies this
      ensures State() == LoggedIn(old(State()), codec, userData, authToken)
    {
      user := Some(userData);
      token := Some(authToken);
      storage := storage[TokenKey := authToken];
      storage := storage[UserKey := codec.encode(userData)];
    }

    method Logout()
      modifies this
      ensures State() == LoggedOut(old(State()))
    {
      user := None;
      token := None;
      storage := storage - {TokenKey};
      storage := storage - {UserKey};
    }

    predicate Authenticated()
      reads this
      ensures Authenticated() <==> user.Some?
    {
      IsAuthenticated(State())
    }
  }

  /**
   * A login followed by a page reload: a second provider mounted over the storage the
   * first one wrote restores the same user and token.
   */
  method LoginThenReload(storage: map<string, string>, codec: Codec, u: User, t: string)
    returns (restoredUser: Option<User>, restoredToken: Option<string>)
    requires codec.decode(codec.encode(u)) == ParsedUser(u)
    requires t != "" && codec.encode(u) != ""
    ensures restoredUser == Some(u) && restoredToken == Some(t)
  {
    var first := new AuthProvider(storage, codec);
    first.Login(u, t);
    var second := new AuthProvider(first.storage, codec);
    second.Restore();
    LoginThenRestore(Initial(storage), codec, u, t);
    restoredUser, restoredToken := second.user, second.token;
  }
}
