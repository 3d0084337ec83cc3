/** The session: restored from the browser's storage when the application
    starts, created by a login, and dropped by a logout. Every request
    carries the stored token, or else the default header the session set. */
module AuthContext {
  import opened Domain
  import opened Http

  /** What the storage holds under "@App:user": the JSON text of a user, or
      a text that is not JSON. */
  datatype Stored = UserJson(user: User) | Unparsable(text: string)

  /** The two storage entries the session uses, "@App:user" and
      "@App:token"; `None` is a missing entry. */
  datatype Storage = Storage(user: Option<Stored>, token: Option<string>)

  const Cleared := Storage(None, None)

  /** A stored user entry is truthy unless it is missing or empty; the JSON
      text of a user is never empty. */
  predicate UserEntryPresent(s: Option<Stored>)
  {
    s.Some? && (s.value.UserJson? || s.value.text != "")
  }

  predicate TokenPresent(t: Option<string>)
  {
    t.Some? && t.value != ""
  }

  /** What starting the application finds in the storage. */
  datatype Restore = NoSession | Session(user: User, token: string) | Corrupt

  /** `loadStorageData`: a session needs both entries; a user entry that is
      not JSON makes the parse throw. */
  function Restored(s: Storage): (r: Restore)
    ensures r.Session? <==> TokenPresent(s.token) && s.user.Some? && s.user.value.UserJson?
    ensures r.Session? ==> r.user == s.user.value.user && r.token == s.token.value
    ensures r.Corrupt? <==> TokenPresent(s.token) && UserEntryPresent(s.user) && s.user.value.Unparsable?
  {
    if !(UserEntryPresent(s.user) && TokenPresent(s.token)) then NoSession
    else if s.user.value.Unparsable? then Corrupt
    else Session(s.user.value.user, s.token.value)
  }

  function Bearer(token: string): string
  {
    "Bearer " + token
  }

  /** The request interceptor: the stored token when there is one, and
      otherwise whatever default header the session last set. */
  function SentAuthorization(s: Storage, defaultAuthorization: Option<string>): (h: Option<string>)
    ensures TokenPresent(s.token) ==> h == Some(Bearer(s.token.value))
    ensures !TokenPresent(s.token) ==> h == defaultAuthorization
  {
    if TokenPresent(s.token) then Some(Bearer(s.token.value)) else defaultAuthorization
  }

  /** The body of `POST /login`. */
  datatype Credentials = Credentials(email: string, senha: string)

  /** The backend's answer to a login: a token and the user, or an error. */
  datatype LoginReply = LoggedIn(token: string, user: User) | LoginFailed

  const LoginPath := "/login"

  /** The storage a successful login leaves behind. */
  function StoredSession(token: string, u: User): Storage
  {
    Storage(Some(UserJson(u)), Some(token))
  }

  /** A login with a non-empty token survives a restart. */
  lemma LoginIsRestored(token: string, u: User)
    requires token != ""
    ensures Restored(StoredSession(token, u)) == Session(u, token)
  {
  }

  /** A login with an empty token is forgotten by a restart. */
  lemma EmptyTokenIsNotRestored(token: string, u: User)
    requires token == ""
    ensures Restored(StoredSession(token, u)) == NoSession
  {
  }

  /** After a login, requests carry its token, whether it came from the
      storage or from the default header. */
  lemma LoginAuthorizesRequests(token: string, u: User)
    ensures SentAuthorization(StoredSession(token, u), Some(Bearer(token))) == Some(Bearer(token))
  {
  }

  class AuthProvider {
    var user: Option<User>
    var loading: bool
    var storage: Storage
    /** `api.defaults.headers.common["Authorization"]`. */
    var defaultAuthorization: Option<string>

    /** The user in memory is always the one stored. */
    ghost predicate Valid()
      reads this
    {
      user.Some? ==> storage.user == Some(UserJson(user.value))
    }

    /** The provider as mounted: no user yet, still loading, no default
        header. */
    constructor (storage: Storage)
      ensures Valid()
      ensures user == None && loading && this.storage == storage && defaultAuthorization == None
    {
      user := None;
      loading := true;
      this.storage := storage;
      defaultAuthorization := None;
    }

    /** `signed`. */
    function Signed(): (b: bool)
      reads this
      ensures b <==> user.Some?
    {
      user.Some?
    }

    /** The Authorization header the next request carries. */
    function Authorization(): (h: Option<string>)
      reads this
      ensures TokenPresent(storage.token) ==> h == Some(Bearer(storage.token.value))
      ensures !TokenPresent(storage.token) ==> h == defaultAuthorization
    {
      SentAuthorization(storage, defaultAuthorization)
    }

    /** `loadStorageData`: a stored session becomes the user and the default
        header; without one nothing changes but the loading flag. A user
        entry that is not JSON stops the restore before the flag is
        cleared, so the guard keeps its spinner. */
    method LoadStorageData()
      requires Valid()
      modifies this`user, this`loading, this`defaultAuthorization
      ensures Valid()
      ensures Restored(storage).Session? ==>
        && user == Some(Restored(storage).user)
        && defaultAuthorization == Some(Bearer(Restored(storage).token))
        && !loading
      ensures Restored(storage).NoSession? ==>
        user == old(user) && defaultAuthorization == old(defaultAuthorization) && !loading
      ensures Restored(storage).Corrupt? ==>
        user == old(user) && defaultAuthorization == old(defaultAuthorization) && loading == old(loading)
    {
      var r := Restored(storage);
      if r.Corrupt? {
        return;
      }
      if r.Session? {
        user := Some(r.user);
        defaultAuthorization := Some(Bearer(r.token));
      }
      loading := false;
    }

    /** `signIn`: always posts the credentials; a success stores the
        session, sets the default header and the user, and a failure
        changes nothing and is passed on to the caller (`ok` false). */
    method SignIn(email: string, senha: string, reply: LoginReply) returns (e: Effect<Credentials>, ok: bool)
      requires Valid()
      modifies this`user, this`storage, this`defaultAuthorization
      ensures Valid()
      ensures e == Request(Post, LoginPath, Credentials(email, senha))
      ensures ok <==> reply.LoggedIn?
      ensures reply.LoggedIn? ==>
        && storage == StoredSession(reply.token, reply.user)
        && defaultAuthorization == Some(Bearer(reply.token))
        && user == Some(reply.user)
      ensures reply.LoginFailed? ==> unchanged(this)
    {
      e := Request(Post, LoginPath, Credentials(email, senha));
      if reply.LoginFailed? {
        ok := false;
        return;
      }
      storage := StoredSession(reply.token, reply.user);
      defaultAuthorization := Some(Bearer(reply.token));
      user := Some(reply.user);
      ok := true;
    }

    /** `signOut`: clears the storage and the user; the default header is
        left as the last login set it. */
    method SignOut()
      modifies this`storage, this`user
      ensures Valid()
      ensures storage == Cleared && user == None
    {
      storage := Cleared;
      user := None;
    }
  }

  /** A login followed by a logout: the user is gone, but later requests
      still carry the old token through the default header. */
  method LoginThenLogout(initial: Storage, token: string, u: User) returns (signedAfter: bool, sent: Option<string>)
    ensures !signedAfter
    ensures sent == Some(Bearer(token))
  {
    var auth := new AuthProvider(initial);
    var e, ok := auth.SignIn("operador@empresa.com", "segredo", LoggedIn(token, u));
    auth.SignOut();
    signedAfter := auth.Signed();
    sent := auth.Authorization();
  }

  /** A login followed by a restart: the user comes back exactly when the
      token was not empty. */
  method LoginThenRestart(initial: Storage, token: string, u: User) returns (restored: Option<User>, loading: bool)
    ensures !loading
    ensures token != "" ==> restored == Some(u)
    ensures token == "" ==> restored == None
  {
    var first := new AuthProvider(initial);
    var e, ok := first.SignIn("operador@empresa.com", "segredo", LoggedIn(token, u));
    var second := new AuthProvider(first.storage);
    second.LoadStorageData();
    restored := second.user;
    loading := second.loading;
  }

  /** A user entry that is not JSON, next to a token, keeps the spinner up. */
  method CorruptEntryKeepsLoading() returns (loading: bool, signed: bool)
    ensures loading && !signed
  {
    var auth := new AuthProvider(Storage(Some(Unparsable("{")), Some("abc")));
    auth.LoadStorageData();
    loading := auth.loading;
    signed := auth.Signed();
  }
}
