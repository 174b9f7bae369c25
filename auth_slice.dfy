/**
 * The auth slice: the session read from storage at start-up, `logout`, and the
 * pending/fulfilled/rejected cases of the signup and login thunks, which keep the
 * session fields and the three storage keys in step.
 */
module AuthSlice {
  import opened Wrappers
  import RecipesSlice

  /** `UserPayload` */
  datatype User = User(
    id: string,
    name: string,
    email: string,
    createdAt: Option<string>,
    updatedAt: Option<string>)

  // ---------------------------------------------------------------------------
  // The stored form of a user

  /**
   * The escaping encoder that stands for `JSON.stringify` of string fields: a quote
   * and a backslash are preceded by a backslash.
   */
  function Escape(v: string): string {
    if v == [] then []
    else (if v[0] == '"' || v[0] == '\\' then ['\\', v[0]] else [v[0]]) + Escape(v[1..])
  }

  /** Reads an escaped string up to its closing quote; returns the string and what follows the quote. */
  function ReadQuoted(s: string): Option<(string, string)>
    decreases |s|
  {
    if s == [] then None
    else if s[0] == '"' then Some(("", s[1..]))
    else if s[0] == '\\' then
      if |s| < 2 then None
      else match ReadQuoted(s[2..])
        case None => None
        case Some(p) => Some(([s[1]] + p.0, p.1))
    else match ReadQuoted(s[1..])
      case None => None
      case Some(p) => Some(([s[0]] + p.0, p.1))
  }

  /** Reading an escaped string and its closing quote gives the string back. */
  lemma {:induction false} ReadQuotedEscape(v: string, rest: string)
    ensures ReadQuoted(Escape(v) + "\"" + rest) == Some((v, rest))
    decreases |v|
  {
    var s := Escape(v) + "\"" + rest;
    if v == [] {
      assert s == "\"" + rest;
      assert s[1..] == rest;
    } else {
      var tail := Escape(v[1..]) + "\"" + rest;
      ReadQuotedEscape(v[1..], rest);
      if v[0] == '"' || v[0] == '\\' {
        assert Escape(v) == ['\\', v[0]] + Escape(v[1..]);
        assert s == ['\\', v[0]] + tail;
        assert s[0] == '\\' && s[1] == v[0] && s[2..] == tail;
      } else {
        assert Escape(v) == [v[0]] + Escape(v[1..]);
        assert s == [v[0]] + tail;
        assert s[0] == v[0] && s[1..] == tail;
      }
      assert [v[0]] + v[1..] == v;
    }
  }

  /** One field: `-` for an absent key, otherwise the quoted escaped value. */
  function EncodeField(f: Option<string>): (e: string)
    ensures e != ""
  {
    match f
    case None => "-"
    case Some(v) => "\"" + Escape(v) + "\""
  }

  /** Reads one field and returns it with the text after it. */
  function ReadField(s: string): Option<(Option<string>, string)> {
    if s == [] then None
    else if s[0] == '-' then Some((None, s[1..]))
    else if s[0] == '"' then
      match ReadQuoted(s[1..])
      case None => None
      case Some(p) => Some((Some(p.0), p.1))
    else None
  }

  lemma ReadFieldOfEncoded(f: Option<string>, rest: string)
    ensures ReadField(EncodeField(f) + rest) == Some((f, rest))
  {
    var s := EncodeField(f) + rest;
    if f.None? {
      assert s == ['-'] + rest;
      assert s[1..] == rest;
    } else {
      var body := Escape(f.value) + "\"" + rest;
      assert s == ['"'] + body;
      assert s[1..] == body;
      ReadQuotedEscape(f.value, rest);
    }
  }

  /** The fields one after the other. */
  function EncodeFields(fs: seq<Option<string>>): string {
    if fs == [] then "" else EncodeField(fs[0]) + EncodeFields(fs[1..])
  }

  /** Reads exactly `n` fields and nothing after them. */
  function ReadFields(s: string, n: nat): Option<seq<Option<string>>>
    decreases n
  {
    if n == 0 then (if s == [] then Some([]) else None)
    else match ReadField(s)
      case None => None
      case Some(p) =>
        match ReadFields(p.1, n - 1)
        case None => None
        case Some(rest) => Some([p.0] + rest)
  }

  lemma {:induction false} ReadFieldsOfEncoded(fs: seq<Option<string>>)
    ensures ReadFields(EncodeFields(fs), |fs|) == Some(fs)
  {
    if fs != [] {
      ReadFieldsOfEncoded(fs[1..]);
      ReadFieldOfEncoded(fs[0], EncodeFields(fs[1..]));
      assert [fs[0]] + fs[1..] == fs;
    }
  }

  /** The keys of a user in their stored order. */
  function Fields(u: User): seq<Option<string>> {
    [Some(u.id), Some(u.name), Some(u.email), u.createdAt, u.updatedAt]
  }

  /** `JSON.stringify(user)`; never the empty string, so reading it back is attempted. */
  function Serialize(u: User): (s: string)
    ensures s != ""
  {
    EncodeFields(Fields(u))
  }

  /** `JSON.parse` of a stored user: `None` for text that is not a stored user. */
  function Parse(s: string): (r: Option<User>)
    ensures s == "" ==> r.None?
  {
    match ReadFields(s, 5)
    case None => None
    case Some(fs) =>
      if fs[0].Some? && fs[1].Some? && fs[2].Some? then
        Some(User(fs[0].value, fs[1].value, fs[2].value, fs[3], fs[4]))
      else None
  }

  /** Parsing a serialized user gives the same user. */
  lemma ParseSerialize(u: User)
    ensures Parse(Serialize(u)) == Some(u)
  {
    ReadFieldsOfEncoded(Fields(u));
  }

  // ---------------------------------------------------------------------------
  // The session and its storage

  const AuthKey := "isAuthenticated"
  const UserKey := "user"
  const TokenKey := "token"

  /** `AuthState`; `None` stands for `null`. */
  datatype AuthState = AuthState(
    isAuthenticated: bool,
    user: Option<User>,
    loading: bool,
    error: Option<string>,
    token: Option<string>)

  /** The signed-out session that storage without the three keys gives. */
  const Anonymous := AuthState(false, None, false, None, None)

  /** `localStorage.getItem(key)`: `None` for a missing key. */
  function Get(storage: map<string, string>, key: string): Option<string> {
    if key in storage then Some(storage[key]) else None
  }

  /**
   * `initialState` read from storage: the flag is set only by exactly `'true'`, a
   * non-empty stored user is parsed, and an empty token counts as none. Text under
   * `user` that does not parse makes the module fail to load: `None`.
   */
  function InitialState(storage: map<string, string>): (r: Option<AuthState>)
    ensures r.None? <==> exists v :: Get(storage, UserKey) == Some(v) && v != "" && Parse(v).None?
    ensures r.Some? ==> !r.value.loading && r.value.error.None?
    ensures r.Some? ==> (r.value.isAuthenticated <==> Get(storage, AuthKey) == Some("true"))
    ensures r.Some? ==> (r.value.token.Some? <==> TokenKey in storage && storage[TokenKey] != "")
    ensures r.Some? && r.value.token.Some? ==> r.value.token.value == storage[TokenKey]
    ensures r.Some? ==> r.value.user == (if UserKey in storage && storage[UserKey] != "" then Parse(storage[UserKey]) else None)
  {
    var storedAuth := Get(storage, AuthKey) == Some("true");
    var storedToken := Get(storage, TokenKey);
    var token := if storedToken.Some? && storedToken.value != "" then storedToken else None;
    var storedUser := Get(storage, UserKey);
    if storedUser.None? || storedUser.value == "" then Some(AuthState(storedAuth, None, false, None, token))
    else if Parse(storedUser.value).None? then None
    else Some(AuthState(storedAuth, Parse(storedUser.value), false, None, token))
  }

  /** Storage after a successful signup or login: the flag, the serialized user and the token. */
  function Persisted(storage: map<string, string>, u: User, token: string): (st: map<string, string>)
    ensures st.Keys == storage.Keys + {AuthKey, UserKey, TokenKey}
    ensures st[AuthKey] == "true" && st[UserKey] == Serialize(u) && st[TokenKey] == token
    ensures forall k :: k in storage && k !in {AuthKey, UserKey, TokenKey} ==> st[k] == storage[k]
  {
    storage[AuthKey := "true"][UserKey := Serialize(u)][TokenKey := token]
  }

  /** Storage after `logout`: the three keys removed, every other key kept. */
  function Cleared(storage: map<string, string>): (st: map<string, string>)
    ensures st.Keys == storage.Keys - {AuthKey, UserKey, TokenKey}
    ensures forall k :: k in st ==> st[k] == storage[k]
  {
    storage - {AuthKey, UserKey, TokenKey}
  }

  /** A reload after signing in restores the same session, provided the token is not empty. */
  lemma ReloadAfterSignIn(storage: map<string, string>, u: User, token: string)
    requires token != ""
    ensures InitialState(Persisted(storage, u, token)) == Some(AuthState(true, Some(u), false, None, Some(token)))
  {
    ParseSerialize(u);
  }

  /** An empty token is stored as `''` and read back as no token at all. */
  lemma ReloadLosesEmptyToken(storage: map<string, string>, u: User)
    ensures InitialState(Persisted(storage, u, "")) == Some(AuthState(true, Some(u), false, None, None))
  {
    ParseSerialize(u);
  }

  /** A reload after logging out gives the anonymous session. */
  lemma ReloadAfterLogout(storage: map<string, string>)
    ensures InitialState(Cleared(storage)) == Some(Anonymous)
  {
  }

  /** Logging out twice removes no more than logging out once. */
  lemma ClearedIdempotent(storage: map<string, string>)
    ensures Cleared(Cleared(storage)) == Cleared(storage)
  {
  }

  /** The session fields after `logout`: signed out, no user, no token; `loading` and `error` kept. */
  function LoggedOut(s: AuthState): (r: AuthState)
    ensures !r.isAuthenticated && r.user.None? && r.token.None?
    ensures r.loading == s.loading && r.error == s.error
  {
    s.(isAuthenticated := false, user := None, token := None)
  }

  lemma LoggedOutIdempotent(s: AuthState)
    ensures LoggedOut(LoggedOut(s)) == LoggedOut(s)
  {
  }

  // ---------------------------------------------------------------------------
  // The thunks

  /** The two thunks, whose reducer cases differ only in their default message. */
  datatype Flow = Signup | Login

  function DefaultError(flow: Flow): (m: string)
    ensures m != ""
  {
    match flow
    case Signup => "Signup failed"
    case Login => "Login failed"
  }

  /** `AuthResponse`: what a fulfilled thunk carries. */
  datatype AuthPayload = AuthPayload(user: User, token: string)

  /**
   * How the request ended: an ok response with `data.data.user` and `data.token`; a
   * non-ok one with `data.message` (`""` when it has none); or an exception, which is an
   * `Error` with a message or some other value.
   */
  datatype AuthReply =
    | Ok(user: User, token: string)
    | NotOk(message: string)
    | Threw(isError: bool, message: string)

  datatype ThunkResult = Fulfilled(payload: AuthPayload) | Rejected(message: string)

  /**
   * The thunk's result: an ok response fulfils with user and token; a non-ok response
   * rejects with the server's message or the default; an exception rejects with its
   * message when it is an `Error`, else with the default.
   */
  function ThunkOutcome(flow: Flow, reply: AuthReply): (r: ThunkResult)
    ensures r.Fulfilled? <==> reply.Ok?
    ensures reply.Ok? ==> r.payload == AuthPayload(reply.user, reply.token)
    ensures reply.NotOk? && reply.message != "" ==> r.message == reply.message
    ensures reply.NotOk? && reply.message == "" ==> r.message == DefaultError(flow)
    ensures reply.Threw? ==> r.message == if reply.isError then reply.message else DefaultError(flow)
  {
    match reply
    case Ok(u, t) => Fulfilled(AuthPayload(u, t))
    case NotOk(m) => Rejected(if m != "" then m else DefaultError(flow))
    case Threw(isError, m) => Rejected(if isError then m else DefaultError(flow))
  }

  /** The failure carries a message the user gets to see: a non-empty server message or `Error` message. */
  predicate ShowsOwnMessage(reply: AuthReply)
    requires !reply.Ok?
  {
    reply.message != "" && (reply.NotOk? || reply.isError)
  }

  /** The error the rejected case shows is never empty: the failure's own message when there is one to show, else the default. */
  lemma RejectedErrorShown(flow: Flow, reply: AuthReply)
    requires !reply.Ok?
    ensures var e := RecipesSlice.RejectionMessage(ThunkOutcome(flow, reply).message, DefaultError(flow));
      && e != ""
      && (ShowsOwnMessage(reply) ==> e == reply.message)
      && (!ShowsOwnMessage(reply) ==> e == DefaultError(flow))
  {
  }

  // ---------------------------------------------------------------------------
  // The store

  /** The slice's state, changed in place by its reducers, with the storage it writes. */
  class AuthStore {
    var isAuthenticated: bool
    var user: Option<User>
    var loading: bool
    var error: Option<string>
    var token: Option<string>
    var storage: map<string, string>

    function State(): AuthState
      reads this
    {
      AuthState(isAuthenticated, user, loading, error, token)
    }

    /** The store at start-up; storage whose user does not parse stops the module from loading. */
    constructor (persisted: map<string, string>)
      requires InitialState(persisted).Some?
      ensures State() == InitialState(persisted).value && storage == persisted
    {
      var init := InitialState(persisted).value;
      isAuthenticated, user, loading, error, token := init.isAuthenticated, init.user, init.loading, init.error, init.token;
      storage := persisted;
    }

    /** `logout` */
    method Logout()
      modifies this
      ensures State() == LoggedOut(old(State()))
      ensures storage == Cleared(old(storage))
    {
      isAuthenticated := false;
      user := None;
      token := None;
      ghost var before := storage;
      storage := storage - {AuthKey};
      storage := storage - {UserKey};
      storage := storage - {TokenKey};
      assert storage.Keys == before.Keys - {AuthKey, UserKey, TokenKey};
    }

    /** `signupUser.pending` and `loginUser.pending` */
    method Pending(flow: Flow)
      modifies this
      ensures State() == old(State()).(loading := true, error := None) && storage == old(storage)
    {
      loading := true;
      error := None;
    }

    /** `signupUser.fulfilled` and `loginUser.fulfilled`: the session from the payload, written to storage. */
    method Fulfilled(flow: Flow, payload: AuthPayload)
      modifies this
      ensures State() == AuthState(true, Some(payload.user), false, old(error), Some(payload.token))
      ensures storage == Persisted(old(storage), payload.user, payload.token)
    {
      loading := false;
      isAuthenticated := true;
      user := Some(payload.user);
      token := Some(payload.token);
      storage := storage[AuthKey := "true"];
      storage := storage[UserKey := Serialize(payload.user)];
      storage := storage[TokenKey := payload.token];
    }

    /** `signupUser.rejected` and `loginUser.rejected`: only `loading` and `error` change. */
    method Rejected(flow: Flow, payload: string)
      modifies this
      ensures State() == old(State()).(loading := false, error := Some(RecipesSlice.RejectionMessage(payload, DefaultError(flow))))
      ensures storage == old(storage)
    {
      loading := false;
      error := Some(RecipesSlice.RejectionMessage(payload, DefaultError(flow)));
    }

    /**
     * A whole signup or login: the pending case, then the case for the thunk's result.
     * A failure keeps any existing session, in the store and in storage.
     */
    method Submit(flow: Flow, reply: AuthReply)
      modifies this
      ensures !loading
      ensures reply.Ok? ==> isAuthenticated && user == Some(reply.user) && token == Some(reply.token) && error.None?
      ensures reply.Ok? ==> storage == Persisted(old(storage), reply.user, reply.token)
      ensures !reply.Ok? ==> isAuthenticated == old(isAuthenticated) && user == old(user) && token == old(token)
      ensures !reply.Ok? ==> storage == old(storage) && error.Some? && error.value != ""
      ensures !reply.Ok? ==> error == Some(if ShowsOwnMessage(reply) then reply.message else DefaultError(flow))
    {
      Pending(flow);
      match ThunkOutcome(flow, reply)
      case Fulfilled(payload) => Fulfilled(flow, payload);
      case Rejected(message) =>
        RejectedErrorShown(flow, reply);
        Rejected(flow, message);
    }
  }

  /** Signing in and reloading the page gives a store with the same session. */
  method SignInThenReload(s: AuthStore, flow: Flow, u: User, token: string) returns (reloaded: AuthStore)
    requires token != ""
    modifies s
    ensures fresh(reloaded)
    ensures reloaded.isAuthenticated && reloaded.user == Some(u) && reloaded.token == Some(token)
    ensures reloaded.State() == s.State().(error := None)
  {
    s.Submit(flow, Ok(u, token));
    ReloadAfterSignIn(old(s.storage), u, token);
    reloaded := new AuthStore(s.storage);
  }
}
