/** The session state of the auth store as plain values: the four in-memory
    fields, the two persisted keys, and one function per store action giving
    the state after it. The class in auth_store.dfy is proved against these
    functions; the lemmas at the end relate several actions. */
module AuthState {

  datatype Option<T> = None | Some(value: T)

  /** A JavaScript value held in the `user` slot: `null`, or any other JSON
      value, carried as the text `JSON.stringify` gives for it. */
  datatype JsValue = Null | Json(text: string)

  /** The JSON texts of the falsy JSON values (null, false, 0 and ""), and
      the empty text, which is no JSON value at all. */
  const FalsyJson: set<string> := {"null", "false", "0", "\"\"", ""}

  /** JavaScript truthiness of a JSON value. */
  predicate Truthy(v: JsValue) {
    v.Json? && v.text !in FalsyJson
  }

  /** JavaScript truthiness of `token: string | null`. */
  predicate TokenTruthy(t: Option<string>) {
    t.Some? && t.value != ""
  }

  /** `JSON.stringify` of a user value. */
  function Stringify(v: JsValue): (s: string)
    // truthiness can be read off the text; this follows from carrying a
    // value as its own JSON text, on which Truthy is defined
    ensures Truthy(v) <==> s !in FalsyJson
  {
    match v
    case Null => "null"
    case Json(text) => text
  }

  /** `JSON.parse` is left abstract: a parameter of the actions that use it;
      `None` stands for a parse that throws. */
  type Parser = string -> Option<JsValue>

  /** The keys the store persists under. */
  const UserKey: string := "user"
  const TokenKey: string := "token"

  /** The persisted key-value store. */
  type Storage = map<string, string>

  /** The in-memory fields of the auth store. */
  datatype Session = Session(user: JsValue, token: Option<string>, isLoading: bool, isCheckingAuth: bool)

  /** The fields the store starts with. */
  const InitialSession: Session := Session(Null, None, false, true)

  /** Everything the auth actions read and change. */
  datatype State = State(session: Session, storage: Storage)

  /** What the auth service returns to `register` and `login`: an object with
      an `error` message, or one carrying the issued token. */
  datatype AuthReply = Error(msg: string) | Ok(token: string)

  /** The token's payload after decoding; only its `user` claim is used. */
  datatype Payload = Payload(user: JsValue)

  /** The outcome of `jwtDecode` on the reply's token: a payload, or the
      message of the error it throws. */
  datatype Decoded = Decoded(payload: Payload) | Undecodable(error: string)

  /** What `register` and `login` resolve to: `{success: true}` or
      `{success: false, error}`. */
  datatype Outcome = Success | Failure(error: string)

  datatype Response = Response(state: State, outcome: Outcome)

  /** The first step of `register` and `login`: raise the loading flag before
      awaiting the service. */
  function BeginAuth(st: State): (r: State)
    ensures r.session.isLoading
    ensures r.storage == st.storage
    ensures r.session.(isLoading := st.session.isLoading) == st.session
  {
    st.(session := st.session.(isLoading := true))
  }

  /** The rest of `register` and `login`, once the service has replied and
      the token has been decoded. */
  function FinishAuth(st: State, reply: AuthReply, decoded: Decoded): Response
  {
    if reply.Error? then
      Response(st.(session := st.session.(isLoading := false)), Failure(reply.msg))
    else if decoded.Undecodable? then
      Response(st.(session := st.session.(isLoading := false)), Failure(decoded.error))
    else
      var u := decoded.payload.user;
      var storage := st.storage[UserKey := Stringify(u)][TokenKey := reply.token];
      Response(State(st.session.(user := u, token := Some(reply.token), isLoading := false), storage), Success)
  }

  /** `register` and `login` as one transition (they differ only in the
      service call, whose reply is an input here). */
  function Authenticate(st: State, reply: AuthReply, decoded: Decoded): (r: Response)
    // the call fails exactly when the service or the decoder does, with its message
    ensures r.outcome.Failure? <==> reply.Error? || decoded.Undecodable?
    ensures reply.Error? ==> r.outcome == Failure(reply.msg)
    ensures reply.Ok? && decoded.Undecodable? ==> r.outcome == Failure(decoded.error)
    // on both paths the loading flag is down afterwards, the checking flag untouched
    ensures !r.state.session.isLoading
    ensures r.state.session.isCheckingAuth == st.session.isCheckingAuth
    // a failure changes nothing else, in memory or in storage
    ensures r.outcome.Failure? ==>
              r.state.session.user == st.session.user &&
              r.state.session.token == st.session.token &&
              r.state.storage == st.storage
    // a success sets user and token to the decoded user and the raw token,
    // persists exactly those under the two keys, and leaves other keys alone
    ensures r.outcome.Success? ==>
              reply.Ok? && decoded.Decoded? &&
              r.state.session.user == decoded.payload.user &&
              r.state.session.token == Some(reply.token) &&
              r.state.storage.Keys == st.storage.Keys + {UserKey, TokenKey} &&
              r.state.storage[UserKey] == Stringify(r.state.session.user) &&
              r.state.storage[TokenKey] == reply.token &&
              (forall k :: k in st.storage && k != UserKey && k != TokenKey ==> r.state.storage[k] == st.storage[k])
  {
    FinishAuth(BeginAuth(st), reply, decoded)
  }

  /** The user `checkAuth` reads back: `JSON.parse` of the stored text when
      that text is non-empty, `null` otherwise; `None` when the parse throws. */
  function StoredUser(storage: Storage, parse: Parser): Option<JsValue>
  {
    if UserKey in storage && storage[UserKey] != "" then parse(storage[UserKey]) else Some(Null)
  }

  /** The stored token, `None` when the key is absent. */
  function StoredToken(storage: Storage): Option<string>
  {
    if TokenKey in storage then Some(storage[TokenKey]) else None
  }

  /** `checkAuth`: restore user and token from storage when both are truthy,
      and in every case end the initial check. */
  function CheckAuth(st: State, parse: Parser): (r: State)
    ensures r.storage == st.storage
    ensures !r.session.isCheckingAuth
    ensures r.session.isLoading == st.session.isLoading
    // the session is restored exactly when both stored values are present and truthy
    ensures (TokenKey in st.storage && st.storage[TokenKey] != "" &&
             UserKey in st.storage && st.storage[UserKey] != "" &&
             parse(st.storage[UserKey]).Some? && Truthy(parse(st.storage[UserKey]).value))
            ==> r.session.token == Some(st.storage[TokenKey]) &&
                r.session.user == parse(st.storage[UserKey]).value
    // otherwise user and token are left as they were, not cleared
    ensures !(TokenKey in st.storage && st.storage[TokenKey] != "" &&
              UserKey in st.storage && st.storage[UserKey] != "" &&
              parse(st.storage[UserKey]).Some? && Truthy(parse(st.storage[UserKey]).value))
            ==> r.session.token == st.session.token && r.session.user == st.session.user
  {
    var token := StoredToken(st.storage);
    var user := StoredUser(st.storage, parse);
    var restored :=
      if user.Some? && TokenTruthy(token) && Truthy(user.value)
      then st.session.(token := token, user := user.value)
      else st.session;
    st.(session := restored.(isCheckingAuth := false))
  }

  /** `logout`: remove both keys and clear user and token. */
  function Logout(st: State): (r: State)
    ensures r.session.user == Null && r.session.token == None
    ensures r.session.isLoading == st.session.isLoading
    ensures r.session.isCheckingAuth == st.session.isCheckingAuth
    ensures r.storage.Keys == st.storage.Keys - {UserKey, TokenKey}
    ensures forall k :: k in r.storage ==> r.storage[k] == st.storage[k]
  {
    State(st.session.(user := Null, token := None), st.storage - {UserKey} - {TokenKey})
  }

  /** One completed store action, with the inputs the model takes for it. */
  datatype Action =
    | Register(reply: AuthReply, decoded: Decoded)
    | Login(reply: AuthReply, decoded: Decoded)
    | Check(parse: Parser)
    | SignOut

  function Apply(st: State, a: Action): State
  {
    match a
    case Register(reply, decoded) => Authenticate(st, reply, decoded).state
    case Login(reply, decoded) => Authenticate(st, reply, decoded).state
    case Check(parse) => CheckAuth(st, parse)
    case SignOut => Logout(st)
  }

  /** The state after the actions, completed one after another. */
  function Run(st: State, actions: seq<Action>): State
    decreases |actions|
  {
    if actions == [] then st else Run(Apply(st, actions[0]), actions[1..])
  }

  /** A `register` or `login` whose service or decoder fails. */
  predicate FailingAuth(a: Action) {
    (a.Register? || a.Login?) && (a.reply.Error? || a.decoded.Undecodable?)
  }

  /** Once the initial check is over it never starts again: no action raises
      `isCheckingAuth`. */
  lemma {:induction false} CheckingAuthNeverResumes(st: State, actions: seq<Action>)
    requires !st.session.isCheckingAuth
    ensures !Run(st, actions).session.isCheckingAuth
    decreases |actions|
  {
    if actions != [] {
      CheckingAuthNeverResumes(Apply(st, actions[0]), actions[1..]);
    }
  }

  /** After any run that contains a `checkAuth`, the initial check is over. */
  lemma {:induction false} CheckAuthEndsTheCheck(st: State, actions: seq<Action>, i: nat)
    requires i < |actions| && actions[i].Check?
    ensures !Run(st, actions).session.isCheckingAuth
    decreases |actions|
  {
    if i == 0 {
      CheckingAuthNeverResumes(Apply(st, actions[0]), actions[1..]);
    } else {
      CheckAuthEndsTheCheck(Apply(st, actions[0]), actions[1..], i - 1);
    }
  }

  /** Any number of failed `register`/`login` calls leave user, token and
      storage as they were, and the loading flag down. */
  lemma {:induction false} FailedAuthsKeepSession(st: State, actions: seq<Action>)
    requires forall i :: 0 <= i < |actions| ==> FailingAuth(actions[i])
    ensures Run(st, actions).session.user == st.session.user
    ensures Run(st, actions).session.token == st.session.token
    ensures Run(st, actions).storage == st.storage
    ensures Run(st, actions).session.isCheckingAuth == st.session.isCheckingAuth
    ensures actions != [] ==> !Run(st, actions).session.isLoading
    decreases |actions|
  {
    if actions != [] {
      var next := Apply(st, actions[0]);
      assert FailingAuth(actions[0]);
      FailedAuthsKeepSession(next, actions[1..]);
      if actions[1..] == [] {
        assert Run(st, actions) == next;
      }
    }
  }

  /** `logout` twice is `logout` once. */
  lemma LogoutIdempotent(st: State)
    ensures Logout(Logout(st)) == Logout(st)
  {
  }

  /** `logout` then `checkAuth` leaves no user and no token, whatever the
      state before and whatever the parser. */
  lemma LogoutThenCheckAuthSignedOut(st: State, parse: Parser)
    ensures CheckAuth(Logout(st), parse).session.user == Null
    ensures CheckAuth(Logout(st), parse).session.token == None
  {
  }

  /** What a successful `register`/`login` persists is what a later start of
      the app restores: a fresh store running `checkAuth` over the same
      storage gets the same user and token back, provided `JSON.parse`
      inverts `JSON.stringify` on that user and both values are truthy. */
  lemma SessionSurvivesRestart(st: State, reply: AuthReply, decoded: Decoded, parse: Parser)
    requires Authenticate(st, reply, decoded).outcome.Success?
    requires parse(Stringify(decoded.payload.user)) == Some(decoded.payload.user)
    requires Truthy(decoded.payload.user) && reply.token != ""
    ensures var after := Authenticate(st, reply, decoded).state;
            var restored := CheckAuth(State(InitialSession, after.storage), parse);
            restored.session.user == after.session.user &&
            restored.session.token == after.session.token &&
            !restored.session.isCheckingAuth
  {
  }
}
