/** The challenge/response bridge between the host authentication framework
    and a Facebook login handler: its collaborators, the calls it makes on
    them, and one transition of its state machine as a pure function. */
module FacebookAuth {

  /** The realm under which the manager registers with the host client. */
  const FACEBOOK_REALM: string := "wl_facebookRealm"
  /** The challenge field that carries the Facebook application id. */
  const FACEBOOK_APP_ID_KEY: string := "facebookAppId"
  /** The field of the challenge answer that carries the access token. */
  const ACCESS_TOKEN_KEY: string := "accessToken"

  /** A reference that may be null. */
  datatype Option<T> = None | Some(value: T)

  /** A JSON object whose fields are strings. Only which keys are present
      decides what the bridge does with a challenge. */
  type Json = map<string, string>

  // Collaborators the bridge only passes around: opaque identities.

  /** An Android `Context`. */
  datatype PlatformContext = PlatformContext(id: nat)
  /** An Android `Intent` delivered with an activity result. */
  datatype Intent = Intent(id: nat)
  /** The host's `AuthenticationContext`: one outstanding challenge. */
  datatype AuthContext = AuthContext(id: nat)
  /** The failure data a login handler reports; passed through untouched. */
  datatype FailureInfo = FailureInfo(id: nat)
  /** A `FacebookAuthenticationListener`: the default one or one the
      application supplies. */
  datatype Handler = DefaultHandler | CustomHandler(id: nat)

  /** An outgoing call the bridge makes on a collaborator. */
  datatype Event =
    | SdkInitialized(ctx: PlatformContext)
    | RealmRegistered(realm: string)
    | HandleAuthentication(handler: Handler, ctx: PlatformContext, appId: string)
    | ActivityResultForwarded(handler: Handler, requestCode: int, resultCode: int, data: Intent)
    | ChallengeAnswerSubmitted(target: AuthContext, answer: Json)
    | FailureSubmitted(target: AuthContext, info: FailureInfo)
  {
    /** A call that resolves (or tries to resolve) a host context. */
    predicate IsSubmission() {
      ChallengeAnswerSubmitted? || FailureSubmitted?
    }
  }

  /** An incoming call: one public or host-callback method of the manager
      with its arguments. Registering the default handler is a `Register`
      with `DefaultHandler`, as the manager delegates it. A handler or token
      passed as null is `None`. */
  datatype Call =
    | Register(ctx: PlatformContext, handler: Option<Handler>)
    | ActivityResult(requestCode: int, resultCode: int, data: Intent)
    | TokenReceived(token: Option<string>)
    | LoginFailed(userInfo: FailureInfo)
    | ChallengeReceived(authContext: AuthContext, challenge: Json, ctx: PlatformContext)
    | AuthenticationSucceeded(ctx: PlatformContext, info: Json)
    | AuthenticationFailed(ctx: PlatformContext, info: Json)

  /** The manager's two mutable fields; `None` is null. */
  datatype State = State(authContext: Option<AuthContext>, handler: Option<Handler>)

  /** The state right after construction: both fields null. */
  const Initial: State := State(None, None)

  /** A state together with the calls made to reach it. */
  datatype Config = Config(state: State, trace: seq<Event>)

  /** Reads the application id from a challenge; `None` when the key is
      missing, the case in which the host's JSON library throws. */
  function ExtractAppId(challenge: Json): Option<string> {
    if FACEBOOK_APP_ID_KEY in challenge then Some(challenge[FACEBOOK_APP_ID_KEY]) else None
  }

  /** The challenge answer built from an access token: putting a null
      value into a fresh JSON object leaves it empty. */
  function AccessTokenAnswer(token: Option<string>): Json {
    match token
    case Some(t) => map[ACCESS_TOKEN_KEY := t]
    case None => map[]
  }

  /** Reads the token back out of a challenge answer; `None` when absent. */
  function AnswerToken(answer: Json): Option<string> {
    if ACCESS_TOKEN_KEY in answer then Some(answer[ACCESS_TOKEN_KEY]) else None
  }

  /** The answer carries exactly the token, null included, and nothing
      else: the token is read back unchanged, and an answer is rebuilt from
      its token exactly when `accessToken` is its only possible key. */
  lemma AnswerRoundTrip(token: Option<string>, answer: Json)
    ensures AnswerToken(AccessTokenAnswer(token)) == token
    ensures AccessTokenAnswer(AnswerToken(answer)) == answer <==> answer.Keys <= {ACCESS_TOKEN_KEY}
  {
  }

  /** A call does not dereference a null field. Every other call raises a
      NullPointerException. */
  predicate Enabled(s: State, c: Call) {
    match c
    case ActivityResult(_, _, _) => s.handler.Some?
    case TokenReceived(_) => s.authContext.Some?
    case LoginFailed(_) => s.authContext.Some?
    case ChallengeReceived(_, challenge, _) =>
      FACEBOOK_APP_ID_KEY in challenge ==> s.handler.Some?
    case _ => true
  }

  /** A call that stores its context: a challenge that carries an app id. */
  predicate Accepts(c: Call, ac: AuthContext) {
    c.ChallengeReceived? && FACEBOOK_APP_ID_KEY in c.challenge && c.authContext == ac
  }

  /** One call of the manager: its new fields and the calls it makes. */
  function Step(s: State, c: Call): (r: Config)
    requires Enabled(s, c)
    // only registration touches the handler, and the last one wins
    ensures c.Register? ==> r.state.handler == c.handler
    ensures !c.Register? ==> r.state.handler == s.handler
    // the context is either kept, cleared, or replaced by an accepted one
    ensures r.state.authContext == s.authContext || r.state.authContext == None
            || (Accepts(c, r.state.authContext.value))
    // a submission goes to the context held before the call, at most once
    ensures forall e | e in r.trace && e.IsSubmission() :: s.authContext == Some(e.target)
    ensures |r.trace| <= 2
    ensures (exists e | e in r.trace :: e.IsSubmission()) ==> |r.trace| == 1
  {
    match c
    case Register(ctx, h) =>
      Config(State(s.authContext, h), [SdkInitialized(ctx), RealmRegistered(FACEBOOK_REALM)])
    case ActivityResult(req, res, data) =>
      Config(s, [ActivityResultForwarded(s.handler.value, req, res, data)])
    case TokenReceived(token) =>
      Config(s, [ChallengeAnswerSubmitted(s.authContext.value, AccessTokenAnswer(token))])
    case LoginFailed(info) =>
      Config(State(None, s.handler), [FailureSubmitted(s.authContext.value, info)])
    case ChallengeReceived(ac, challenge, ctx) =>
      (match ExtractAppId(challenge)
       case None => Config(s, [])
       case Some(appId) =>
         Config(State(Some(ac), s.handler), [HandleAuthentication(s.handler.value, ctx, appId)]))
    case AuthenticationSucceeded(_, _) => Config(State(None, s.handler), [])
    case AuthenticationFailed(_, _) => Config(State(None, s.handler), [])
  }

  /** The host's success and failure callbacks clear the context whatever
      it held, submit nothing, keep the handler, and repeating either one
      (or following one with the other) changes nothing more. */
  lemma HostCallbacksReset(s: State, ctx: PlatformContext, info: Json, ctx': PlatformContext, info': Json)
    ensures var ok := Step(s, AuthenticationSucceeded(ctx, info));
            var failed := Step(s, AuthenticationFailed(ctx, info));
            ok == failed == Config(State(None, s.handler), [])
            && Step(ok.state, AuthenticationSucceeded(ctx', info')) == ok
            && Step(ok.state, AuthenticationFailed(ctx', info')) == ok
  {
  }
}
