/** The manager object: the two fields it assigns in place, and a ghost
    record of the calls it has made on its collaborators. Every method is
    specified both directly and, for every public or host-callback method,
    as one `Step` of the pure state machine. */
module Manager {
  import opened FacebookAuth
  import opened Runs

  class FacebookAuthenticationManager {
    /** The registered login handler, or null before any registration. */
    var facebookAuthenticationListener: Option<Handler>
    /** The one host context awaiting an answer, or null. */
    var authContext: Option<AuthContext>
    /** Every outgoing call made so far, oldest first. */
    ghost var trace: seq<Event>
    /** Every call received so far, oldest first. */
    ghost var history: seq<Call>

    /** The fields and the outgoing calls are those of running the received
        calls on a fresh manager. */
    ghost predicate Valid()
      reads this
    {
      Execute(Initial, history) == Some(Config(Snapshot(), trace))
    }

    /** The fields as a value of the state machine. */
    function Snapshot(): State
      reads this
    {
      State(authContext, facebookAuthenticationListener)
    }

    /** The private constructor: nothing registered, nothing in flight. */
    constructor ()
      ensures Valid() && Snapshot() == Initial && trace == [] && history == []
    {
      facebookAuthenticationListener := None;
      authContext := None;
      trace := [];
      history := [];
    }

    /** Registers a new default handler: a registration like any other. */
    method RegisterDefaultAuthenticationListener(ctx: PlatformContext)
      requires Valid()
      modifies this
      ensures Valid() && history == old(history) + [Register(ctx, Some(DefaultHandler))]
      ensures facebookAuthenticationListener == Some(DefaultHandler)
      ensures authContext == old(authContext)
      ensures trace == old(trace) + [SdkInitialized(ctx), RealmRegistered(FACEBOOK_REALM)]
      ensures Config(Snapshot(), trace[|old(trace)|..]) == Step(old(Snapshot()), Register(ctx, Some(DefaultHandler)))
    {
      RegisterAuthenticationListener(ctx, Some(DefaultHandler));
    }

    /** Replaces the handler (null included), initialises the Facebook SDK
        and registers the manager with the host client under the Facebook
        realm. */
    method RegisterAuthenticationListener(ctx: PlatformContext, handler: Option<Handler>)
      requires Valid()
      modifies this
      ensures Valid() && history == old(history) + [Register(ctx, handler)]
      ensures facebookAuthenticationListener == handler
      ensures authContext == old(authContext)
      ensures trace == old(trace) + [SdkInitialized(ctx), RealmRegistered(FACEBOOK_REALM)]
      ensures Config(Snapshot(), trace[|old(trace)|..]) == Step(old(Snapshot()), Register(ctx, handler))
    {
      ExecuteSnoc(Initial, history, Register(ctx, handler));
      facebookAuthenticationListener := handler;
      trace := trace + [SdkInitialized(ctx)];
      trace := trace + [RealmRegistered(FACEBOOK_REALM)];
      assert trace == old(trace) + [SdkInitialized(ctx), RealmRegistered(FACEBOOK_REALM)];
      history := history + [Register(ctx, handler)];
    }

    /** Hands an activity result, unchanged, to the registered handler. */
    method OnActivityResultCalled(requestCode: int, resultCode: int, data: Intent)
      requires facebookAuthenticationListener.Some?
      requires Valid()
      modifies this
      ensures Valid() && history == old(history) + [ActivityResult(requestCode, resultCode, data)]
      ensures Snapshot() == old(Snapshot())
      ensures trace == old(trace) + [ActivityResultForwarded(facebookAuthenticationListener.value, requestCode, resultCode, data)]
      ensures Config(Snapshot(), trace[|old(trace)|..]) == Step(old(Snapshot()), ActivityResult(requestCode, resultCode, data))
    {
      ExecuteSnoc(Initial, history, ActivityResult(requestCode, resultCode, data));
      trace := trace + [ActivityResultForwarded(facebookAuthenticationListener.value, requestCode, resultCode, data)];
      history := history + [ActivityResult(requestCode, resultCode, data)];
    }

    /** Answers the stored challenge with `{"accessToken": token}`, or with
        `{}` for a null token. The stored context is kept. */
    method OnFacebookAccessTokenReceived(facebookAccessToken: Option<string>)
      requires authContext.Some?
      requires Valid()
      modifies this
      ensures Valid() && history == old(history) + [TokenReceived(facebookAccessToken)]
      ensures Snapshot() == old(Snapshot())
      ensures trace == old(trace) + [ChallengeAnswerSubmitted(authContext.value, AccessTokenAnswer(facebookAccessToken))]
      ensures Config(Snapshot(), trace[|old(trace)|..]) == Step(old(Snapshot()), TokenReceived(facebookAccessToken))
    {
      ExecuteSnoc(Initial, history, TokenReceived(facebookAccessToken));
      var answer := AccessTokenAnswer(facebookAccessToken);
      trace := trace + [ChallengeAnswerSubmitted(authContext.value, answer)];
      history := history + [TokenReceived(facebookAccessToken)];
    }

    /** Reports the login failure to the stored context, then forgets it. */
    method OnFacebookAuthenticationFailure(userInfo: FailureInfo)
      requires authContext.Some?
      requires Valid()
      modifies this
      ensures Valid() && history == old(history) + [LoginFailed(userInfo)]
      ensures authContext == None
      ensures facebookAuthenticationListener == old(facebookAuthenticationListener)
      ensures trace == old(trace) + [FailureSubmitted(old(authContext).value, userInfo)]
      ensures Config(Snapshot(), trace[|old(trace)|..]) == Step(old(Snapshot()), LoginFailed(userInfo))
    {
      ExecuteSnoc(Initial, history, LoginFailed(userInfo));
      trace := trace + [FailureSubmitted(authContext.value, userInfo)];
      authContext := None;
      history := history + [LoginFailed(userInfo)];
    }

    /** Stores the context of the challenge being handled. */
    method SetAuthenticationContext(ac: AuthContext)
      modifies this`authContext
      ensures authContext == Some(ac)
    {
      authContext := Some(ac);
    }

    /** Stores the context and starts the Facebook login when the challenge
        names an app id; otherwise only logs, leaving everything as it was. */
    method OnAuthenticationChallengeReceived(ac: AuthContext, challenge: Json, ctx: PlatformContext)
      requires FACEBOOK_APP_ID_KEY in challenge ==> facebookAuthenticationListener.Some?
      requires Valid()
      modifies this
      ensures Valid() && history == old(history) + [ChallengeReceived(ac, challenge, ctx)]
      ensures facebookAuthenticationListener == old(facebookAuthenticationListener)
      ensures FACEBOOK_APP_ID_KEY in challenge ==>
                authContext == Some(ac) &&
                trace == old(trace) + [HandleAuthentication(facebookAuthenticationListener.value, ctx, challenge[FACEBOOK_APP_ID_KEY])]
      ensures FACEBOOK_APP_ID_KEY !in challenge ==> authContext == old(authContext) && trace == old(trace)
      ensures Config(Snapshot(), trace[|old(trace)|..]) == Step(old(Snapshot()), ChallengeReceived(ac, challenge, ctx))
    {
      ExecuteSnoc(Initial, history, ChallengeReceived(ac, challenge, ctx));
      assert trace + [] == trace;
      var appId := ExtractAppId(challenge);
      match appId {
        case None =>
          // the missing key is only logged
        case Some(id) =>
          SetAuthenticationContext(ac);
          trace := trace + [HandleAuthentication(facebookAuthenticationListener.value, ctx, id)];
      }
      history := history + [ChallengeReceived(ac, challenge, ctx)];
    }

    /** The host reports success: the context is forgotten. */
    method OnAuthenticationSuccess(ctx: PlatformContext, info: Json)
      requires Valid()
      modifies this
      ensures Valid() && history == old(history) + [AuthenticationSucceeded(ctx, info)]
      ensures authContext == None
      ensures facebookAuthenticationListener == old(facebookAuthenticationListener)
      ensures trace == old(trace)
      ensures Config(Snapshot(), trace[|old(trace)|..]) == Step(old(Snapshot()), AuthenticationSucceeded(ctx, info))
    {
      ExecuteSnoc(Initial, history, AuthenticationSucceeded(ctx, info));
      assert trace + [] == trace;
      authContext := None;
      history := history + [AuthenticationSucceeded(ctx, info)];
    }

    /** The host reports failure: the context is forgotten. */
    method OnAuthenticationFailure(ctx: PlatformContext, info: Json)
      requires Valid()
      modifies this
      ensures Valid() && history == old(history) + [AuthenticationFailed(ctx, info)]
      ensures authContext == None
      ensures facebookAuthenticationListener == old(facebookAuthenticationListener)
      ensures trace == old(trace)
      ensures Config(Snapshot(), trace[|old(trace)|..]) == Step(old(Snapshot()), AuthenticationFailed(ctx, info))
    {
      ExecuteSnoc(Initial, history, AuthenticationFailed(ctx, info));
      assert trace + [] == trace;
      authContext := None;
      history := history + [AuthenticationFailed(ctx, info)];
    }
  }

  /** A manager only ever answers or fails a context that a challenge with
      an app id handed it, and the context it holds came the same way. */
  lemma SubmitsOnlyToChallengedContexts(m: FacebookAuthenticationManager)
    requires m.Valid()
    ensures forall i :: 0 <= i < |m.trace| && m.trace[i].IsSubmission() ==>
              exists j :: 0 <= j < |m.history| && Accepts(m.history[j], m.trace[i].target)
    ensures m.authContext.Some? ==>
              exists j :: 0 <= j < |m.history| && Accepts(m.history[j], m.authContext.value)
  {
  }
}
