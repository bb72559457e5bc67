/** Concrete runs of the manager, from construction on. */
module Scenarios {
  import opened FacebookAuth
  import opened Runs
  import opened Manager

  const app: PlatformContext := PlatformContext(1)
  const ctx1: AuthContext := AuthContext(1)
  const ctx2: AuthContext := AuthContext(2)
  const user: Handler := CustomHandler(7)
  const cancelled: FailureInfo := FailureInfo(3)

  /** The one-call extension of a run, stated for a run already known. */
  lemma Then(s0: State, calls: seq<Call>, cfg: Config, c: Call)
    requires Execute(s0, calls) == Some(cfg)
    requires Enabled(cfg.state, c)
    ensures Execute(s0, calls + [c]) == Some(Config(Step(cfg.state, c).state, cfg.trace + Step(cfg.state, c).trace))
  {
  }

  /** Register the default handler, receive a challenge for app "123", get
      the token "tok-abc": one answer `{"accessToken": "tok-abc"}` goes to
      the challenge's context, which stays in flight afterwards. */
  lemma TokenAnswersChallenge()
    ensures Execute(Initial, [Register(app, Some(DefaultHandler)),
                              ChallengeReceived(ctx1, map[FACEBOOK_APP_ID_KEY := "123"], app),
                              TokenReceived(Some("tok-abc"))])
            == Some(Config(State(Some(ctx1), Some(DefaultHandler)),
                           [SdkInitialized(app), RealmRegistered(FACEBOOK_REALM),
                            HandleAuthentication(DefaultHandler, app, "123"),
                            ChallengeAnswerSubmitted(ctx1, map[ACCESS_TOKEN_KEY := "tok-abc"])]))
  {
    var c0 := Register(app, Some(DefaultHandler));
    var c1 := ChallengeReceived(ctx1, map[FACEBOOK_APP_ID_KEY := "123"], app);
    var c2 := TokenReceived(Some("tok-abc"));
    var registered := State(None, Some(DefaultHandler));
    var awaiting := State(Some(ctx1), Some(DefaultHandler));
    var t0 := [SdkInitialized(app), RealmRegistered(FACEBOOK_REALM)];
    var t1 := t0 + [HandleAuthentication(DefaultHandler, app, "123")];
    var answer := ChallengeAnswerSubmitted(ctx1, map[ACCESS_TOKEN_KEY := "tok-abc"]);
    assert [] + [c0] == [c0] && [c0] + [c1] == [c0, c1] && [c0, c1] + [c2] == [c0, c1, c2];
    assert [] + t0 == t0 && t1 + [answer] == t0 + [HandleAuthentication(DefaultHandler, app, "123"), answer]
           == [SdkInitialized(app), RealmRegistered(FACEBOOK_REALM), HandleAuthentication(DefaultHandler, app, "123"), answer];
    Then(Initial, [], Config(Initial, []), c0);
    assert Execute(Initial, [c0]) == Some(Config(registered, t0));
    Then(Initial, [c0], Config(registered, t0), c1);
    assert Execute(Initial, [c0, c1]) == Some(Config(awaiting, t1));
    Then(Initial, [c0, c1], Config(awaiting, t1), c2);
    assert Step(awaiting, c2) == Config(awaiting, [answer]);
  }

  // The remaining runs drive the manager object itself.

  /** A custom handler reports a cancelled login: one failure submission
      with the info unchanged, the context is cleared, and the next
      challenge is accepted. */
  method FailureThenNextChallenge() {
    var m := new FacebookAuthenticationManager();
    m.RegisterAuthenticationListener(app, Some(user));
    m.OnAuthenticationChallengeReceived(ctx1, map[FACEBOOK_APP_ID_KEY := "123"], app);
    m.OnFacebookAuthenticationFailure(cancelled);
    assert m.authContext == None;
    assert m.trace[3..] == [FailureSubmitted(ctx1, cancelled)];
    m.OnAuthenticationChallengeReceived(ctx2, map[FACEBOOK_APP_ID_KEY := "456"], app);
    assert m.authContext == Some(ctx2);
    assert m.trace[4..] == [HandleAuthentication(user, app, "456")];
  }

  /** The host reports success while the login is pending: the context is
      cleared though the manager submitted nothing. */
  method HostSuccessWhileAwaiting() {
    var m := new FacebookAuthenticationManager();
    m.RegisterDefaultAuthenticationListener(app);
    m.OnAuthenticationChallengeReceived(ctx1, map[FACEBOOK_APP_ID_KEY := "123"], app);
    m.OnAuthenticationSuccess(app, map[]);
    assert m.authContext == None;
    assert m.trace == [SdkInitialized(app), RealmRegistered(FACEBOOK_REALM),
                       HandleAuthentication(DefaultHandler, app, "123")];
  }

  /** The token path keeps the context, so a second token answers the same
      one-shot context a second time. */
  method TokenTwiceAnswersTwice() {
    var m := new FacebookAuthenticationManager();
    m.RegisterDefaultAuthenticationListener(app);
    m.OnAuthenticationChallengeReceived(ctx1, map[FACEBOOK_APP_ID_KEY := "123"], app);
    m.OnFacebookAccessTokenReceived(Some("a"));
    m.OnFacebookAccessTokenReceived(Some("b"));
    assert m.authContext == Some(ctx1);
    assert m.trace[3..] == [ChallengeAnswerSubmitted(ctx1, map[ACCESS_TOKEN_KEY := "a"]),
                            ChallengeAnswerSubmitted(ctx1, map[ACCESS_TOKEN_KEY := "b"])];
  }

  /** A challenge without an app id is dropped: the earlier context stays,
      no login starts and the new context is never answered. */
  method MalformedChallengeIsDropped() {
    var m := new FacebookAuthenticationManager();
    m.RegisterDefaultAuthenticationListener(app);
    m.OnAuthenticationChallengeReceived(ctx1, map[FACEBOOK_APP_ID_KEY := "123"], app);
    ghost var before := m.trace;
    m.OnAuthenticationChallengeReceived(ctx2, map["appId" := "123"], app);
    assert m.authContext == Some(ctx1);
    assert m.trace == before;
  }

  /** Registering null drops the handler; a null token is answered with an
      empty object. */
  method NullArguments() {
    var m := new FacebookAuthenticationManager();
    m.RegisterAuthenticationListener(app, Some(user));
    m.OnAuthenticationChallengeReceived(ctx1, map[FACEBOOK_APP_ID_KEY := "123"], app);
    m.RegisterAuthenticationListener(app, None);
    assert m.facebookAuthenticationListener == None;
    m.OnFacebookAccessTokenReceived(None);
    assert m.trace[|m.trace| - 1] == ChallengeAnswerSubmitted(ctx1, map[]);
  }
}
