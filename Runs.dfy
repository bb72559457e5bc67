/** Sequences of calls on the manager: what a whole run does to the two
    fields and which outgoing calls it makes. */
module Runs {
  import opened FacebookAuth

  /** `ac` was either held at the start or handed over by an accepted
      challenge among `calls`. */
  ghost predicate Delivered(s0: State, calls: seq<Call>, ac: AuthContext) {
    s0.authContext == Some(ac) || exists j :: 0 <= j < |calls| && Accepts(calls[j], ac)
  }

  lemma DeliveredExtends(s0: State, prefix: seq<Call>, c: Call)
    ensures forall ac :: Delivered(s0, prefix, ac) ==> Delivered(s0, prefix + [c], ac)
    ensures forall ac :: Accepts(c, ac) ==> Delivered(s0, prefix + [c], ac)
  {
    var calls := prefix + [c];
    forall ac | Delivered(s0, prefix, ac) ensures Delivered(s0, calls, ac) {
      if s0.authContext != Some(ac) {
        var j :| 0 <= j < |prefix| && Accepts(prefix[j], ac);
        assert calls[j] == prefix[j];
      }
    }
    forall ac | Accepts(c, ac) ensures Delivered(s0, calls, ac) {
      assert calls[|prefix|] == c;
    }
  }

  /** Runs `calls` in order from `s0`; `None` when one of them dereferences
      a null field and the run ends with a NullPointerException. Whatever
      the run submits goes to a context it was given, and so does the
      context it leaves in flight. */
  function Execute(s0: State, calls: seq<Call>): (r: Option<Config>)
    decreases |calls|
    ensures calls == [] ==> r == Some(Config(s0, []))
    ensures r.Some? ==> forall i :: (0 <= i < |r.value.trace| && r.value.trace[i].IsSubmission()
                                     ==> Delivered(s0, calls, r.value.trace[i].target))
    ensures r.Some? && r.value.state.authContext.Some? ==> Delivered(s0, calls, r.value.state.authContext.value)
  {
    if calls == [] then Some(Config(s0, []))
    else
      var prefix := calls[..|calls| - 1];
      var c := calls[|calls| - 1];
      match Execute(s0, prefix)
      case None => None
      case Some(cfg) =>
        if Enabled(cfg.state, c) then
          var next := Step(cfg.state, c);
          DeliveredExtends(s0, prefix, c);
          assert prefix + [c] == calls;
          Some(Config(next.state, cfg.trace + next.trace))
        else None
  }

  /** Running one more call is running the prefix, then stepping. */
  lemma ExecuteSnoc(s0: State, calls: seq<Call>, c: Call)
    ensures Execute(s0, calls + [c]) ==
            match Execute(s0, calls)
            case None => None
            case Some(cfg) =>
              if Enabled(cfg.state, c)
              then Some(Config(Step(cfg.state, c).state, cfg.trace + Step(cfg.state, c).trace))
              else None
  {
  }

  // ---- the handler: the last registration wins ----


  /** After a run the handler is the one of the last registration, or the
      initial one when nothing was registered. */
  lemma {:induction false} LastRegistrationWins(s0: State, calls: seq<Call>)
    requires Execute(s0, calls).Some?
    ensures var h := Execute(s0, calls).value.state.handler;
            (h == s0.handler && forall k :: 0 <= k < |calls| ==> !calls[k].Register?)
            || exists j :: 0 <= j < |calls| && calls[j].Register? && h == calls[j].handler
                           && forall k :: j < k < |calls| ==> !calls[k].Register?
    decreases |calls|
  {
    if calls != [] {
      var prefix := calls[..|calls| - 1];
      var c := calls[|calls| - 1];
      ExecuteSnoc(s0, prefix, c);
      assert prefix + [c] == calls;
      var cfg := Execute(s0, prefix).value;
      var h := Execute(s0, calls).value.state.handler;
      if c.Register? {
        assert h == calls[|calls| - 1].handler;
      } else {
        assert h == cfg.state.handler;
        LastRegistrationWins(s0, prefix);
        if !(cfg.state.handler == s0.handler && forall k :: 0 <= k < |prefix| ==> !prefix[k].Register?) {
          var j :| 0 <= j < |prefix| && prefix[j].Register? && cfg.state.handler == prefix[j].handler
                   && forall k :: j < k < |prefix| ==> !prefix[k].Register?;
          assert calls[j] == prefix[j];
          assert forall k :: j < k < |calls| ==> !calls[k].Register? by {
            forall k | j < k < |calls| ensures !calls[k].Register? {
              if k < |prefix| { assert calls[k] == prefix[k]; }
            }
          }
        } else {
          assert forall k :: 0 <= k < |calls| ==> !calls[k].Register? by {
            forall k | 0 <= k < |calls| ensures !calls[k].Register? {
              if k < |prefix| { assert calls[k] == prefix[k]; }
            }
          }
        }
      }
    }
  }

  // ---- one login request per accepted challenge ----

  /** The (platform context, app id) pairs handed to `handleAuthentication`. */
  function LoginRequests(trace: seq<Event>): seq<(PlatformContext, string)>
    decreases |trace|
  {
    if trace == [] then []
    else
      var e := trace[|trace| - 1];
      LoginRequests(trace[..|trace| - 1])
        + (if e.HandleAuthentication? then [(e.ctx, e.appId)] else [])
  }

  /** The (platform context, app id) pairs of the challenges that name an
      app id. */
  function AcceptedChallenges(calls: seq<Call>): seq<(PlatformContext, string)>
    decreases |calls|
  {
    if calls == [] then []
    else
      var c := calls[|calls| - 1];
      AcceptedChallenges(calls[..|calls| - 1])
        + (if c.ChallengeReceived? && FACEBOOK_APP_ID_KEY in c.challenge
           then [(c.ctx, c.challenge[FACEBOOK_APP_ID_KEY])] else [])
  }

  lemma {:induction false} LoginRequestsAppend(a: seq<Event>, b: seq<Event>)
    ensures LoginRequests(a + b) == LoginRequests(a) + LoginRequests(b)
    decreases |b|
  {
    if b != [] {
      var b' := b[..|b| - 1];
      assert (a + b)[..|a + b| - 1] == a + b';
      LoginRequestsAppend(a, b');
    } else {
      assert a + b == a;
    }
  }

  /** One call starts the logins its own challenge asks for. */
  lemma StepLoginRequests(s: State, c: Call)
    requires Enabled(s, c)
    ensures LoginRequests(Step(s, c).trace) == AcceptedChallenges([c])
  {
    var t := Step(s, c).trace;
    assert [c][..0] == [];
    if |t| == 2 {
      assert t[..1] == [t[0]];
      assert t[..1][..0] == [];
      assert LoginRequests(t[..1]) == [];
    } else if |t| == 1 {
      assert t[..0] == [];
    }
  }

  /** Every challenge that names an app id starts exactly one login, with
      that app id and that platform context, in order; nothing else does. */
  lemma {:induction false} OneLoginPerAcceptedChallenge(s0: State, calls: seq<Call>)
    requires Execute(s0, calls).Some?
    ensures LoginRequests(Execute(s0, calls).value.trace) == AcceptedChallenges(calls)
    decreases |calls|
  {
    if calls != [] {
      var prefix := calls[..|calls| - 1];
      var c := calls[|calls| - 1];
      ExecuteSnoc(s0, prefix, c);
      assert prefix + [c] == calls;
      var cfg := Execute(s0, prefix).value;
      OneLoginPerAcceptedChallenge(s0, prefix);
      LoginRequestsAppend(cfg.trace, Step(cfg.state, c).trace);
      StepLoginRequests(cfg.state, c);
    }
  }

  // ---- after the context is cleared nothing can be submitted ----

  /** A call after which no context is in flight. */
  predicate Clears(c: Call) {
    c.LoginFailed? || c.AuthenticationSucceeded? || c.AuthenticationFailed?
  }

  /** Once a call clears the context, a run that goes on without accepting a
      new challenge leaves nothing in flight, and a token or failure report
      in it would dereference null: such a run cannot contain one. */
  lemma {:induction false} NothingInFlightAfterClear(s0: State, calls: seq<Call>, j: nat)
    requires Execute(s0, calls).Some?
    requires j < |calls| && Clears(calls[j])
    requires forall k, ac :: j < k < |calls| ==> !Accepts(calls[k], ac)
    ensures Execute(s0, calls).value.state.authContext == None
    ensures forall k :: j < k < |calls| ==> !calls[k].TokenReceived? && !calls[k].LoginFailed?
    decreases |calls|
  {
    var prefix := calls[..|calls| - 1];
    var c := calls[|calls| - 1];
    ExecuteSnoc(s0, prefix, c);
    assert prefix + [c] == calls;
    var cfg := Execute(s0, prefix).value;
    if j == |calls| - 1 {
      assert Clears(c);
    } else {
      assert prefix[j] == calls[j];
      assert forall k, ac :: j < k < |prefix| ==> !Accepts(prefix[k], ac) by {
        forall k, ac | j < k < |prefix| ensures !Accepts(prefix[k], ac) {
          assert prefix[k] == calls[k];
        }
      }
      NothingInFlightAfterClear(s0, prefix, j);
      assert cfg.state.authContext == None;
      assert !c.TokenReceived? && !c.LoginFailed?;
      if c.ChallengeReceived? {
        assert !Accepts(calls[|calls| - 1], c.authContext);
      }
      forall k | j < k < |calls| ensures !calls[k].TokenReceived? && !calls[k].LoginFailed? {
        if k < |prefix| { assert calls[k] == prefix[k]; }
      }
    }
  }

  /** A call that decides the context in flight: it clears it, or it is a
      challenge carrying an app id, which stores its own. */
  predicate Decides(c: Call) {
    Clears(c) || (c.ChallengeReceived? && FACEBOOK_APP_ID_KEY in c.challenge)
  }

  /** The context in flight right after a deciding call. */
  function Decided(c: Call): Option<AuthContext>
    requires Decides(c)
  {
    if Clears(c) then None else Some(c.authContext)
  }

  /** The context in flight after a run is the one the last deciding call
      left: the context of the last accepted challenge unless a clearing
      call came after it; the initial one when no call decided. */
  lemma {:induction false} InFlightIsLastDecided(s0: State, calls: seq<Call>)
    requires Execute(s0, calls).Some?
    ensures var a := Execute(s0, calls).value.state.authContext;
            (a == s0.authContext && forall k :: 0 <= k < |calls| ==> !Decides(calls[k]))
            || exists j :: 0 <= j < |calls| && Decides(calls[j]) && a == Decided(calls[j])
                           && forall k :: j < k < |calls| ==> !Decides(calls[k])
    decreases |calls|
  {
    if calls != [] {
      var prefix := calls[..|calls| - 1];
      var c := calls[|calls| - 1];
      ExecuteSnoc(s0, prefix, c);
      assert prefix + [c] == calls;
      var cfg := Execute(s0, prefix).value;
      var a := Execute(s0, calls).value.state.authContext;
      if Decides(c) {
        assert a == Decided(calls[|calls| - 1]);
      } else {
        assert a == cfg.state.authContext;
        InFlightIsLastDecided(s0, prefix);
        if !(cfg.state.authContext == s0.authContext && forall k :: 0 <= k < |prefix| ==> !Decides(prefix[k])) {
          var j :| 0 <= j < |prefix| && Decides(prefix[j]) && cfg.state.authContext == Decided(prefix[j])
                   && forall k :: j < k < |prefix| ==> !Decides(prefix[k]);
          assert calls[j] == prefix[j];
          assert forall k :: j < k < |calls| ==> !Decides(calls[k]) by {
            forall k | j < k < |calls| ensures !Decides(calls[k]) {
              if k < |prefix| { assert calls[k] == prefix[k]; }
            }
          }
        } else {
          assert forall k :: 0 <= k < |calls| ==> !Decides(calls[k]) by {
            forall k | 0 <= k < |calls| ensures !Decides(calls[k]) {
              if k < |prefix| { assert calls[k] == prefix[k]; }
            }
          }
        }
      }
    }
  }

  /** A token or failure report makes exactly one call: a submission to the
      context in flight at that moment, which `InFlightIsLastDecided`
      names. */
  lemma SubmissionTargetsContextInFlight(s0: State, calls: seq<Call>, c: Call)
    requires c.TokenReceived? || c.LoginFailed?
    requires Execute(s0, calls + [c]).Some?
    ensures Execute(s0, calls).Some? && Execute(s0, calls).value.state.authContext.Some?
    ensures var before := Execute(s0, calls).value;
            var after := Execute(s0, calls + [c]).value;
            |after.trace| == |before.trace| + 1
            && after.trace[..|before.trace|] == before.trace
            && after.trace[|before.trace|].IsSubmission()
            && Some(after.trace[|before.trace|].target) == before.state.authContext
  {
  }

  // ---- submissions ----

  /** What a submission carries, without its target. */
  datatype Resolution = Answer(answer: Json) | Failure(info: FailureInfo)

  /** The payloads of the submissions among the outgoing calls, in order. */
  function Resolutions(trace: seq<Event>): seq<Resolution>
    decreases |trace|
  {
    if trace == [] then []
    else
      var e := trace[|trace| - 1];
      Resolutions(trace[..|trace| - 1])
        + (match e
           case ChallengeAnswerSubmitted(_, answer) => [Answer(answer)]
           case FailureSubmitted(_, info) => [Failure(info)]
           case _ => [])
  }

  /** The payloads the login outcomes reported among `calls` ask for. */
  function ReportedOutcomes(calls: seq<Call>): seq<Resolution>
    decreases |calls|
  {
    if calls == [] then []
    else
      var c := calls[|calls| - 1];
      ReportedOutcomes(calls[..|calls| - 1])
        + (match c
           case TokenReceived(token) => [Answer(AccessTokenAnswer(token))]
           case LoginFailed(info) => [Failure(info)]
           case _ => [])
  }

  lemma {:induction false} ResolutionsAppend(a: seq<Event>, b: seq<Event>)
    ensures Resolutions(a + b) == Resolutions(a) + Resolutions(b)
    decreases |b|
  {
    if b != [] {
      var b' := b[..|b| - 1];
      assert (a + b)[..|a + b| - 1] == a + b';
      ResolutionsAppend(a, b');
    } else {
      assert a + b == a;
    }
  }

  /** One call submits what its own outcome report asks for. */
  lemma StepResolutions(s: State, c: Call)
    requires Enabled(s, c)
    ensures Resolutions(Step(s, c).trace) == ReportedOutcomes([c])
  {
    var t := Step(s, c).trace;
    assert [c][..0] == [];
    if |t| == 2 {
      assert t[..1] == [t[0]];
      assert t[..1][..0] == [];
      assert Resolutions(t[..1]) == [];
    } else if |t| == 1 {
      assert t[..0] == [];
    }
  }

  /** Submissions come from login outcome reports only, one each, in order,
      each carrying `{"accessToken": token}` or the failure info unchanged;
      a challenge, malformed or not, submits nothing. */
  lemma {:induction false} OneSubmissionPerOutcome(s0: State, calls: seq<Call>)
    requires Execute(s0, calls).Some?
    ensures Resolutions(Execute(s0, calls).value.trace) == ReportedOutcomes(calls)
    decreases |calls|
  {
    if calls != [] {
      var prefix := calls[..|calls| - 1];
      var c := calls[|calls| - 1];
      ExecuteSnoc(s0, prefix, c);
      assert prefix + [c] == calls;
      var cfg := Execute(s0, prefix).value;
      OneSubmissionPerOutcome(s0, prefix);
      ResolutionsAppend(cfg.trace, Step(cfg.state, c).trace);
      StepResolutions(cfg.state, c);
    }
  }
}
