# Facebook challenge bridge for the Bluemix Mobile Services security SDK

This project models `FacebookAuthenticationManager`. It is the
object that answers the Bluemix Mobile Services authentication challenges of the
realm `wl_facebookRealm` with a Facebook login. The manager holds two
mutable fields:

- `authContext`: the host `AuthenticationContext` awaiting an answer, or null;
- `facebookAuthenticationListener`: the registered login handler, or null.

It reacts to three kinds of calls:

- a challenge from the host stores the context and starts a login through the
  handler, but only when the challenge carries `facebookAppId`;
- the handler reports a token, answered as `{"accessToken": token}`, or a
  failure, which is passed on unchanged and clears the context;
- the host reports success or failure, which clears the context.

The model has four files.

- `FacebookAuth.dfy` holds the opaque collaborators (Android `Context` and `Intent`,
  `AuthenticationContext`, the handler, the failure info) and the outgoing calls
  as an `Event` datatype. It also holds the two fields as a `State`, and
  `Step`, which gives one incoming call's effect as a pure function.
- `Manager.dfy` holds the class `FacebookAuthenticationManager`, with the two fields
  assigned in place. A ghost `trace` records the outgoing calls and a ghost `history`
  records the incoming ones. Every method states its new fields and emitted calls
  directly, and every public or host-callback method also as one `Step`. `Valid()` ties the object to a run of the
  state machine from construction.
- `Runs.dfy` holds `Execute`, which runs a sequence of calls, and the
  properties of whole runs.
- `Scenarios.dfy` holds concrete runs: the token scenario on `Execute`; and on
  the object, a failure followed by a new challenge, a host success while a
  login is pending, a second token, a malformed challenge, and null arguments.

A null field is `None`. A call that would dereference a null field is a
`requires` on the class method. In the pure model it is the predicate
`Enabled`, and `Execute` returns `None` there, standing for the
NullPointerException that ends the run.

`onFacebookAccessTokenReceived` does not clear `authContext`. The context
stays until the host's success or failure callback arrives, and a second
token answers the same context again (`Scenarios.TokenTwiceAnswersTwice`).

Null arguments the code accepts are modelled: registering a null handler sets
the listener back to null, and a null token is answered with the empty object
`{}`, because putting a null value into a fresh JSON object leaves it empty
(`Scenarios.NullArguments`).

## Model

| member | source | states |
|---|---|---|
| FacebookAuth.AnswerRoundTrip | lib/src/main/java/com/ibm/mobilefirstplatform/clientsdk/android/security/facebookauthentication/FacebookAuthenticationManager.java:114-116 | the token read back from the answer `{"accessToken": token}` is the token put in, null included (the answer to a null token is `{}`); an answer is rebuilt exactly from its token if and only if `accessToken` is its only possible key |
| FacebookAuth.Step | lib/src/main/java/com/ibm/mobilefirstplatform/clientsdk/android/security/facebookauthentication/FacebookAuthenticationManager.java:89-155 | only registration changes the handler, and then to the registered one; the context is kept, cleared, or replaced by the context of a challenge with an app id; a submission goes only to the context held before the call, and a call that submits makes no other call |
| FacebookAuth.HostCallbacksReset | lib/src/main/java/com/ibm/mobilefirstplatform/clientsdk/android/security/facebookauthentication/FacebookAuthenticationManager.java:147-155 | host success and host failure both clear the context whatever it held, make no call, keep the handler, and are idempotent |
| Manager.FacebookAuthenticationManager.constructor | lib/src/main/java/com/ibm/mobilefirstplatform/clientsdk/android/security/facebookauthentication/FacebookAuthenticationManager.java:71-74 | a new manager has no handler, no context and has made no call |
| Manager.FacebookAuthenticationManager.RegisterDefaultAuthenticationListener | lib/src/main/java/com/ibm/mobilefirstplatform/clientsdk/android/security/facebookauthentication/FacebookAuthenticationManager.java:80-82 | is a registration of the default handler: the handler becomes the default one, the context is untouched, the SDK is initialised and the realm registered |
| Manager.FacebookAuthenticationManager.RegisterAuthenticationListener | lib/src/main/java/com/ibm/mobilefirstplatform/clientsdk/android/security/facebookauthentication/FacebookAuthenticationManager.java:89-97 | the handler is replaced by the given one, null included, the context is untouched, and the calls made are SDK initialisation with the platform context, then registration under `wl_facebookRealm` |
| Manager.FacebookAuthenticationManager.OnActivityResultCalled | lib/src/main/java/com/ibm/mobilefirstplatform/clientsdk/android/security/facebookauthentication/FacebookAuthenticationManager.java:105-107 | needs a registered handler; makes one call to it with the three arguments unchanged; no field changes |
| Manager.FacebookAuthenticationManager.OnFacebookAccessTokenReceived | lib/src/main/java/com/ibm/mobilefirstplatform/clientsdk/android/security/facebookauthentication/FacebookAuthenticationManager.java:113-121 | needs a stored context; submits `{"accessToken": token}` (or `{}` for a null token) to it exactly once; both fields stay as they were, so the context is not cleared |
| Manager.FacebookAuthenticationManager.OnFacebookAuthenticationFailure | lib/src/main/java/com/ibm/mobilefirstplatform/clientsdk/android/security/facebookauthentication/FacebookAuthenticationManager.java:127-130 | needs a stored context; submits the failure info unchanged, exactly once, to the context held before the call; afterwards the context is null and the handler unchanged |
| Manager.FacebookAuthenticationManager.SetAuthenticationContext | lib/src/main/java/com/ibm/mobilefirstplatform/clientsdk/android/security/facebookauthentication/FacebookAuthenticationManager.java:132-134 | the stored context becomes the given one and nothing else changes |
| Manager.FacebookAuthenticationManager.OnAuthenticationChallengeReceived | lib/src/main/java/com/ibm/mobilefirstplatform/clientsdk/android/security/facebookauthentication/FacebookAuthenticationManager.java:137-145 | with `facebookAppId` present, the context becomes exactly the one passed and the handler is asked once to log in with the platform context and that app id; without it, the context, the handler and the calls made are all unchanged |
| Manager.FacebookAuthenticationManager.OnAuthenticationSuccess | lib/src/main/java/com/ibm/mobilefirstplatform/clientsdk/android/security/facebookauthentication/FacebookAuthenticationManager.java:147-150 | clears the context whatever it held; no call, handler unchanged |
| Manager.FacebookAuthenticationManager.OnAuthenticationFailure | lib/src/main/java/com/ibm/mobilefirstplatform/clientsdk/android/security/facebookauthentication/FacebookAuthenticationManager.java:152-155 | clears the context whatever it held; no call, handler unchanged |
| Manager.SubmitsOnlyToChallengedContexts | lib/src/main/java/com/ibm/mobilefirstplatform/clientsdk/android/security/facebookauthentication/FacebookAuthenticationManager.java:117-140 | every answer or failure a manager has submitted, and the context it holds, belongs to a challenge it received that carried an app id |
| Runs.Execute | lib/src/main/java/com/ibm/mobilefirstplatform/clientsdk/android/security/facebookauthentication/FacebookAuthenticationManager.java:113-145 | a run that does not dereference null submits only to contexts it started with or received through a challenge with an app id, and leaves in flight only such a context |
| Runs.LastRegistrationWins | lib/src/main/java/com/ibm/mobilefirstplatform/clientsdk/android/security/facebookauthentication/FacebookAuthenticationManager.java:89-90 | after a run the handler is the one of the last registration (possibly null), or the initial one when there was no registration |
| Runs.OneLoginPerAcceptedChallenge | lib/src/main/java/com/ibm/mobilefirstplatform/clientsdk/android/security/facebookauthentication/FacebookAuthenticationManager.java:137-145 | the logins started are exactly the challenges carrying an app id, one each, in order, with that challenge's platform context and app id |
| Runs.InFlightIsLastDecided | lib/src/main/java/com/ibm/mobilefirstplatform/clientsdk/android/security/facebookauthentication/FacebookAuthenticationManager.java:127-155 | after a run the context in flight is the one the last deciding call left: the context of the last challenge carrying an app id unless a login failure or host callback came after it, null if one did, and the initial context when no call decided |
| Runs.SubmissionTargetsContextInFlight | lib/src/main/java/com/ibm/mobilefirstplatform/clientsdk/android/security/facebookauthentication/FacebookAuthenticationManager.java:113-130 | a token or failure report needs a context in flight, keeps the earlier calls, and adds exactly one submission, addressed to the context in flight at that moment |
| Runs.OneSubmissionPerOutcome | lib/src/main/java/com/ibm/mobilefirstplatform/clientsdk/android/security/facebookauthentication/FacebookAuthenticationManager.java:113-130 | the submissions are exactly the reported login outcomes, one each, in order: `{"accessToken": token}` for a token and the unchanged info for a failure; challenges, well-formed or not, submit nothing |
| Runs.NothingInFlightAfterClear | lib/src/main/java/com/ibm/mobilefirstplatform/clientsdk/android/security/facebookauthentication/FacebookAuthenticationManager.java:127-155 | after a login failure or a host success or failure, and with no challenge accepted since, no context is in flight and no token or failure can be reported without dereferencing null |
| Scenarios.TokenAnswersChallenge | lib/src/main/java/com/ibm/mobilefirstplatform/clientsdk/android/security/facebookauthentication/FacebookAuthenticationManager.java:80-141 | default handler, challenge `{facebookAppId: "123"}`, token `"tok-abc"`: one login with "123", then one answer `{"accessToken": "tok-abc"}` to the challenge's context, which is still held |

## Left out

- `getInstance` and its double-checked locking (lines 54-66) are left out, because they only matter for concurrent lazy construction. The model works on one explicitly constructed manager.
- The `Logger` and `CallbackManager` the constructor creates, and every `logger.error` call, are left out. They are calls into code that is not part of this model and do not affect the two fields.
- `FacebookSdk.sdkInitialize` and `BMSClient.registerAuthenticationListener` are recorded only as the trace events `SdkInitialized` and `RealmRegistered`. Their internals are not part of this model.
- JSON library behaviour is not modelled. Challenges are string maps, and only whether `facebookAppId` is present decides the outcome. The coercion of non-string values by `getString` is not modelled, and a present key whose value is not a string is treated as a string.
- `Manager.FacebookAuthenticationManager.OnFacebookAccessTokenReceived`: the `JSONException` branch of the token path is not modelled. `put` with the constant key and a string or null value cannot raise it.
- `Manager.FacebookAuthenticationManager.OnAuthenticationChallengeReceived`: requires a handler when the challenge carries an app id. The Java code would store the context and then raise a NullPointerException, and the model does not capture that partial update before the crash.
- The challenge's `AuthenticationContext` argument is never null in the model. A null one would be stored and crash later on the token or failure path.
- The challenge itself is never null in the model. In the code a null challenge raises a NullPointerException at `getString`, which the `JSONException` handler does not catch.
- Re-entrant calls are not modelled: no incoming call arrives from inside one of the manager's outgoing calls. On the failure path this matters, because `submitAuthenticationFailure` runs before `authContext` is set to null. A challenge the host delivered from inside that call would be stored and then wiped, and the model has no run with that outcome. The token and challenge paths write their fields before the outgoing call or not at all, so they are unaffected.
- The default handler is one value, `DefaultHandler`. The model does not distinguish the separate `DefaultFacebookAuthenticationListener` objects that each default registration creates.
- The handlers' internals, the Facebook login UI, and the asynchronous delivery of their callbacks are not part of this model. Any sequence of incoming calls is a possible run.
- The info of `onAuthenticationSuccess` and `onAuthenticationFailure`, and the Android `Context` arguments, are carried but never inspected, as in the code.
- Thread safety of the unsynchronised `authContext` field is not modelled: the runs are sequential.
