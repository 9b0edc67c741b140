/** "We know that we will keep retrying": after a credentials failure nothing but the failure timer
    or an unanswered token request brings the scheduler back. */
module Retrying {
  import opened Basics
  import opened SessionTypes
  import opened SessionPool
  import opened Scheduler
  import opened SchedulerRuns
  import EventQueue
  import RequestConservation
  import TokenPool
  import WakeUps

  predicate KeepsRetrying(s: State) {
    s.locker.sessionState.CredentialsFailure? ==> WakeUps.Pending(s.failureTimer) || s.tokenCalls != []
  }

  /** The one way out: the last wake-up is a token request made with credentials that have been
      replaced since, and it succeeds. AddSessionToken refuses the token, so the state stays as it
      is, and a success arms no timer. */
  predicate LosesLastWakeUp(s: State, a: Action) {
    && s.locker.sessionState.CredentialsFailure?
    && !WakeUps.Pending(s.failureTimer)
    && |s.tokenCalls| == 1 && s.locker.credentials != Some(s.tokenCalls[0])
    && a.TokenAnswered? && a.i == 0 && a.token.error == NoError
  }

  /** The scheduler's part that decides about retrying. */
  ghost predicate SameRetry(s: State, s': State) {
    && s'.locker.sessionState == s.locker.sessionState && s'.locker.credentials == s.locker.credentials
    && s'.failureTimer == s.failureTimer && s'.locker.failureCount == s.locker.failureCount
    && s.tokenCalls <= s'.tokenCalls
    && (forall c | c in s'.tokenCalls :: c in s.tokenCalls || s.locker.credentials == Some(c))
    && (s.locker.sessionState.CredentialsFailure? ==> s'.tokenCalls == s.tokenCalls)
  }

  lemma {:induction false} TokenlessRetry(s: State)
    ensures SameRetry(s, StartTokenless(s))
    ensures StartTokenless(s).tokenCalls == s.tokenCalls
    decreases |s.locker.waitingNonSt|
  {
    if s.locker.waitingNonSt != [] { TokenlessRetry(StartOneTokenless(s)); }
  }

  lemma {:induction false} WithTokensRetry(s: State)
    ensures SameRetry(s, StartWithTokens(s))
    ensures StartWithTokens(s).tokenCalls == s.tokenCalls
    decreases |s.locker.waitingSt|
  {
    if CanCheckOut(s.locker) { WithTokensRetry(StartOneWithToken(s)); }
  }

  /** AttemptRequests never gives up a retry, and asks for tokens with the current credentials. */
  lemma AttemptRetry(s: State)
    ensures SameRetry(s, AttemptRequests(s))
  {
    TokenlessRetry(s);
    WithTokensRetry(StartTokenless(s));
    var s' := StartWithTokens(StartTokenless(s));
    RequestConservation.RequestNeededMovesNothing(s', false);
    if s'.locker.credentials.Some? { WakeUps.RequestLoopEnds(s', s'.locker.credentials.value); }
  }

  ghost predicate SameBefore(s: State, s': State) {
    && s'.locker.sessionState == s.locker.sessionState && s'.locker.credentials == s.locker.credentials
    && s'.failureTimer == s.failureTimer && s'.locker.failureCount == s.locker.failureCount
    && s'.tokenCalls == s.tokenCalls
  }

  lemma ThenAttemptRetry(s: State, s': State)
    requires SameBefore(s, s')
    ensures SameRetry(s, AttemptRequests(s'))
  {
    AttemptRetry(s');
  }

  lemma CompleteRetry(s: State, s': State, r: Request, response: ApiResponse)
    requires SameBefore(s, s')
    ensures SameRetry(s, Complete(s', r, response))
  {
    ThenAttemptRetry(s, s'.(locker := Completed(s'.locker, r, response)));
  }

  lemma RetriedRetry(s: State, s': State, r: Request, response: ApiResponse, now: Time)
    requires SameBefore(s, s')
    ensures SameRetry(s, Retry(s', r, response, now))
  {
    ThenAttemptRetry(s, s'.(locker := Retried(s'.locker, r, response, now)));
  }

  lemma ApiAnswerRetry(s: State, r: Request, response: ApiResponse, now: Time)
    ensures SameRetry(s, HandleApiResponse(s, r, response, now))
  {
    var s' := UpdateConnection(s, response.error, now);
    CompleteRetry(s, s', r, response);
    RetriedRetry(s, s', r, response, now);
  }

  lemma StatusAnswerRetry(s: State, e: ErrorCode, now: Time)
    requires s.statusChecks > 0
    ensures SameRetry(s, HandleStatusResponse(s, e, now))
  {
    ThenAttemptRetry(s, UpdateConnection(s.(statusChecks := s.statusChecks - 1), e, now));
  }

  lemma DelayedRetry(s: State, now: Time)
    requires EventQueue.CanDeliver(s.locker.delayed)
    ensures SameRetry(s, DeliverDelayed(s, now))
  {
    var l := s.locker.(delayed := EventQueue.Deliver(s.locker.delayed));
    ThenAttemptRetry(s, s.(locker := AddWaiting(l, s.locker.delayed.data[0].event, now)));
  }

  lemma CallRetry(s: State, r: Request, now: Time)
    ensures SameRetry(s, AddWaitingRequest(s, r, now))
  {
    ThenAttemptRetry(s, s.(locker := AddWaiting(s.locker, r, now)));
  }

  /** Actions that are neither new credentials, nor a token answer, nor the failure timer. */
  lemma OtherActionsRetry(w: World, a: Action)
    requires Enabled(w, a) && !a.SetCredentials? && !a.TokenAnswered?
    requires !a.FailureTimerExpires? && !a.FailureTimerFires?
    ensures SameRetry(w.s, Effect(w, a))
  {
    match a
    case Call(usesToken, timeoutSeconds) =>
      CallRetry(w.s, NewRequest(|w.submitted|, usesToken, timeoutSeconds, w.now), w.now);
    case ApiAnswered(r, response) => ApiAnswerRetry(w.s, r, response, w.now);
    case StatusAnswered(e) => StatusAnswerRetry(w.s, e, w.now);
    case RecheckTimerFires =>
      ThenAttemptRetry(w.s, w.s.(recheckTimer := w.s.recheckTimer.(ready := w.s.recheckTimer.ready - 1)));
    case Delayed(qa) => if qa.Delivers? { DelayedRetry(w.s, w.now); }
    case _ =>
  }

  /** A failed token request arms the timer whatever else happens. */
  lemma FailureArms(s: State, c: Credentials, response: TokenResponse, now: Time)
    ensures var s', e := TokenFailure(s, c, response, now), response.error;
      && s'.failureTimer
         == Arm(s.failureTimer, now + if IsInvalidCredentialsError(e) then CREDENTIAL_FAILURE_WAIT else FailureWait(e))
      && s'.tokenCalls == s.tokenCalls && s'.locker.credentials == s.locker.credentials
  {
  }

  /** A token of the current credentials ends the failure; any other changes nothing. */
  lemma SuccessRetry(s: State, c: Credentials, response: TokenResponse)
    requires s.locker.sessionState.CredentialsFailure?
    ensures var s' := TokenSuccess(s, c, response);
      && s'.failureTimer == s.failureTimer
      && (s.locker.credentials == Some(c) ==> s'.locker.sessionState.Running?)
      && (s.locker.credentials != Some(c) ==>
            s'.tokenCalls == s.tokenCalls && s'.locker.sessionState == s.locker.sessionState)
  {
    AttemptRetry(s.(locker := Obtained(s.locker, c, response)));
  }

  lemma OtherSuccessRetry(s: State, c: Credentials, response: TokenResponse)
    requires !s.locker.sessionState.CredentialsFailure?
    ensures !TokenSuccess(s, c, response).locker.sessionState.CredentialsFailure?
  {
    AttemptRetry(s.(locker := Obtained(s.locker, c, response)));
  }

  lemma TokenAnswerRetry(s: State, i: nat, response: TokenResponse, now: Time)
    requires i < |s.tokenCalls| && s.locker.tokenRequests > 0 && KeepsRetrying(s)
    ensures KeepsRetrying(HandleTokenResponse(s, i, response, now))
        <==> !LosesLastWakeUp(s, TokenAnswered(i, response))
  {
    var s' := UpdateConnection(TokenCallAnswered(s, i), response.error, now);
    var c := s.tokenCalls[i];
    if response.error != NoError { FailureArms(s', c, response, now); }
    else if s.locker.sessionState.CredentialsFailure? { SuccessRetry(s', c, response); }
    else { OtherSuccessRetry(s', c, response); }
  }

  /** When the failure timer fires during a failure, a token request is forced unless one is still
      unanswered: the pool is empty then. */
  lemma FailureTimerRetry(s: State, issued: set<(string, Credentials)>)
    requires s.failureTimer.ready > 0 && TokenPool.Pool(s, issued)
    ensures KeepsRetrying(HandleFailureTimeout(s))
  {
    var s' := s.(failureTimer := s.failureTimer.(ready := s.failureTimer.ready - 1));
    AttemptRetry(s');
    TokenPool.AttemptKeepsPool(s', issued);
    var t := AttemptRequests(s');
    RequestConservation.RequestNeededMovesNothing(t, true);
    if t.locker.sessionState.CredentialsFailure? && !WantsToken(t.locker) {
      assert t.tokenCalls != [];
    }
  }

  lemma CredentialsRetry(s: State, c: Credentials)
    requires KeepsRetrying(s)
    ensures KeepsRetrying(SetLoginCredentials(s, c))
  {
    AttemptRetry(s.(locker := SessionPool.SetCredentials(s.locker, c)));
  }

  /** The exact condition: from any reachable state that keeps retrying, an action leads to one that
      does not if and only if it is the late success described above. */
  lemma RetryingStopsOnlyOneWay(actions: seq<Action>, a: Action)
    requires Enabled(Run(actions), a) && KeepsRetrying(Run(actions).s)
    ensures KeepsRetrying(Effect(Run(actions), a)) <==> !LosesLastWakeUp(Run(actions).s, a)
  {
    var w := Run(actions);
    TokenPool.RunKeepsPool(actions);
    match a
    case TokenAnswered(i, response) => TokenAnswerRetry(w.s, i, response, w.now);
    case SetCredentials(c) => CredentialsRetry(w.s, c);
    case FailureTimerFires => FailureTimerRetry(w.s, w.issued);
    case FailureTimerExpires =>
    case _ => OtherActionsRetry(w, a);
  }

  ghost predicate CallsAreCurrent(s: State) {
    forall c | c in s.tokenCalls :: s.locker.credentials == Some(c)
  }

  /** Credentials are replaced only while no token request for the old ones is unanswered. */
  ghost predicate ReplacesWhenQuiet(w: World, a: Action) {
    a.SetCredentials? && w.s.locker.credentials != Some(a.c) ==> w.s.tokenCalls == []
  }

  ghost predicate AlwaysReplacesWhenQuiet(actions: seq<Action>) {
    forall n | 0 <= n < |actions| :: ReplacesWhenQuiet(Run(actions[..n]), actions[n])
  }

  lemma TokenAnswerKeepsCurrent(s: State, i: nat, response: TokenResponse, now: Time)
    requires i < |s.tokenCalls| && s.locker.tokenRequests > 0 && CallsAreCurrent(s)
    ensures CallsAreCurrent(HandleTokenResponse(s, i, response, now))
  {
    var s' := UpdateConnection(TokenCallAnswered(s, i), response.error, now);
    assert forall c | c in s'.tokenCalls :: c in s.tokenCalls;
    var c := s.tokenCalls[i];
    if response.error != NoError { FailureArms(s', c, response, now); }
    else {
      AttemptRetry(s'.(locker := Obtained(s'.locker, c, response)));
    }
  }

  lemma FailureTimerKeepsCurrent(s: State)
    requires s.failureTimer.ready > 0 && CallsAreCurrent(s)
    ensures CallsAreCurrent(HandleFailureTimeout(s))
  {
    var s' := s.(failureTimer := s.failureTimer.(ready := s.failureTimer.ready - 1));
    AttemptRetry(s');
    var t := AttemptRequests(s');
    RequestConservation.RequestNeededMovesNothing(t, true);
    if t.locker.credentials.Some? { WakeUps.RequestLoopEnds(t, t.locker.credentials.value); }
  }

  lemma CredentialsKeepCurrent(s: State, c: Credentials)
    requires CallsAreCurrent(s) && (s.locker.credentials != Some(c) ==> s.tokenCalls == [])
    ensures CallsAreCurrent(SetLoginCredentials(s, c))
  {
    AttemptRetry(s.(locker := SessionPool.SetCredentials(s.locker, c)));
  }

  lemma StepKeepsCurrent(w: World, a: Action)
    requires Enabled(w, a) && ReplacesWhenQuiet(w, a) && CallsAreCurrent(w.s)
    ensures CallsAreCurrent(Effect(w, a))
  {
    match a
    case TokenAnswered(i, response) => TokenAnswerKeepsCurrent(w.s, i, response, w.now);
    case SetCredentials(c) => CredentialsKeepCurrent(w.s, c);
    case FailureTimerFires => FailureTimerKeepsCurrent(w.s);
    case FailureTimerExpires =>
    case _ => OtherActionsRetry(w, a);
  }

  /** In such runs the source's comment holds in every state. */
  lemma {:induction false} RetryingNeverStops(actions: seq<Action>)
    requires AlwaysReplacesWhenQuiet(actions)
    ensures KeepsRetrying(Run(actions).s) && CallsAreCurrent(Run(actions).s)
  {
    if actions != [] {
      var n := |actions| - 1;
      forall m | 0 <= m < n ensures ReplacesWhenQuiet(Run(actions[..n][..m]), actions[..n][m]) {
        assert actions[..n][..m] == actions[..m];
      }
      RetryingNeverStops(actions[..n]);
      if Enabled(Run(actions[..n]), actions[n]) {
        RetryingStopsOnlyOneWay(actions[..n], actions[n]);
        StepKeepsCurrent(Run(actions[..n]), actions[n]);
      }
    }
  }

  const OLD: Credentials := Email("old", "p")
  const NEW: Credentials := Email("new", "p")

  /** Two requests that time out at once make a second token request start under the new
      credentials; it is refused, the timer fires while the first request is still unanswered, and
      that one then succeeds for the old credentials. */
  const LOST_RUN: seq<Action> := [
    SetCredentials(OLD), SetCredentials(NEW), Call(true, 0), Call(true, 0),
    Timeouts(Begins), Timeouts(Delivers), Timeouts(Delivers), Timeouts(Ends),
    TokenAnswered(1, REFUSAL),
    Elapse(60000), FailureTimerExpires, FailureTimerFires,
    TokenAnswered(0, TokenResponse(NoError, "", SessionToken("t", "", "", 1)))]

  const R0: Request := Request(0, true, 0, 0)
  const R1: Request := Request(1, true, 0, 0)

  /** The run after both credentials are set, after both calls, after their timeouts, and when the
      failure timer has fired. */
  function AfterCredentials(): World {
    Start().(s := Initial().(tokenCalls := [OLD], locker := Fresh().(
      sessionState := Initialized, changeCount := 1, credentials := Some(NEW), tokenRequests := 1)))
  }

  function AfterCalls(): World {
    var s := AfterCredentials().s;
    AfterCredentials().(submitted := [R0, R1], s := s.(tokenCalls := [OLD, NEW], locker := s.locker.(
      waitingSt := [R0, R1], tokenRequests := 2,
      timeouts := EventQueue.Queue([EventQueue.Entry(0, R0), EventQueue.Entry(0, R1)], true, None, 2, None))))
  }

  function AfterTimeouts(): World {
    var s := AfterCalls().s;
    AfterCalls().(finished := {R0, R1}, s := s.(locker := s.locker.(
      waitingSt := [], timeouts := EventQueue.Queue([], true, None, 1, None))))
  }

  function AfterFailure(): World {
    var s := AfterTimeouts().s;
    AfterTimeouts().(s := s.(tokenCalls := [OLD], failureTimer := Timer(Some(60000), 0),
      locker := s.locker.(tokenRequests := 1, connection := Connected, failureCount := 1, changeCount := 2,
                          sessionState := CredentialsFailure(None, CredentialsInvalid))))
  }

  function AfterTimer(): World {
    AfterFailure().(now := 60000, s := AfterFailure().s.(failureTimer := Timer(None, 0)))
  }

  lemma CredentialsStage()
    ensures Step(Step(Start(), LOST_RUN[0]), LOST_RUN[1]) == AfterCredentials()
  {
    var w := Step(Start(), LOST_RUN[0]);
    assert w.s == Initial().(tokenCalls := [OLD], locker := Fresh().(
      sessionState := Initialized, changeCount := 1, credentials := Some(OLD), tokenRequests := 1));
  }

  function AfterOneCall(): World {
    var s := AfterCredentials().s;
    AfterCredentials().(submitted := [R0], s := s.(locker := s.locker.(waitingSt := [R0],
      timeouts := EventQueue.Queue([EventQueue.Entry(0, R0)], true, None, 1, None))))
  }

  lemma FirstCallStage()
    ensures Step(AfterCredentials(), Call(true, 0)) == AfterOneCall()
  {
    var l := AddWaiting(AfterCredentials().s.locker, R0, 0);
    assert l == AfterOneCall().s.locker;
  }

  lemma SecondCallStage()
    ensures Step(AfterOneCall(), Call(true, 0)) == AfterCalls()
  {
    var l := AddWaiting(AfterOneCall().s.locker, R1, 0);
    assert l == AfterCalls().s.locker.(tokenRequests := 1);
    var s := AfterOneCall().s.(locker := l);
    assert RequestTokens(s, NEW) == AfterCalls().s;
  }

  function AfterOneTimeout(): World {
    var s := AfterCalls().s;
    AfterCalls().(finished := {R0}, s := s.(locker := s.locker.(waitingSt := [R1],
      timeouts := EventQueue.Queue([EventQueue.Entry(0, R1)], true, None, 1, Some(0)))))
  }

  lemma FirstTimeoutStage()
    ensures Step(Step(AfterCalls(), Timeouts(Begins)), Timeouts(Delivers)) == AfterOneTimeout()
  {
    var s := AfterCalls().s;
    var w := Step(AfterCalls(), Timeouts(Begins));
    assert w.s == s.(locker := s.locker.(timeouts := s.locker.timeouts.(posted := 1, pass := Some(0))));
  }

  lemma SecondTimeoutStage()
    ensures Step(Step(AfterOneTimeout(), Timeouts(Delivers)), Timeouts(Ends)) == AfterTimeouts()
  {
  }

  const REFUSAL: TokenResponse := TokenResponse(CredentialsInvalid, "", SessionToken("", "", "", 0))

  lemma RefusalStage()
    ensures var s := AfterTimeouts().s;
      UpdateConnection(TokenCallAnswered(s, 1), REFUSAL.error, 0)
      == s.(tokenCalls := [OLD], locker := s.locker.(tokenRequests := 1, connection := Connected))
  {
    assert TokenCallAnswered(AfterTimeouts().s, 1).tokenCalls == [OLD];
  }

  lemma FailureStage()
    ensures HandleTokenResponse(AfterTimeouts().s, 1, REFUSAL, 0) == AfterFailure().s
  {
    RefusalStage();
  }

  lemma FailureStep()
    ensures Step(AfterTimeouts(), TokenAnswered(1, REFUSAL)) == AfterFailure()
  {
    FailureStage();
  }

  lemma TimerStage()
    ensures Step(Step(Step(AfterFailure(), Elapse(60000)), FailureTimerExpires), FailureTimerFires) == AfterTimer()
  {
  }

  lemma LateSuccessStage()
    ensures Enabled(AfterTimer(), LOST_RUN[12]) && LosesLastWakeUp(AfterTimer().s, LOST_RUN[12])
    ensures !KeepsRetrying(Step(AfterTimer(), LOST_RUN[12]).s)
  {
    assert KeepsRetrying(AfterTimer().s);
    TokenAnswerRetry(AfterTimer().s, 0, LOST_RUN[12].token, 60000);
  }

  lemma UpToCredentials()
    ensures Run(LOST_RUN[..2]) == AfterCredentials()
  {
    RunSteps(LOST_RUN, 0);
    RunSteps(LOST_RUN, 1);
    assert LOST_RUN[..0] == [];
    CredentialsStage();
  }

  lemma UpToOneCall()
    ensures Run(LOST_RUN[..3]) == AfterOneCall()
  {
    UpToCredentials();
    RunSteps(LOST_RUN, 2);
    FirstCallStage();
    assert LOST_RUN[2] == Call(true, 0);
  }

  lemma UpToCalls()
    ensures Run(LOST_RUN[..4]) == AfterCalls()
  {
    UpToOneCall();
    RunSteps(LOST_RUN, 3);
    SecondCallStage();
  }

  lemma UpToOneTimeout()
    ensures Run(LOST_RUN[..6]) == AfterOneTimeout()
  {
    UpToCalls();
    RunStepsTwice(LOST_RUN, 4);
    FirstTimeoutStage();
  }

  lemma UpToTimeouts()
    ensures Run(LOST_RUN[..8]) == AfterTimeouts()
  {
    UpToOneTimeout();
    RunStepsTwice(LOST_RUN, 6);
    SecondTimeoutStage();
  }

  lemma UpToTimer()
    ensures Run(LOST_RUN[..12]) == AfterTimer()
  {
    UpToTimeouts();
    RunSteps(LOST_RUN, 8);
    RunSteps(LOST_RUN, 9);
    RunSteps(LOST_RUN, 10);
    RunSteps(LOST_RUN, 11);
    FailureStep();
    TimerStage();
  }

  /** Without the precondition the comment is false: this run ends in CredentialsFailure with no
      timer armed and no token request unanswered. */
  lemma RetryingCanStop()
    ensures !KeepsRetrying(Run(LOST_RUN).s)
  {
    UpToTimer();
    RunSteps(LOST_RUN, 12);
    assert LOST_RUN[..13] == LOST_RUN;
    LateSuccessStage();
  }
}
