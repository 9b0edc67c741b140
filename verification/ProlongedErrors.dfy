/** When the scheduler advises of a prolonged error: after at least ten failed token requests since
    the last success, or at once when the account is locked. */
module ProlongedErrors {
  import opened Basics
  import opened SessionTypes
  import opened SessionPool
  import opened Scheduler
  import opened SchedulerRuns
  import RequestConservation
  import Retrying

  /** The count of failed token requests since the last success, before and after an action. */
  function Counted(w: World, a: Action, failures: nat): nat {
    if !Enabled(w, a) || !a.TokenAnswered? then failures
    else if a.token.error == NoError then 0
    else failures + 1
  }

  function FailuresSinceSuccess(actions: seq<Action>): nat {
    if actions == [] then 0
    else
      var n := |actions| - 1;
      Counted(Run(actions[..n]), actions[n], FailuresSinceSuccess(actions[..n]))
  }

  lemma SuccessState(s: State, c: Credentials, response: TokenResponse)
    ensures var l := TokenSuccess(s, c, response).locker;
      && l.failureCount == 0
      && (l.sessionState.Running? || l.sessionState == s.locker.sessionState)
  {
    Retrying.AttemptRetry(s.(locker := Obtained(s.locker, c, response)));
  }

  lemma FailureTimerState(s: State)
    requires s.failureTimer.ready > 0
    ensures var l := HandleFailureTimeout(s).locker;
      l.failureCount == s.locker.failureCount && l.sessionState == s.locker.sessionState
  {
    var s' := s.(failureTimer := s.failureTimer.(ready := s.failureTimer.ready - 1));
    Retrying.AttemptRetry(s');
    RequestConservation.RequestNeededMovesNothing(AttemptRequests(s'), true);
  }

  lemma CredentialsState(s: State, c: Credentials)
    ensures var l := SetLoginCredentials(s, c).locker;
      && l.failureCount == s.locker.failureCount
      && (l.sessionState.Initialized? || l.sessionState == s.locker.sessionState)
  {
    Retrying.AttemptRetry(s.(locker := SessionPool.SetCredentials(s.locker, c)));
  }

  /** Everything but a failed token request leaves the failure count or resets it, and enters no
      prolonged error. */
  lemma OtherActionsState(w: World, a: Action)
    requires Enabled(w, a) && (a.TokenAnswered? ==> a.token.error == NoError)
    ensures var l := Effect(w, a).locker;
      && l.failureCount == (if a.TokenAnswered? then 0 else w.s.locker.failureCount)
      && (l.sessionState.ProlongedError? ==> l.sessionState == w.s.locker.sessionState)
  {
    match a
    case SetCredentials(c) => CredentialsState(w.s, c);
    case TokenAnswered(i, response) =>
      SuccessState(UpdateConnection(TokenCallAnswered(w.s, i), response.error, w.now), w.s.tokenCalls[i], response);
    case FailureTimerFires => FailureTimerState(w.s);
    case FailureTimerExpires =>
    case _ => Retrying.OtherActionsRetry(w, a);
  }

  /** What a failed token request does to the count and the state. */
  predicate FailsTo(state: SessionState, failures: nat, state': SessionState, failures': nat, e: ErrorCode) {
    && failures' == (failures + 1) % UINT32
    && (state'.ProlongedError? && state' != state <==>
          && !IsInvalidCredentialsError(e) && state != ProlongedError(e)
          && (state.Initialized? || state.ProlongedError?)
          && (failures' >= 10 || e == AccountTemporarilyLocked))
  }

  lemma FailureState(s: State, c: Credentials, response: TokenResponse, now: Time)
    requires response.error != NoError
    ensures var l, l' := s.locker, TokenFailure(s, c, response, now).locker;
      FailsTo(l.sessionState, l.failureCount, l'.sessionState, l'.failureCount, response.error)
  {
  }

  lemma AnsweredKeepsState(s: State, i: nat, e: ErrorCode, now: Time)
    requires i < |s.tokenCalls| && s.locker.tokenRequests > 0
    ensures var l := UpdateConnection(TokenCallAnswered(s, i), e, now).locker;
      l.sessionState == s.locker.sessionState && l.failureCount == s.locker.failureCount
  {
  }

  lemma FailedAnswerState(w: World, i: nat, response: TokenResponse)
    requires Enabled(w, TokenAnswered(i, response)) && response.error != NoError
    ensures var l, l' := w.s.locker, Effect(w, TokenAnswered(i, response)).locker;
      FailsTo(l.sessionState, l.failureCount, l'.sessionState, l'.failureCount, response.error)
  {
    AnsweredKeepsState(w.s, i, response.error, w.now);
    var s := UpdateConnection(TokenCallAnswered(w.s, i), response.error, w.now);
    FailureState(s, w.s.tokenCalls[i], response, w.now);
  }

  lemma NextResidue(x: nat)
    ensures (x % UINT32 + 1) % UINT32 == (x + 1) % UINT32
  {
  }

  lemma FailureCounts(w: World, i: nat, response: TokenResponse, failures: nat)
    requires w.s.locker.failureCount == failures % UINT32
    requires Enabled(w, TokenAnswered(i, response)) && response.error != NoError
    ensures Effect(w, TokenAnswered(i, response)).locker.failureCount == (failures + 1) % UINT32
  {
    NextResidue(failures);
    FailedAnswerState(w, i, response);
  }

  lemma StepCounts(w: World, a: Action, failures: nat)
    requires w.s.locker.failureCount == failures % UINT32
    ensures Step(w, a).s.locker.failureCount == Counted(w, a, failures) % UINT32
  {
    if Enabled(w, a) {
      if a.TokenAnswered? && a.token.error != NoError { FailureCounts(w, a.i, a.token, failures); }
      else { OtherActionsState(w, a); }
    }
  }

  lemma {:induction false} CountIsFailures(actions: seq<Action>)
    ensures Run(actions).s.locker.failureCount == FailuresSinceSuccess(actions) % 0x1_0000_0000
  {
    if actions != [] {
      var n := |actions| - 1;
      CountIsFailures(actions[..n]);
      StepCounts(Run(actions[..n]), actions[n], FailuresSinceSuccess(actions[..n]));
    }
  }

  /** The step enters a prolonged error, or changes the error of one. */
  predicate Advises(w: World, a: Action) {
    && Enabled(w, a) && a.TokenAnswered? && a.token.error != NoError
    && a.token.error !in {CredentialsInvalid, ParametersInvalid, FacebookAuthenticationFailure}
    && w.s.locker.sessionState != ProlongedError(a.token.error)
    && (w.s.locker.sessionState.Initialized? || w.s.locker.sessionState.ProlongedError?)
  }

  /** What entering takes, in terms of the failures counted by the run itself. */
  predicate Entered(w: World, a: Action, failures: nat) {
    && Advises(w, a)
    && (failures % 0x1_0000_0000 >= 10 || a.token.error == AccountTemporarilyLocked)
  }

  lemma FailureEnters(w: World, i: nat, response: TokenResponse, failures: nat)
    requires w.s.locker.failureCount == failures % UINT32
    requires Enabled(w, TokenAnswered(i, response)) && response.error != NoError
    ensures var a := TokenAnswered(i, response);
      var before, after := w.s.locker.sessionState, Effect(w, a).locker.sessionState;
      (after.ProlongedError? && after != before) <==> Entered(w, a, failures + 1)
  {
    NextResidue(failures);
    FailedAnswerState(w, i, response);
  }

  lemma StepEnters(w: World, a: Action, failures: nat)
    requires w.s.locker.failureCount == failures % UINT32
    ensures var before, after := w.s.locker.sessionState, Step(w, a).s.locker.sessionState;
      (after.ProlongedError? && after != before) <==> Entered(w, a, Counted(w, a, failures))
  {
    if Enabled(w, a) {
      if a.TokenAnswered? && a.token.error != NoError { FailureEnters(w, a.i, a.token, failures); }
      else { OtherActionsState(w, a); }
    }
  }

  /** A prolonged error is entered by a step exactly when a token request fails for a reason other
      than the credentials, in a state that may advise it, with the threshold reached since the last
      success or the account locked. (The counter wraps at 2^32, which can only delay the advice.) */
  lemma ProlongedErrorEntered(actions: seq<Action>, a: Action)
    ensures var w := Run(actions);
      var before, after := w.s.locker.sessionState, Step(w, a).s.locker.sessionState;
      (after.ProlongedError? && after != before) <==> Entered(w, a, Counted(w, a, FailuresSinceSuccess(actions)))
  {
    CountIsFailures(actions);
    StepEnters(Run(actions), a, FailuresSinceSuccess(actions));
  }
}
