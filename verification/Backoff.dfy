/** The wait of the failure timer: always that of the last failed token request, and as long as that
    failure asks for. What the wait does not hold back is in module Throttling. */
module Backoff {
  import opened Basics
  import opened SessionTypes
  import opened SessionPool
  import opened Scheduler
  import opened SchedulerRuns
  import Retrying

  /** The failure that the action at `step` brought. */
  datatype FailedAt = FailedAt(step: nat, at: Time, error: ErrorCode)

  predicate Fails(w: World, a: Action) { Enabled(w, a) && a.TokenAnswered? && a.token.error != NoError }

  /** The last token request that failed in the run, and when its answer came. */
  function LastFailure(actions: seq<Action>): Option<FailedAt> {
    if actions == [] then None
    else
      var n := |actions| - 1;
      var w := Run(actions[..n]);
      if Fails(w, actions[n]) then Some(FailedAt(n, w.now, actions[n].token.error)) else LastFailure(actions[..n])
  }

  /** A minute for bad credentials, ten for a locked account, two and a half seconds otherwise. */
  function Wait(e: ErrorCode): Time {
    if e in {CredentialsInvalid, ParametersInvalid, FacebookAuthenticationFailure} then 60000
    else if e == AccountTemporarilyLocked then 600000
    else 2500
  }

  function WaitEnds(f: FailedAt): Time { f.at + Wait(f.error) }

  lemma FailureSetsWait(w: World, i: nat, response: TokenResponse)
    requires Fails(w, TokenAnswered(i, response))
    ensures Effect(w, TokenAnswered(i, response)).failureTimer
         == Arm(w.s.failureTimer, w.now + Wait(response.error))
  {
    var s := UpdateConnection(TokenCallAnswered(w.s, i), response.error, w.now);
    Retrying.FailureArms(s, w.s.tokenCalls[i], response, w.now);
  }

  lemma SuccessKeepsTimer(s: State, c: Credentials, response: TokenResponse)
    ensures TokenSuccess(s, c, response).failureTimer == s.failureTimer
  {
    Retrying.AttemptRetry(s.(locker := Obtained(s.locker, c, response)));
  }

  lemma {:induction false} RequestTokensKeepsTimer(s: State, c: Credentials)
    ensures RequestTokens(s, c).failureTimer == s.failureTimer
    decreases MAX_TOKEN_REQUESTS - s.locker.tokenRequests
  {
    if WantsToken(s.locker) { RequestTokensKeepsTimer(RequestOneToken(s, c), c); }
  }

  lemma FiringKeepsWait(s: State)
    requires s.failureTimer.ready > 0
    ensures HandleFailureTimeout(s).failureTimer == s.failureTimer.(ready := s.failureTimer.ready - 1)
  {
    var s' := s.(failureTimer := s.failureTimer.(ready := s.failureTimer.ready - 1));
    Retrying.AttemptRetry(s');
    var t := AttemptRequests(s');
    if t.locker.credentials.Some? { RequestTokensKeepsTimer(t, t.locker.credentials.value); }
  }

  /** No action but a failed token request arms the timer, and only its own two steps move it on. */
  lemma OthersKeepWait(w: World, a: Action)
    requires Enabled(w, a) && !Fails(w, a)
    ensures Effect(w, a).failureTimer
         == if a.FailureTimerExpires? then Expire(w.s.failureTimer)
            else if a.FailureTimerFires? then w.s.failureTimer.(ready := w.s.failureTimer.ready - 1)
            else w.s.failureTimer
  {
    match a
    case TokenAnswered(i, response) =>
      var s := UpdateConnection(TokenCallAnswered(w.s, i), response.error, w.now);
      SuccessKeepsTimer(s, w.s.tokenCalls[i], response);
    case SetCredentials(c) => Retrying.AttemptRetry(w.s.(locker := SessionPool.SetCredentials(w.s.locker, c)));
    case FailureTimerFires => FiringKeepsWait(w.s);
    case FailureTimerExpires =>
    case _ => Retrying.OtherActionsRetry(w, a);
  }

  /** In every run, a pending failure timer expires exactly the wait of the last failure after it: no
      success, new credentials, request or other timer moves it, and no earlier failure decides it. */
  lemma {:induction false} WaitsForLastFailure(actions: seq<Action>)
    ensures var armed, last := Run(actions).s.failureTimer.armed, LastFailure(actions);
      armed.Some? ==> last.Some? && armed.value == WaitEnds(last.value)
  {
    if actions != [] {
      var n := |actions| - 1;
      var w, a := Run(actions[..n]), actions[n];
      WaitsForLastFailure(actions[..n]);
      if Enabled(w, a) {
        if Fails(w, a) { FailureSetsWait(w, a.i, a.token); } else { OthersKeepWait(w, a); }
      }
    }
  }
}
