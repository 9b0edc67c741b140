/** Progress over runs: as long as the credentials are usable, successful answers and the passing of time
    are enough to bring every waiting request to the network. */
module Progress {
  import opened Basics
  import opened SessionTypes
  import opened SessionPool
  import opened Scheduler
  import opened SchedulerRuns
  import Dispatch
  import RequestConservation
  import Retrying
  import Throttling
  import TokenPool
  import WakeUps

  predicate Usable(l: Locker) { l.credentials.Some? && !l.sessionState.CredentialsFailure? }

  predicate NothingWaits(l: Locker) { l.waitingSt == [] && l.waitingNonSt == [] }

  /** Answers without an error, the clock and the two timers. No timeout is among them, no new request and
      no new credentials. */
  predicate Helps(a: Action) {
    match a
    case TokenAnswered(_, response) => response.error == NoError
    case ApiAnswered(_, response) => response.error == NoError
    case StatusAnswered(e) => e == NoError
    case Elapse(_) => true
    case FailureTimerExpires => true
    case FailureTimerFires => true
    case RecheckTimerExpires => true
    case RecheckTimerFires => true
    case _ => false
  }

  /** From `actions` on, `more` can happen step by step. */
  ghost predicate AllHelp(actions: seq<Action>, more: seq<Action>) {
    forall n | 0 <= n < |more| :: Helps(more[n]) && Enabled(Run(actions + more[..n]), more[n])
  }

  lemma HelpsAlone(actions: seq<Action>, a: Action)
    requires Helps(a) && Enabled(Run(actions), a)
    ensures AllHelp(actions, [a]) && Run(actions + [a]) == Step(Run(actions), a)
  {
    assert actions + [a][..0] == actions;
    RunGrows(actions, a);
  }

  lemma Joined(actions: seq<Action>, first: seq<Action>, rest: seq<Action>)
    ensures actions + (first + rest) == (actions + first) + rest
  {
  }

  lemma HelpsOn(actions: seq<Action>, first: seq<Action>, rest: seq<Action>)
    requires AllHelp(actions, first) && AllHelp(actions + first, rest)
    ensures AllHelp(actions, first + rest) && Run(actions + (first + rest)) == Run((actions + first) + rest)
  {
    Joined(actions, first, rest);
    forall n | 0 <= n < |first + rest|
      ensures Helps((first + rest)[n]) && Enabled(Run(actions + (first + rest)[..n]), (first + rest)[n]) {
      if n < |first| { assert (first + rest)[..n] == first[..n]; }
      else {
        assert (first + rest)[..n] == first + rest[..n - |first|];
        Joined(actions, first, rest[..n - |first|]);
      }
    }
  }

  // ---- after an attempt

  /** How AttemptRequests leaves a connected scheduler with usable credentials. */
  predicate Attempted(s: State) {
    Usable(s.locker) && s.locker.waitingNonSt == [] && !CanCheckOut(s.locker) && !WantsToken(s.locker)
  }

  lemma AttemptAttempts(s: State)
    requires Usable(s.locker) && !s.locker.connection.Unconnected?
    ensures Attempted(AttemptRequests(s))
  {
    var t := StartWithTokens(StartTokenless(s));
    WakeUps.TokenlessLoopEnds(s);
    WakeUps.CheckOutLoopEnds(StartTokenless(s));
    WakeUps.CheckOutKeepsTokenless(StartTokenless(s));
    RequestConservation.RequestNeededMovesNothing(t, false);
    Retrying.AttemptRetry(s);
    WakeUps.RequestLoopEnds(t, s.locker.credentials.value);
    Retrying.TokenlessRetry(s);
    Retrying.WithTokensRetry(StartTokenless(s));
  }

  /** A successful answer is followed by an attempt with the connection up. */
  predicate Answers(a: Action) { Helps(a) && (a.TokenAnswered? || a.ApiAnswered? || a.StatusAnswered?) }

  lemma AnswerPrepares(w: World, a: Action)
    requires Enabled(w, a) && Answers(a) && Usable(w.s.locker)
    ensures Dispatch.Prepared(w, a).Some? && Usable(Dispatch.Prepared(w, a).value.locker)
    ensures Dispatch.Prepared(w, a).value.locker.connection.Connected?
  {
  }

  lemma AnswerAttempts(actions: seq<Action>, a: Action)
    requires Enabled(Run(actions), a) && Answers(a) && Usable(Run(actions).s.locker)
    ensures AllHelp(actions, [a]) && Attempted(Run(actions + [a]).s)
    ensures Run(actions + [a]).s == AttemptRequests(Dispatch.Prepared(Run(actions), a).value)
  {
    HelpsAlone(actions, a);
    AnswerPrepares(Run(actions), a);
    Dispatch.EffectIsAttempt(Run(actions), a);
    AttemptAttempts(Dispatch.Prepared(Run(actions), a).value);
  }

  // ---- the next answer

  const GRANT: TokenResponse := TokenResponse(NoError, "", SessionToken("", "", "", 0))
  const FINE: ApiResponse := ApiResponse(NoError, false)

  /** A token request, or a request that holds a token. */
  predicate Chosen(s: State, a: Action) {
    a == TokenAnswered(0, GRANT) || (a.ApiAnswered? && a.api == FINE && a.r in s.locker.checkedOut)
  }

  lemma Choose(actions: seq<Action>) returns (a: Action)
    requires Attempted(Run(actions).s) && Run(actions).s.locker.waitingSt != []
    ensures Chosen(Run(actions).s, a) && Enabled(Run(actions), a)
  {
    var s := Run(actions).s;
    TokenPool.RunKeepsPool(actions);
    RequestConservation.RunKeepsInv(actions);
    if s.tokenCalls != [] {
      a := TokenAnswered(0, GRANT);
    } else {
      assert s.locker.tokens == [];
      var r :| r in s.locker.checkedOut;
      a := ApiAnswered(r, FINE);
    }
  }

  /** Token requests made with other credentials than those that are set. */
  function Stale(calls: seq<Credentials>, c: Option<Credentials>): nat {
    if calls == [] then 0 else (if Some(calls[0]) == c then 0 else 1) + Stale(calls[1..], c)
  }

  lemma {:induction false} StaleJoin(calls: seq<Credentials>, more: seq<Credentials>, c: Option<Credentials>)
    requires forall x | x in more :: Some(x) == c
    ensures Stale(calls + more, c) == Stale(calls, c)
  {
    if calls == [] {
      assert calls + more == more;
      if more != [] {
        StaleJoin([], more[1..], c);
        assert [] + more[1..] == more[1..] && more[0] in more;
      }
    } else {
      StaleJoin(calls[1..], more, c);
      assert (calls + more)[1..] == calls[1..] + more;
    }
  }

  /** The answer to an old token request: it is gone, and only current ones may follow. */
  lemma StaleAnswered(actions: seq<Action>)
    requires var w := Run(actions); Enabled(w, TokenAnswered(0, GRANT)) && Usable(w.s.locker)
    ensures var w := Run(actions);
      var s' := Effect(w, TokenAnswered(0, GRANT));
      Stale(s'.tokenCalls, s'.locker.credentials)
      == Stale(w.s.tokenCalls, w.s.locker.credentials)
         - if w.s.locker.credentials == Some(w.s.tokenCalls[0]) then 0 else 1
  {
    var w, a := Run(actions), TokenAnswered(0, GRANT);
    var p := Dispatch.Prepared(w, a).value;
    AnswerPrepares(w, a);
    Throttling.TokenRequestsStarted(actions, a);
    Dispatch.EffectIsAttempt(w, a);
    Retrying.AttemptRetry(p);
    ObtainedKeepsCredentials(w, a);
    var calls := w.s.tokenCalls;
    assert Throttling.Unanswered(w, a) == calls[1..];
    StaleJoin(calls[1..], Throttling.Calls(Throttling.Started(w, a), p.locker.credentials), w.s.locker.credentials);
  }

  lemma ObtainedKeepsCredentials(w: World, a: Action)
    requires Enabled(w, a) && Answers(a) && Usable(w.s.locker)
    ensures Dispatch.Prepared(w, a).value.locker.credentials == w.s.locker.credentials
  {
  }

  predicate MayPair(l: Locker) { l.sessionState.Running? && l.tokens != [] }

  lemma ObtainedMayPair(l: Locker, c: Credentials, response: TokenResponse)
    requires l.credentials == Some(c) && !l.sessionState.Uninitialized?
    ensures MayPair(Obtained(l, c, response))
  {
  }

  lemma AnsweredMayPair(l: Locker, r: Request, now: Time)
    requires r in l.checkedOut && r.usesToken && l.sessionState.Running?
    ensures MayPair(Dispatch.Answered(l, r, FINE, now))
  {
  }

  /** The chosen answer puts a token into the pool, unless it answers an old request. */
  lemma PutsToken(actions: seq<Action>, a: Action)
    requires Enabled(Run(actions), a) && Chosen(Run(actions).s, a) && Usable(Run(actions).s.locker)
    ensures var w := Run(actions);
      || MayPair(Dispatch.Prepared(w, a).value.locker)
      || (a.TokenAnswered? && w.s.locker.credentials != Some(w.s.tokenCalls[0]))
  {
    var w := Run(actions);
    TokenPool.RunKeepsPool(actions);
    if a.TokenAnswered? {
      var l := UpdateConnection(TokenCallAnswered(w.s, 0), NoError, w.now).locker;
      if w.s.locker.credentials == Some(w.s.tokenCalls[0]) { ObtainedMayPair(l, w.s.tokenCalls[0], GRANT); }
    } else {
      RequestConservation.RunKeepsInv(actions);
      AnsweredMayPair(UpdateConnection(w.s, NoError, w.now).locker, a.r, w.now);
    }
  }

  lemma NobodyArrives(actions: seq<Action>, a: Action)
    requires Enabled(Run(actions), a) && Chosen(Run(actions).s, a)
    ensures Dispatch.Prepared(Run(actions), a).value.locker.waitingSt == Run(actions).s.locker.waitingSt
  {
    RequestConservation.RunKeepsInv(actions);
    Dispatch.PreparedQueue(Run(actions), a);
    assert Dispatch.Arriving(Run(actions), a) == [];
  }

  lemma FewerWait(actions: seq<Action>, a: Action)
    requires Enabled(Run(actions), a) && Chosen(Run(actions).s, a) && Usable(Run(actions).s.locker)
    requires Run(actions).s.locker.waitingSt != []
    ensures var w := Run(actions);
      var before, after := |w.s.locker.waitingSt|, |Effect(w, a).locker.waitingSt|;
      after <= before && (MayPair(Dispatch.Prepared(w, a).value.locker) ==> after < before)
  {
    var w := Run(actions);
    RequestConservation.RunKeepsInv(actions);
    Dispatch.PreparedIsTidy(w, a);
    AnswerPrepares(w, a);
    Dispatch.EffectIsAttempt(w, a);
    Dispatch.AttemptSends(Dispatch.Prepared(w, a).value);
    NobodyArrives(actions, a);
  }

  /** One after the other, such answers bring all waiting requests to the network. */
  lemma {:induction false} AnswersServe(actions: seq<Action>) returns (more: seq<Action>)
    requires Attempted(Run(actions).s)
    ensures AllHelp(actions, more) && NothingWaits(Run(actions + more).s.locker)
    decreases |Run(actions).s.locker.waitingSt|, Stale(Run(actions).s.tokenCalls, Run(actions).s.locker.credentials)
  {
    if Run(actions).s.locker.waitingSt == [] {
      more := [];
      assert actions + more == actions;
    } else {
      var a := Choose(actions);
      AnswerAttempts(actions, a);
      HelpsAlone(actions, a);
      FewerWait(actions, a);
      PutsToken(actions, a);
      if a.TokenAnswered? { StaleAnswered(actions); }
      var rest := AnswersServe(actions + [a]);
      HelpsOn(actions, [a], rest);
      more := [a] + rest;
    }
  }

  // ---- the first attempt

  lemma TwoHelp(actions: seq<Action>, a: Action, b: Action)
    requires Helps(a) && Helps(b) && Enabled(Run(actions), a) && Enabled(Step(Run(actions), a), b)
    ensures AllHelp(actions, [a, b]) && Run(actions + [a, b]) == Step(Step(Run(actions), a), b)
  {
    HelpsAlone(actions, a);
    HelpsAlone(actions + [a], b);
    HelpsOn(actions, [a], [b]);
    assert [a] + [b] == [a, b];
  }

  /** An armed timer's handler gets its turn in time. */
  lemma RecheckComesDue(actions: seq<Action>) returns (more: seq<Action>)
    requires WakeUps.Pending(Run(actions).s.recheckTimer)
    ensures AllHelp(actions, more) && Enabled(Run(actions + more), RecheckTimerFires)
    ensures Run(actions + more).s.locker == Run(actions).s.locker
  {
    var w := Run(actions);
    if w.s.recheckTimer.ready > 0 {
      more := [];
      assert actions + more == actions;
    } else {
      more := [Elapse(w.s.recheckTimer.armed.value), RecheckTimerExpires];
      TwoHelp(actions, more[0], more[1]);
    }
  }

  lemma FailureComesDue(actions: seq<Action>) returns (more: seq<Action>)
    requires WakeUps.Pending(Run(actions).s.failureTimer)
    ensures AllHelp(actions, more) && Enabled(Run(actions + more), FailureTimerFires)
    ensures Run(actions + more).s.locker == Run(actions).s.locker
  {
    var w := Run(actions);
    if w.s.failureTimer.ready > 0 {
      more := [];
      assert actions + more == actions;
    } else {
      more := [Elapse(w.s.failureTimer.armed.value), FailureTimerExpires];
      TwoHelp(actions, more[0], more[1]);
    }
  }

  /** The handler attempts at once, or checks the status of the connection first. */
  predicate OnItsWay(s: State) { Attempted(s) || (Usable(s.locker) && s.statusChecks > 0) }

  lemma RecheckAttempts(s: State)
    requires s.recheckTimer.ready > 0 && Usable(s.locker)
    ensures OnItsWay(HandleRecheckTimeout(s))
  {
    var s' := s.(recheckTimer := s.recheckTimer.(ready := s.recheckTimer.ready - 1));
    if !s.locker.connection.Unconnected? { AttemptAttempts(s'); }
  }

  lemma FailureAttempts(s: State)
    requires s.failureTimer.ready > 0 && Usable(s.locker)
    ensures OnItsWay(HandleFailureTimeout(s))
  {
    var s' := s.(failureTimer := s.failureTimer.(ready := s.failureTimer.ready - 1));
    var t := AttemptRequests(s');
    if !s.locker.connection.Unconnected? { AttemptAttempts(s'); }
    RequestConservation.RequestNeededMovesNothing(t, true);
    WakeUps.RequestLoopEnds(t, s.locker.credentials.value);
  }

  /** If a timer is what the scheduler waits for. */
  lemma TimerAttempts(actions: seq<Action>) returns (more: seq<Action>)
    requires var s := Run(actions).s;
      Usable(s.locker) && (WakeUps.Pending(s.recheckTimer) || WakeUps.Pending(s.failureTimer))
    ensures AllHelp(actions, more) && OnItsWay(Run(actions + more).s)
  {
    var a := if WakeUps.Pending(Run(actions).s.recheckTimer) then RecheckTimerFires else FailureTimerFires;
    var first: seq<Action>;
    if a == RecheckTimerFires {
      first := RecheckComesDue(actions);
      RecheckAttempts(Run(actions + first).s);
    } else {
      first := FailureComesDue(actions);
      FailureAttempts(Run(actions + first).s);
    }
    HelpsAlone(actions + first, a);
    HelpsOn(actions, first, [a]);
    more := first + [a];
  }

  /** An answer that the scheduler waits for, if there is any. */
  lemma AnswerOrTimer(actions: seq<Action>) returns (a: Option<Action>)
    requires Usable(Run(actions).s.locker) && !NothingWaits(Run(actions).s.locker)
    ensures a.Some? ==> Answers(a.value) && Enabled(Run(actions), a.value)
    ensures a.None? ==> WakeUps.Pending(Run(actions).s.recheckTimer) || WakeUps.Pending(Run(actions).s.failureTimer)
  {
    var s := Run(actions).s;
    WakeUps.NoStrandedWork(actions);
    WakeUps.NoStrandedTokenless(actions);
    TokenPool.CounterAssertHolds(actions, 0, GRANT);
    if s.statusChecks > 0 {
      a := Some(StatusAnswered(NoError));
    } else if s.tokenCalls != [] {
      a := Some(TokenAnswered(0, GRANT));
    } else if s.locker.inProgress != {} {
      var r :| r in s.locker.inProgress;
      a := Some(ApiAnswered(r, FINE));
    } else {
      a := None;
    }
  }

  lemma StatusAttempts(actions: seq<Action>) returns (more: seq<Action>)
    requires OnItsWay(Run(actions).s)
    ensures AllHelp(actions, more) && Attempted(Run(actions + more).s)
  {
    if Attempted(Run(actions).s) {
      more := [];
      assert actions + more == actions;
    } else {
      more := [StatusAnswered(NoError)];
      AnswerAttempts(actions, more[0]);
    }
  }

  lemma FirstAttempt(actions: seq<Action>) returns (more: seq<Action>)
    requires Usable(Run(actions).s.locker) && !NothingWaits(Run(actions).s.locker)
    ensures AllHelp(actions, more) && Attempted(Run(actions + more).s)
  {
    var a := AnswerOrTimer(actions);
    if a.Some? {
      more := [a.value];
      AnswerAttempts(actions, a.value);
    } else {
      var first := TimerAttempts(actions);
      var rest := StatusAttempts(actions + first);
      HelpsOn(actions, first, rest);
      more := first + rest;
    }
  }

  /** From every reachable state with usable credentials a run goes on, by successful answers and the
      passing of time alone, to a state in which no request waits. */
  lemma AllWaitingServed(actions: seq<Action>) returns (more: seq<Action>)
    requires Usable(Run(actions).s.locker)
    ensures AllHelp(actions, more) && NothingWaits(Run(actions + more).s.locker)
  {
    if NothingWaits(Run(actions).s.locker) {
      more := [];
      assert actions + more == actions;
    } else {
      var first := FirstAttempt(actions);
      var rest := AnswersServe(actions + first);
      HelpsOn(actions, first, rest);
      more := first + rest;
    }
  }
}
