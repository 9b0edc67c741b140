/** Liveness of the scheduler, as statements about every state between steps: waiting requests
    always have a wake-up pending, and after a credentials failure retrying never stops, except in
    one way that is stated exactly. */
module WakeUps {
  import opened Basics
  import opened SessionTypes
  import opened SessionPool
  import opened Scheduler
  import opened SchedulerRuns
  import EventQueue
  import RequestConservation
  import TokenPool

  predicate Pending(t: Timer) { t.armed.Some? || t.ready > 0 }

  /** Something outside will come back to the scheduler. */
  ghost predicate WakeUp(s: State) {
    || s.tokenCalls != []
    || (exists r :: r in s.locker.checkedOut && r in s.locker.inProgress)
    || Pending(s.failureTimer) || Pending(s.recheckTimer)
    || s.statusChecks > 0
  }

  predicate WaitsForToken(l: Locker) {
    l.credentials.Some? && !l.sessionState.CredentialsFailure? && l.waitingSt != []
  }

  /** How AttemptRequests leaves the scheduler: reconnecting, or with its loops exhausted. */
  predicate Settled(s: State) {
    || s.statusChecks > 0
    || (&& !CanCheckOut(s.locker) && s.locker.waitingNonSt == []
        && (s.locker.credentials.Some? && !s.locker.sessionState.CredentialsFailure? ==> !WantsToken(s.locker)))
  }

  lemma {:induction false} CheckOutLoopEnds(s: State)
    ensures !CanCheckOut(StartWithTokens(s).locker)
    decreases |s.locker.waitingSt|
  {
    if CanCheckOut(s.locker) { CheckOutLoopEnds(StartOneWithToken(s)); }
  }

  lemma {:induction false} TokenlessLoopEnds(s: State)
    ensures StartTokenless(s).locker.waitingNonSt == []
    decreases |s.locker.waitingNonSt|
  {
    if s.locker.waitingNonSt != [] { TokenlessLoopEnds(StartOneTokenless(s)); }
  }

  lemma {:induction false} CheckOutKeepsTokenless(s: State)
    ensures StartWithTokens(s).locker.waitingNonSt == s.locker.waitingNonSt
    decreases |s.locker.waitingSt|
  {
    if CanCheckOut(s.locker) { CheckOutKeepsTokenless(StartOneWithToken(s)); }
  }

  lemma {:induction false} RequestLoopEnds(s: State, c: Credentials)
    ensures !WantsToken(RequestTokens(s, c).locker)
    ensures var s' := RequestTokens(s, c); s' == s.(locker := s'.locker, tokenCalls := s'.tokenCalls)
    ensures s.tokenCalls <= RequestTokens(s, c).tokenCalls
    ensures forall x | x in RequestTokens(s, c).tokenCalls :: x in s.tokenCalls || x == c
    decreases MAX_TOKEN_REQUESTS - s.locker.tokenRequests
  {
    if WantsToken(s.locker) { RequestLoopEnds(RequestOneToken(s, c), c); }
  }

  lemma NeededSettles(s: State, force: bool)
    requires (!CanCheckOut(s.locker) && s.locker.waitingNonSt == []) || s.statusChecks > 0
    ensures Settled(RequestNeeded(s, force))
  {
    RequestConservation.RequestNeededMovesNothing(s, force);
    if s.locker.credentials.Some? { RequestLoopEnds(s, s.locker.credentials.value); }
  }

  lemma AttemptSettles(s: State)
    ensures Settled(AttemptRequests(s))
  {
    TokenlessLoopEnds(s);
    CheckOutLoopEnds(StartTokenless(s));
    CheckOutKeepsTokenless(StartTokenless(s));
    NeededSettles(StartWithTokens(StartTokenless(s)), false);
  }

  /** The heart of the matter: exhausted loops and an intact pool leave no waiting request without
      a wake-up. */
  lemma SettledIsAwake(s: State, issued: set<(string, Credentials)>)
    requires Settled(s) && TokenPool.Pool(s, issued) && RequestConservation.Typed(s.locker)
    ensures WaitsForToken(s.locker) ==> WakeUp(s)
  {
    var l := s.locker;
    if WaitsForToken(l) && s.tokenCalls == [] && s.statusChecks == 0 {
      assert |l.tokens| + |l.checkedOut| > 0;
      if l.checkedOut != map[] { var r :| r in l.checkedOut; }
    }
  }

  ghost predicate ConnectionWatched(s: State) {
    s.locker.waitingNonSt != [] ==> s.statusChecks > 0 || Pending(s.recheckTimer)
  }

  /** Every action either ends in exhausted loops, or arms a timer, or takes no wake-up away and
      adds no waiting request. */
  ghost predicate Quiet(s: State, s': State) {
    && (WakeUp(s) ==> WakeUp(s')) && (WaitsForToken(s'.locker) ==> WaitsForToken(s.locker))
    && (ConnectionWatched(s) ==> ConnectionWatched(s'))
  }

  lemma ApiAnswerSettles(s: State, r: Request, response: ApiResponse, now: Time)
    ensures Settled(HandleApiResponse(s, r, response, now))
  {
    var s' := UpdateConnection(s, response.error, now);
    AttemptSettles(s'.(locker := Completed(s'.locker, r, response)));
    AttemptSettles(s'.(locker := Retried(s'.locker, r, response, now)));
  }

  lemma TokenAnswerSettles(s: State, i: nat, response: TokenResponse, now: Time)
    requires i < |s.tokenCalls| && s.locker.tokenRequests > 0
    ensures var s' := HandleTokenResponse(s, i, response, now);
      Settled(s') || (Pending(s'.failureTimer) && (ConnectionWatched(s) ==> ConnectionWatched(s')))
  {
    var s' := UpdateConnection(TokenCallAnswered(s, i), response.error, now);
    if response.error == NoError { TokenSuccessSettles(s', s.tokenCalls[i], response); }
  }

  lemma TokenSuccessSettles(s: State, c: Credentials, response: TokenResponse)
    ensures Settled(TokenSuccess(s, c, response))
  {
    AttemptSettles(s.(locker := Obtained(s.locker, c, response)));
  }

  lemma FailureTimeoutSettles(s: State)
    requires s.failureTimer.ready > 0
    ensures Settled(HandleFailureTimeout(s))
  {
    var s' := s.(failureTimer := s.failureTimer.(ready := s.failureTimer.ready - 1));
    AttemptSettles(s');
    NeededSettles(AttemptRequests(s'), true);
  }

  lemma StatusAnswerSettles(s: State, e: ErrorCode, now: Time)
    requires s.statusChecks > 0
    ensures var s' := HandleStatusResponse(s, e, now); Settled(s') || Pending(s'.recheckTimer)
  {
    AttemptSettles(UpdateConnection(s.(statusChecks := s.statusChecks - 1), e, now));
  }

  lemma TimeoutIsQuiet(s: State)
    requires EventQueue.CanDeliver(s.locker.timeouts)
    ensures Quiet(s, DeliverTimeout(s))
  {
    var s' := DeliverTimeout(s);
    if exists r :: r in s.locker.checkedOut && r in s.locker.inProgress {
      var r :| r in s.locker.checkedOut && r in s.locker.inProgress;
      assert r in s'.locker.checkedOut && r in s'.locker.inProgress;
    }
  }

  lemma QueueTurnIsQuiet(w: World, a: Action)
    requires Enabled(w, a) && (a.Timeouts? || a.Delayed?) && a != Timeouts(Delivers) && a != Delayed(Delivers)
    ensures Quiet(w.s, Effect(w, a))
  {
    var s, s' := w.s, Effect(w, a);
    if exists r :: r in s.locker.checkedOut && r in s.locker.inProgress {
      var r :| r in s.locker.checkedOut && r in s.locker.inProgress;
      assert r in s'.locker.checkedOut && r in s'.locker.inProgress;
    }
  }

  lemma StepSettles(w: World, a: Action)
    requires Enabled(w, a)
    ensures var s' := Effect(w, a);
      || Settled(s') || Pending(s'.recheckTimer) || Quiet(w.s, s')
      || (Pending(s'.failureTimer) && (ConnectionWatched(w.s) ==> ConnectionWatched(s')))
  {
    match a
    case SetCredentials(c) => AttemptSettles(w.s.(locker := SessionPool.SetCredentials(w.s.locker, c)));
    case Call(usesToken, timeoutSeconds) =>
      var r := NewRequest(|w.submitted|, usesToken, timeoutSeconds, w.now);
      AttemptSettles(w.s.(locker := AddWaiting(w.s.locker, r, w.now)));
    case TokenAnswered(i, response) => TokenAnswerSettles(w.s, i, response, w.now);
    case ApiAnswered(r, response) => ApiAnswerSettles(w.s, r, response, w.now);
    case StatusAnswered(e) => StatusAnswerSettles(w.s, e, w.now);
    case FailureTimerFires => FailureTimeoutSettles(w.s);
    case RecheckTimerFires =>
      AttemptSettles(w.s.(recheckTimer := w.s.recheckTimer.(ready := w.s.recheckTimer.ready - 1)));
    case Timeouts(qa) => if qa.Delivers? { TimeoutIsQuiet(w.s); } else { QueueTurnIsQuiet(w, a); }
    case Delayed(qa) =>
      if qa.Delivers? {
        var l := w.s.locker.(delayed := EventQueue.Deliver(w.s.locker.delayed));
        AttemptSettles(w.s.(locker := AddWaiting(l, w.s.locker.delayed.data[0].event, w.now)));
      } else { QueueTurnIsQuiet(w, a); }
    case _ =>
  }

  /** No stranded work: in every reachable state, if requests wait for a session token, credentials
      are set and they are not known to be bad, then a wake-up is pending. */
  lemma {:induction false} NoStrandedWork(actions: seq<Action>)
    ensures var s := Run(actions).s; WaitsForToken(s.locker) ==> WakeUp(s)
  {
    if actions != [] {
      var n := |actions| - 1;
      NoStrandedWork(actions[..n]);
      var w := Run(actions[..n]);
      if Enabled(w, actions[n]) {
        StepSettles(w, actions[n]);
        TokenPool.RunKeepsPool(actions);
        RequestConservation.RunKeepsInv(actions);
        if Settled(Run(actions).s) { SettledIsAwake(Run(actions).s, Run(actions).issued); }
      }
    }
  }

  /** The same for requests that need no token: they wait only for the connection, and then a status
      check or its timer is pending. */
  lemma {:induction false} NoStrandedTokenless(actions: seq<Action>)
    ensures ConnectionWatched(Run(actions).s)
  {
    if actions != [] {
      var n := |actions| - 1;
      NoStrandedTokenless(actions[..n]);
      var w := Run(actions[..n]);
      if Enabled(w, actions[n]) {
        StepSettles(w, actions[n]);
      }
    }
  }
}
