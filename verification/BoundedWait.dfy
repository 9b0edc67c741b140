/** No request waits without bound: in every state, each request in a waiting queue has a live entry
    in the timeouts queue that is due within its timeout, and that queue is awake. */
module BoundedWait {
  import opened Basics
  import opened SessionTypes
  import opened SessionPool
  import opened Scheduler
  import opened SchedulerRuns
  import opened EventQueue
  import RequestConservation

  ghost predicate HasEntry(q: Queue<Request>, r: Request) {
    exists e :: e in q.data && e.event == r
  }

  /** An entry that outlives every permission to retry, or no permission any more. This is what
      makes it safe that a retry adds no timeout of its own. */
  ghost predicate Covered(q: Queue<Request>, now: Time, r: Request) {
    || (exists e :: e in q.data && e.event == r && 1000 * r.maxRetryTime <= e.due)
    || 1000 * r.maxRetryTime <= now
  }

  /** No entry is further away than its request's timeout. */
  ghost predicate Timely(data: seq<Entry<Request>>, now: Time) {
    forall e | e in data :: e.due <= now + 1000 * e.event.timeoutSeconds
  }

  ghost predicate Sound(q: Queue<Request>, now: Time) {
    && Valid(q) && q.running && (q.pass.Some? ==> q.pass.value <= now)
    && Timely(q.data, now)
  }

  predicate Waits(l: Locker, r: Request) { r in l.waitingSt || r in l.waitingNonSt }

  ghost predicate Bounded(l: Locker, now: Time, submitted: seq<Request>) {
    && Sound(l.timeouts, now)
    && (forall r | r in submitted :: Covered(l.timeouts, now, r))
    && (forall r | Waits(l, r) :: HasEntry(l.timeouts, r))
  }

  /** AttemptRequests only takes requests out of the waiting queues. */
  ghost predicate OnlySends(l: Locker, l': Locker) {
    && l'.timeouts == l.timeouts && l'.delayed == l.delayed
    && (forall r | Waits(l', r) :: Waits(l, r))
  }

  lemma {:induction false} TokenlessOnlySends(s: State)
    ensures OnlySends(s.locker, StartTokenless(s).locker)
    decreases |s.locker.waitingNonSt|
  {
    if s.locker.waitingNonSt != [] { TokenlessOnlySends(StartOneTokenless(s)); }
  }

  lemma {:induction false} WithTokensOnlySends(s: State)
    ensures OnlySends(s.locker, StartWithTokens(s).locker)
    decreases |s.locker.waitingSt|
  {
    if CanCheckOut(s.locker) { WithTokensOnlySends(StartOneWithToken(s)); }
  }

  lemma AttemptOnlySends(s: State)
    ensures OnlySends(s.locker, AttemptRequests(s).locker)
  {
    TokenlessOnlySends(s);
    WithTokensOnlySends(StartTokenless(s));
    RequestConservation.RequestNeededMovesNothing(StartWithTokens(StartTokenless(s)), false);
  }

  lemma SendsStayBounded(l: Locker, l': Locker, now: Time, submitted: seq<Request>)
    requires Bounded(l, now, submitted) && OnlySends(l, l')
    ensures Bounded(l', now, submitted)
  {
  }

  lemma ThenAttempt(s: State, s': State, now: Time, submitted: seq<Request>)
    requires Bounded(s.locker, now, submitted) && OnlySends(s.locker, s'.locker)
    ensures Bounded(AttemptRequests(s').locker, now, submitted)
  {
    SendsStayBounded(s.locker, s'.locker, now, submitted);
    AttemptOnlySends(s');
    SendsStayBounded(s'.locker, AttemptRequests(s').locker, now, submitted);
  }

  lemma AddKeepsEntries(q: Queue<Request>, due: Time, r: Request)
    ensures forall e | e in q.data :: e in Add(q, due, r).data
    ensures Entry(due, r) in Add(q, due, r).data
    ensures forall e | e in Add(q, due, r).data :: e in q.data || e == Entry(due, r)
  {
    forall e ensures e in Add(q, due, r).data <==> e in q.data || e == Entry(due, r) {
      InsertMember(q.data, Entry(due, r), e);
    }
  }

  lemma AddIsTimely(q: Queue<Request>, now: Time, r: Request)
    requires Timely(q.data, now)
    ensures Timely(Add(q, now + 1000 * r.timeoutSeconds, r).data, now)
  {
    AddKeepsEntries(q, now + 1000 * r.timeoutSeconds, r);
  }

  lemma AddIsSound(q: Queue<Request>, now: Time, r: Request)
    requires Sound(q, now)
    ensures Sound(Add(q, now + 1000 * r.timeoutSeconds, r), now)
  {
    AddKeepsValid(q, now + 1000 * r.timeoutSeconds, r);
    AddIsTimely(q, now, r);
  }

  lemma AddKeepsCovered(q: Queue<Request>, now: Time, due: Time, r: Request, x: Request)
    requires Covered(q, now, x)
    ensures Covered(Add(q, due, r), now, x)
  {
    AddKeepsEntries(q, due, r);
    if e :| e in q.data && e.event == x && 1000 * x.maxRetryTime <= e.due {
      assert e in Add(q, due, r).data;
    }
  }

  lemma AddKeepsHasEntry(q: Queue<Request>, due: Time, r: Request, x: Request)
    requires HasEntry(q, x) || x == r
    ensures HasEntry(Add(q, due, r), x)
  {
    AddKeepsEntries(q, due, r);
    if x == r { assert Entry(due, r) in Add(q, due, r).data; }
    else {
      var e :| e in q.data && e.event == x;
      assert e in Add(q, due, r).data;
    }
  }

  /** Queueing a request adds its entry. */
  lemma AddWaitingBounded(l: Locker, r: Request, now: Time, submitted: seq<Request>)
    requires Bounded(l, now, submitted)
    ensures Bounded(AddWaiting(l, r, now), now, submitted)
  {
    var due := now + 1000 * r.timeoutSeconds;
    var l' := AddWaiting(l, r, now);
    AddIsSound(l.timeouts, now, r);
    forall x | x in submitted ensures Covered(l'.timeouts, now, x) {
      AddKeepsCovered(l.timeouts, now, due, r, x);
    }
    forall x | Waits(l', x) ensures HasEntry(l'.timeouts, x) {
      AddKeepsHasEntry(l.timeouts, due, r, x);
    }
  }

  /** A new request is covered: its whole-second retry deadline is never later than its entry. */
  lemma NewIsCovered(l: Locker, r: Request, now: Time)
    requires r.maxRetryTime == now / 1000 + r.timeoutSeconds
    ensures Covered(AddWaiting(l, r, now).timeouts, now, r)
  {
    AddKeepsEntries(l.timeouts, now + 1000 * r.timeoutSeconds, r);
    assert Entry(now + 1000 * r.timeoutSeconds, r) in AddWaiting(l, r, now).timeouts.data;
  }

  /** A retry before the deadline still finds an entry. */
  lemma RetryHasEntry(q: Queue<Request>, now: Time, r: Request)
    requires Covered(q, now, r) && now / 1000 < r.maxRetryTime
    ensures HasEntry(q, r)
  {
  }

  lemma CallBounded(w: World, usesToken: bool, timeoutSeconds: nat)
    requires Bounded(w.s.locker, w.now, w.submitted)
    ensures var w' := Step(w, Call(usesToken, timeoutSeconds)); Bounded(w'.s.locker, w'.now, w'.submitted)
  {
    var r := NewRequest(|w.submitted|, usesToken, timeoutSeconds, w.now);
    var l := AddWaiting(w.s.locker, r, w.now);
    AddWaitingBounded(w.s.locker, r, w.now, w.submitted);
    NewIsCovered(w.s.locker, r, w.now);
    assert Bounded(l, w.now, w.submitted + [r]);
    ThenAttempt(w.s.(locker := l), w.s.(locker := l), w.now, w.submitted + [r]);
  }

  lemma CompleteBounded(s: State, r: Request, response: ApiResponse, now: Time, submitted: seq<Request>)
    requires Bounded(s.locker, now, submitted)
    ensures Bounded(Complete(s, r, response).locker, now, submitted)
  {
    ThenAttempt(s, s.(locker := Completed(s.locker, r, response)), now, submitted);
  }

  lemma RetryBounded(s: State, r: Request, response: ApiResponse, now: Time, submitted: seq<Request>)
    requires Bounded(s.locker, now, submitted) && r in submitted && now / 1000 < r.maxRetryTime
    ensures Bounded(Retry(s, r, response, now).locker, now, submitted)
  {
    var s' := s.(locker := Retried(s.locker, r, response, now));
    if IsInvalidSessionTokenError(response.error) { RequeuedBounded(s.locker, r, now, submitted); }
    else { DelayedAgainBounded(s.locker, r, response.newKey, now, submitted); }
    ThenAttempt(s', s', now, submitted);
  }

  lemma RequeuedBounded(l: Locker, r: Request, now: Time, submitted: seq<Request>)
    requires Bounded(l, now, submitted) && r in submitted && now / 1000 < r.maxRetryTime
    ensures Bounded(DropToken(InProgressToWaiting(l, r), r), now, submitted)
  {
    RetryHasEntry(l.timeouts, now, r);
  }

  lemma DelayedAgainBounded(l: Locker, r: Request, newKey: bool, now: Time, submitted: seq<Request>)
    requires Bounded(l, now, submitted)
    ensures Bounded(ReuseToken(InProgressToDelayed(l, r, 1, now), r, newKey), now, submitted)
  {
  }

  lemma ApiAnswerBounded(s: State, r: Request, response: ApiResponse, now: Time, submitted: seq<Request>)
    requires Bounded(s.locker, now, submitted) && r in submitted
    ensures Bounded(HandleApiResponse(s, r, response, now).locker, now, submitted)
  {
    var s' := UpdateConnection(s, response.error, now);
    SendsStayBounded(s.locker, s'.locker, now, submitted);
    if Retries(r, response, now) { RetryBounded(s', r, response, now, submitted); }
    else { CompleteBounded(s', r, response, now, submitted); }
  }

  lemma FailureOnlySends(s: State, c: Credentials, response: TokenResponse, now: Time)
    ensures OnlySends(s.locker, TokenFailure(s, c, response, now).locker)
  {
  }

  lemma TokenAnswerBounded(s: State, i: nat, response: TokenResponse, now: Time, submitted: seq<Request>)
    requires Bounded(s.locker, now, submitted) && i < |s.tokenCalls| && s.locker.tokenRequests > 0
    ensures Bounded(HandleTokenResponse(s, i, response, now).locker, now, submitted)
  {
    var s' := UpdateConnection(TokenCallAnswered(s, i), response.error, now);
    SendsStayBounded(s.locker, s'.locker, now, submitted);
    if response.error == NoError { TokenSuccessBounded(s', s.tokenCalls[i], response, now, submitted); }
    else {
      FailureOnlySends(s', s.tokenCalls[i], response, now);
      SendsStayBounded(s'.locker, TokenFailure(s', s.tokenCalls[i], response, now).locker, now, submitted);
    }
  }

  lemma TokenSuccessBounded(s: State, c: Credentials, response: TokenResponse, now: Time, submitted: seq<Request>)
    requires Bounded(s.locker, now, submitted)
    ensures Bounded(TokenSuccess(s, c, response).locker, now, submitted)
  {
    ThenAttempt(s, s.(locker := Obtained(s.locker, c, response)), now, submitted);
  }

  lemma StatusAnswerBounded(s: State, e: ErrorCode, now: Time, submitted: seq<Request>)
    requires Bounded(s.locker, now, submitted) && s.statusChecks > 0
    ensures Bounded(HandleStatusResponse(s, e, now).locker, now, submitted)
  {
    var s' := UpdateConnection(s.(statusChecks := s.statusChecks - 1), e, now);
    SendsStayBounded(s.locker, s'.locker, now, submitted);
    ThenAttempt(s, s', now, submitted);
  }

  lemma TimersBounded(s: State, now: Time, submitted: seq<Request>)
    requires Bounded(s.locker, now, submitted)
    ensures s.failureTimer.ready > 0 ==> Bounded(HandleFailureTimeout(s).locker, now, submitted)
    ensures s.recheckTimer.ready > 0 ==> Bounded(HandleRecheckTimeout(s).locker, now, submitted)
  {
    if s.failureTimer.ready > 0 {
      var s' := s.(failureTimer := s.failureTimer.(ready := s.failureTimer.ready - 1));
      ThenAttempt(s, s', now, submitted);
      RequestConservation.RequestNeededMovesNothing(AttemptRequests(s'), true);
    }
    if s.recheckTimer.ready > 0 {
      ThenAttempt(s, s.(recheckTimer := s.recheckTimer.(ready := s.recheckTimer.ready - 1)), now, submitted);
    }
  }

  lemma DelayedBounded(s: State, now: Time, submitted: seq<Request>)
    requires Bounded(s.locker, now, submitted) && CanDeliver(s.locker.delayed)
    ensures Bounded(DeliverDelayed(s, now).locker, now, submitted)
  {
    var l := s.locker.(delayed := Deliver(s.locker.delayed));
    AddWaitingBounded(l, s.locker.delayed.data[0].event, now, submitted);
    var l' := AddWaiting(l, s.locker.delayed.data[0].event, now);
    ThenAttempt(s.(locker := l'), s.(locker := l'), now, submitted);
  }

  lemma {:induction false} WithoutOnlyOne(queue: seq<Request>, r: Request)
    requires multiset(queue)[r] <= 1
    ensures r !in Without(queue, r)
  {
    if queue != [] {
      assert queue == [queue[0]] + queue[1..];
      if queue[0] == r { assert multiset(queue[1..])[r] == 0; }
      else { WithoutOnlyOne(queue[1..], r); }
    }
  }

  /** A timed-out request is gone from its waiting queue, since it was there only once. */
  lemma TimedOutIsGone(l: Locker, r: Request)
    requires RequestConservation.Typed(l)
    requires multiset(l.waitingSt)[r] <= 1 && multiset(l.waitingNonSt)[r] <= 1
    ensures !Waits(TimeOut(l, r), r)
    ensures forall x | Waits(TimeOut(l, r), x) :: Waits(l, x)
  {
    var queue := if r.usesToken then l.waitingSt else l.waitingNonSt;
    WithoutOnlyOne(queue, r);
    RequestConservation.WithoutElements(queue, r);
  }

  lemma DeliverKeepsEntries(q: Queue<Request>, now: Time, x: Request)
    requires CanDeliver(q) && q.pass.value <= now
    ensures Covered(q, now, x) ==> Covered(Deliver(q), now, x)
    ensures HasEntry(q, x) && x != q.data[0].event ==> HasEntry(Deliver(q), x)
  {
    assert forall e | e in q.data :: e == q.data[0] || e in Deliver(q).data;
  }

  lemma DeliverIsSound(q: Queue<Request>, now: Time)
    requires CanDeliver(q) && Sound(q, now)
    ensures Sound(Deliver(q), now)
  {
    assert forall e | e in Deliver(q).data :: e in q.data;
  }

  lemma TimeoutBounded(s: State, now: Time, submitted: seq<Request>, live: set<Request>)
    requires Bounded(s.locker, now, submitted) && CanDeliver(s.locker.timeouts)
    requires RequestConservation.Placed(s.locker, live)
    ensures Bounded(DeliverTimeout(s).locker, now, submitted)
  {
    var q, r := s.locker.timeouts, s.locker.timeouts.data[0].event;
    var l := s.locker.(timeouts := Deliver(q));
    RequestConservation.OnePlace(s.locker, live, r);
    TimedOutIsGone(l, r);
    DeliverIsSound(q, now);
    forall x | x in submitted ensures Covered(l.timeouts, now, x) { DeliverKeepsEntries(q, now, x); }
    forall x | Waits(TimeOut(l, r), x) ensures HasEntry(l.timeouts, x) { DeliverKeepsEntries(q, now, x); }
  }

  lemma QueueTurnBounded(w: World, a: Action)
    requires Bounded(w.s.locker, w.now, w.submitted) && Enabled(w, a)
    requires (a.Timeouts? && !a.timeoutsAction.Delivers?) || (a.Delayed? && !a.delayedAction.Delivers?)
    ensures Bounded(Effect(w, a).locker, w.now, w.submitted)
  {
    var l, l' := w.s.locker, Effect(w, a).locker;
    assert l'.timeouts.data == l.timeouts.data;
    forall r | r in w.submitted ensures Covered(l'.timeouts, w.now, r) {
      assert Covered(l.timeouts, w.now, r);
    }
    forall r | Waits(l', r) ensures HasEntry(l'.timeouts, r) { assert Waits(l, r); }
  }

  lemma ElapseBounded(l: Locker, now: Time, time: Time, submitted: seq<Request>)
    requires Bounded(l, now, submitted)
    ensures Bounded(l, now + time, submitted)
  {
  }

  lemma CredentialsBounded(s: State, c: Credentials, now: Time, submitted: seq<Request>)
    requires Bounded(s.locker, now, submitted)
    ensures Bounded(SetLoginCredentials(s, c).locker, now, submitted)
  {
    ThenAttempt(s, s.(locker := SessionPool.SetCredentials(s.locker, c)), now, submitted);
  }

  lemma StepKeepsBounded(w: World, a: Action)
    requires Bounded(w.s.locker, w.now, w.submitted) && RequestConservation.Inv(w)
    ensures var w' := Step(w, a); Bounded(w'.s.locker, w'.now, w'.submitted)
  {
    if Enabled(w, a) {
      match a
      case SetCredentials(c) => CredentialsBounded(w.s, c, w.now, w.submitted);
      case Call(usesToken, timeoutSeconds) => CallBounded(w, usesToken, timeoutSeconds);
      case TokenAnswered(i, response) => TokenAnswerBounded(w.s, i, response, w.now, w.submitted);
      case ApiAnswered(r, response) =>
        RequestConservation.InProgressIsLive(w, r);
        ApiAnswerBounded(w.s, r, response, w.now, w.submitted);
      case StatusAnswered(e) => StatusAnswerBounded(w.s, e, w.now, w.submitted);
      case FailureTimerFires => TimersBounded(w.s, w.now, w.submitted);
      case RecheckTimerFires => TimersBounded(w.s, w.now, w.submitted);
      case Timeouts(qa) =>
        if qa.Delivers? { TimeoutBounded(w.s, w.now, w.submitted, RequestConservation.Live(w)); }
        else { QueueTurnBounded(w, a); }
      case Delayed(qa) =>
        if qa.Delivers? { DelayedBounded(w.s, w.now, w.submitted); } else { QueueTurnBounded(w, a); }
      case Elapse(time) => ElapseBounded(w.s.locker, w.now, time, w.submitted);
      case _ =>
    }
  }

  lemma {:induction false} RunKeepsBounded(actions: seq<Action>)
    ensures var w := Run(actions); Bounded(w.s.locker, w.now, w.submitted)
  {
    if actions != [] {
      var n := |actions| - 1;
      RunKeepsBounded(actions[..n]);
      RequestConservation.RunKeepsInv(actions[..n]);
      StepKeepsBounded(Run(actions[..n]), actions[n]);
    }
  }

  /** No unbounded wait: a waiting request has a timeout entry due at most its timeout from now, and
      the queue's next look at its entries is posted, under way, or armed no later than that. */
  lemma NoUnboundedWait(actions: seq<Action>, r: Request)
    requires Waits(Run(actions).s.locker, r)
    ensures var w := Run(actions);
      var q := w.s.locker.timeouts;
      exists e :: e in q.data && e.event == r && e.due <= w.now + 1000 * r.timeoutSeconds
        && (q.posted > 0 || q.pass.Some? || (q.armed.Some? && q.armed.value <= e.due))
  {
    RunKeepsBounded(actions);
    var q := Run(actions).s.locker.timeouts;
    var e :| e in q.data && e.event == r;
    assert q.data[0].due <= e.due;
  }
}
