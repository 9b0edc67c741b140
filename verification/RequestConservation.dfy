/** Where every request is: in every run, each submitted and unfinished request sits in exactly one
    of the two waiting queues, the in-progress set and the delayed queue. */
module RequestConservation {
  import opened Basics
  import opened SessionTypes
  import opened SessionPool
  import opened Scheduler
  import opened SchedulerRuns
  import EventQueue

  /** All places a request can be in, with multiplicity. */
  ghost function Places(l: Locker): multiset<Request> {
    multiset(l.waitingSt) + multiset(l.waitingNonSt) + multiset(l.inProgress)
    + multiset(EventQueue.Events(l.delayed.data))
  }

  ghost predicate Typed(l: Locker) {
    && (forall r | r in l.waitingSt :: r.usesToken)
    && (forall r | r in l.waitingNonSt :: !r.usesToken)
    && (forall e | e in l.delayed.data :: e.event.usesToken)
    && (forall r | r in l.checkedOut :: r in l.inProgress && r.usesToken)
  }

  ghost predicate Placed(l: Locker, live: set<Request>) {
    Places(l) == multiset(live) && Typed(l)
  }

  lemma OnePlace(l: Locker, live: set<Request>, r: Request)
    requires Placed(l, live)
    ensures Places(l)[r] == if r in live then 1 else 0
  {
  }

  lemma TokenlessStarts(s: State, live: set<Request>)
    requires Placed(s.locker, live) && s.locker.waitingNonSt != []
    ensures Placed(StartOneTokenless(s).locker, live)
  {
    var l := s.locker;
    var r := l.waitingNonSt[0];
    OnePlace(l, live, r);
    assert l.waitingNonSt == [r] + l.waitingNonSt[1..];
  }

  lemma TokenStarts(s: State, live: set<Request>)
    requires Placed(s.locker, live) && CanCheckOut(s.locker)
    ensures Placed(StartOneWithToken(s).locker, live)
  {
    var l := s.locker;
    var r := l.waitingSt[0];
    OnePlace(l, live, r);
    assert l.waitingSt == [r] + l.waitingSt[1..];
  }

  lemma {:induction false} AllTokenlessStart(s: State, live: set<Request>)
    requires Placed(s.locker, live)
    ensures Placed(StartTokenless(s).locker, live)
    decreases |s.locker.waitingNonSt|
  {
    if s.locker.waitingNonSt != [] {
      TokenlessStarts(s, live);
      AllTokenlessStart(StartOneTokenless(s), live);
    }
  }

  lemma {:induction false} AllWithTokensStart(s: State, live: set<Request>)
    requires Placed(s.locker, live)
    ensures Placed(StartWithTokens(s).locker, live)
    decreases |s.locker.waitingSt|
  {
    if CanCheckOut(s.locker) {
      TokenStarts(s, live);
      AllWithTokensStart(StartOneWithToken(s), live);
    }
  }

  lemma {:induction false} TokenRequestsMoveNothing(s: State, c: Credentials)
    ensures var l := RequestTokens(s, c).locker; l == s.locker.(tokenRequests := l.tokenRequests)
    decreases MAX_TOKEN_REQUESTS - s.locker.tokenRequests
  {
    if WantsToken(s.locker) { TokenRequestsMoveNothing(RequestOneToken(s, c), c); }
  }

  lemma RequestNeededMovesNothing(s: State, force: bool)
    ensures var l := RequestNeeded(s, force).locker; l == s.locker.(tokenRequests := l.tokenRequests)
  {
    if s.locker.credentials.Some? { TokenRequestsMoveNothing(s, s.locker.credentials.value); }
  }

  lemma AttemptKeepsPlaced(s: State, live: set<Request>)
    requires Placed(s.locker, live)
    ensures Placed(AttemptRequests(s).locker, live)
  {
    AllTokenlessStart(s, live);
    AllWithTokensStart(StartTokenless(s), live);
    RequestNeededMovesNothing(StartWithTokens(StartTokenless(s)), false);
  }

  lemma SetGrows(live: set<Request>, r: Request)
    requires r !in live
    ensures multiset(live + {r}) == multiset(live) + multiset{r}
  {
  }

  lemma SetShrinks(live: set<Request>, r: Request)
    requires r in live
    ensures multiset(live) == multiset(live - {r}) + multiset{r}
  {
  }

  /** One request left the places, and it is the one that left `live`. */
  lemma PlacesShrink(l: Locker, l': Locker, live: set<Request>, r: Request)
    requires Places(l) == multiset(live) && r in live && Places(l) == Places(l') + multiset{r}
    ensures Places(l') == multiset(live - {r})
  {
    forall x ensures Places(l')[x] == multiset(live - {r})[x] {
      assert Places(l)[x] == Places(l')[x] + multiset{r}[x];
    }
  }

  lemma EnqueuePlaces(l: Locker, r: Request, live: set<Request>)
    requires Placed(l, live) && r !in live
    ensures Placed(Enqueue(l, r), live + {r})
  {
    SetGrows(live, r);
  }

  lemma AddWaitingPlaces(l: Locker, r: Request, now: Time, live: set<Request>)
    requires Placed(l, live) && r !in live
    ensures Placed(AddWaiting(l, r, now), live + {r})
  {
    EnqueuePlaces(l.(timeouts := EventQueue.Add(l.timeouts, now + 1000 * r.timeoutSeconds, r)), r, live);
  }

  /** A request leaves the in-progress set together with its token. */
  lemma RemoveInProgressPlaces(l: Locker, r: Request, live: set<Request>)
    requires Placed(l, live) && r in l.inProgress
    ensures Placed(RemoveInProgress(DropToken(l, r), r), live - {r}) && r in live
  {
    OnePlace(l, live, r);
    SetShrinks(l.inProgress, r);
    PlacesShrink(l, RemoveInProgress(DropToken(l, r), r), live, r);
  }

  lemma {:induction false} EventsInsert(data: seq<EventQueue.Entry<Request>>, e: EventQueue.Entry<Request>)
    ensures multiset(EventQueue.Events(EventQueue.Insert(data, e)))
         == multiset(EventQueue.Events(data)) + multiset{e.event}
  {
    var all, inserted := EventQueue.Events(data), EventQueue.Insert(data, e);
    if data == [] || e.due < data[0].due {
      assert EventQueue.Events(inserted) == [e.event] + all;
    } else {
      EventsInsert(data[1..], e);
      assert all == [data[0].event] + EventQueue.Events(data[1..]);
      assert EventQueue.Events(inserted) == [data[0].event] + EventQueue.Events(inserted[1..]);
    }
  }

  lemma DelayPlaces(l: Locker, r: Request, due: Time, live: set<Request>)
    requires Placed(l, live) && r !in live && r.usesToken
    ensures Placed(l.(delayed := EventQueue.Add(l.delayed, due, r)), live + {r})
  {
    SetGrows(live, r);
    EventsInsert(l.delayed.data, EventQueue.Entry(due, r));
    var l' := l.(delayed := EventQueue.Add(l.delayed, due, r));
    forall x | x in l'.delayed.data ensures x in l.delayed.data || x == EventQueue.Entry(due, r) {
      EventQueue.InsertMember(l.delayed.data, EventQueue.Entry(due, r), x);
    }
  }

  lemma DelayedFrontLeaves(l: Locker, live: set<Request>)
    requires Placed(l, live) && EventQueue.CanDeliver(l.delayed)
    ensures var r := l.delayed.data[0].event;
      Placed(l.(delayed := EventQueue.Deliver(l.delayed)), live - {r}) && r in live
  {
    var r := l.delayed.data[0].event;
    var all := EventQueue.Events(l.delayed.data);
    assert all == [r] + EventQueue.Events(l.delayed.data[1..]);
    OnePlace(l, live, r);
    PlacesShrink(l, l.(delayed := EventQueue.Deliver(l.delayed)), live, r);
  }

  lemma {:induction false} WithoutRemovesOne(queue: seq<Request>, r: Request)
    ensures multiset(Without(queue, r)) == multiset(queue) - multiset{r}
  {
    if queue != [] {
      assert queue == [queue[0]] + queue[1..];
      WithoutRemovesOne(queue[1..], r);
    }
  }

  lemma {:induction false} WithoutElements(queue: seq<Request>, r: Request)
    ensures forall x | x in Without(queue, r) :: x in queue
  {
    if queue != [] && queue[0] != r { WithoutElements(queue[1..], r); }
  }

  lemma TimedOutStaysTyped(l: Locker, r: Request)
    requires Typed(l)
    ensures Typed(TimeOut(l, r))
  {
    WithoutElements(l.waitingSt, r);
    WithoutElements(l.waitingNonSt, r);
  }

  lemma TimeOutTakesOne(l: Locker, r: Request)
    requires var queue := if r.usesToken then l.waitingSt else l.waitingNonSt;
      multiset(queue) == multiset(Without(queue, r)) + multiset{r}
    ensures Places(l) == Places(TimeOut(l, r)) + multiset{r}
  {
  }

  lemma TimeOutPlaces(l: Locker, r: Request, live: set<Request>)
    requires Placed(l, live) && (r in l.waitingSt || r in l.waitingNonSt)
    ensures Placed(TimeOut(l, r), live - {r}) && r in live
  {
    TimedOutStaysTyped(l, r);
    OnePlace(l, live, r);
    WithoutRemovesOne(if r.usesToken then l.waitingSt else l.waitingNonSt, r);
    TimeOutTakesOne(l, r);
    PlacesShrink(l, TimeOut(l, r), live, r);
  }

  lemma {:induction false} WithoutNothing(queue: seq<Request>, r: Request)
    requires r !in queue
    ensures Without(queue, r) == queue
  {
    if queue != [] { WithoutNothing(queue[1..], r); }
  }

  ghost function Live(w: World): set<Request> {
    (set r | r in w.submitted) - w.finished
  }

  ghost predicate Inv(w: World) {
    && (forall i | 0 <= i < |w.submitted| :: w.submitted[i].id == i)
    && w.finished <= (set r | r in w.submitted)
    && Placed(w.s.locker, Live(w))
  }

  lemma ReuseDropsToken(l: Locker, r: Request, newKey: bool, live: set<Request>)
    requires Placed(RemoveInProgress(DropToken(l, r), r), live - {r}) && Typed(l)
    ensures Placed(ReuseToken(RemoveInProgress(l, r), r, newKey), live - {r})
  {
  }

  lemma CompletePlaces(s: State, r: Request, response: ApiResponse, live: set<Request>)
    requires Placed(s.locker, live) && r in s.locker.inProgress
    ensures Placed(Complete(s, r, response).locker, live - {r})
  {
    var l := RemoveInProgress(s.locker, r);
    RemoveInProgressPlaces(s.locker, r, live);
    ReuseDropsToken(s.locker, r, response.newKey, live);
    var l' := if IsInvalidSessionTokenError(response.error) then DropToken(l, r)
              else ReuseToken(l, r, response.newKey);
    AttemptKeepsPlaced(s.(locker := l'), live - {r});
  }

  lemma RetryPlaces(s: State, r: Request, response: ApiResponse, now: Time, live: set<Request>)
    requires Placed(s.locker, live) && r in s.locker.inProgress && r.usesToken
    ensures Placed(Retry(s, r, response, now).locker, live)
  {
    RemoveInProgressPlaces(s.locker, r, live);
    var out := RemoveInProgress(DropToken(s.locker, r), r);
    assert live - {r} + {r} == live;
    if IsInvalidSessionTokenError(response.error) {
      EnqueuePlaces(out, r, live - {r});
      var l := DropToken(InProgressToWaiting(s.locker, r), r);
      assert l == Enqueue(out, r);
      AttemptKeepsPlaced(s.(locker := l), live);
    } else {
      DelayPlaces(out, r, now + 1000, live - {r});
      var l := ReuseToken(InProgressToDelayed(s.locker, r, 1, now), r, response.newKey);
      AttemptKeepsPlaced(s.(locker := l), live);
    }
  }

  lemma UpdateConnectionPlaces(s: State, e: ErrorCode, now: Time, live: set<Request>)
    requires Placed(s.locker, live)
    ensures Placed(UpdateConnection(s, e, now).locker, live)
  {
    SamePlacesStayPlaced(s.locker, UpdateConnection(s, e, now).locker, live);
  }

  lemma ApiAnswerPlaces(w: World, r: Request, response: ApiResponse)
    requires Inv(w) && r in w.s.locker.inProgress
    ensures Inv(Step(w, ApiAnswered(r, response)))
  {
    var s := UpdateConnection(w.s, response.error, w.now);
    UpdateConnectionPlaces(w.s, response.error, w.now, Live(w));
    if Retries(r, response, w.now) {
      RetryPlaces(s, r, response, w.now, Live(w));
      assert Live(Step(w, ApiAnswered(r, response))) == Live(w);
    } else {
      InProgressIsLive(w, r);
      CompletePlaces(s, r, response, Live(w));
      assert Live(Step(w, ApiAnswered(r, response))) == Live(w) - {r};
    }
  }

  lemma InProgressIsLive(w: World, r: Request)
    requires Inv(w) && r in w.s.locker.inProgress
    ensures r in w.submitted && r !in w.finished
  {
    OnePlace(w.s.locker, Live(w), r);
  }

  lemma CallPlaces(w: World, usesToken: bool, timeoutSeconds: nat)
    requires Inv(w)
    ensures Inv(Step(w, Call(usesToken, timeoutSeconds)))
  {
    var r := NewRequest(|w.submitted|, usesToken, timeoutSeconds, w.now);
    var w' := Step(w, Call(usesToken, timeoutSeconds));
    assert r !in w.submitted;
    assert Live(w') == Live(w) + {r};
    AddWaitingPlaces(w.s.locker, r, w.now, Live(w));
    AttemptKeepsPlaced(w.s.(locker := AddWaiting(w.s.locker, r, w.now)), Live(w'));
  }

  /** The timeout of a request that waits no longer changes nothing else. */
  lemma StaleTimeoutPlaces(l: Locker, r: Request, live: set<Request>)
    requires Placed(l, live) && r !in l.waitingSt && r !in l.waitingNonSt
    ensures Placed(TimeOut(l, r), live)
  {
    WithoutNothing(l.waitingSt, r);
    WithoutNothing(l.waitingNonSt, r);
  }

  lemma TimeoutDeliveryPlaces(w: World)
    requires Inv(w) && EventQueue.CanDeliver(w.s.locker.timeouts)
    ensures Inv(Step(w, Timeouts(Delivers)))
  {
    var l, w' := w.s.locker, Step(w, Timeouts(Delivers));
    var r := l.timeouts.data[0].event;
    var l' := l.(timeouts := EventQueue.Deliver(l.timeouts));
    assert Places(l') == Places(l) && Placed(l', Live(w));
    if r in l.waitingSt || r in l.waitingNonSt {
      TimeOutPlaces(l', r, Live(w));
      assert Live(w') == Live(w) - {r};
    } else {
      StaleTimeoutPlaces(l', r, Live(w));
      assert Live(w') == Live(w);
    }
  }

  lemma DelayedDeliveryPlaces(s: State, now: Time, live: set<Request>)
    requires Placed(s.locker, live) && EventQueue.CanDeliver(s.locker.delayed)
    ensures Placed(DeliverDelayed(s, now).locker, live)
  {
    var r := s.locker.delayed.data[0].event;
    DelayedFrontLeaves(s.locker, live);
    var l := s.locker.(delayed := EventQueue.Deliver(s.locker.delayed));
    AddWaitingPlaces(l, r, now, live - {r});
    assert live - {r} + {r} == live;
    AttemptKeepsPlaced(s.(locker := AddWaiting(l, r, now)), live);
  }

  /** The same requests in the same places, perhaps with fewer tokens checked out. */
  ghost predicate SamePlaces(l: Locker, l': Locker) {
    && l'.waitingSt == l.waitingSt && l'.waitingNonSt == l.waitingNonSt
    && l'.inProgress == l.inProgress && l'.delayed.data == l.delayed.data
    && l'.checkedOut.Keys <= l.checkedOut.Keys
  }

  lemma SamePlacesStayPlaced(l: Locker, l': Locker, live: set<Request>)
    requires Placed(l, live) && SamePlaces(l, l')
    ensures Placed(l', live)
  {
    assert forall r | r in l'.checkedOut :: r in l.checkedOut;
  }

  lemma SamePlacesThenAttempt(s: State, s': State, live: set<Request>)
    requires Placed(s.locker, live) && SamePlaces(s.locker, s'.locker)
    ensures Placed(AttemptRequests(s').locker, live)
  {
    SamePlacesStayPlaced(s.locker, s'.locker, live);
    AttemptKeepsPlaced(s', live);
  }

  lemma TokenSuccessPlaces(s: State, c: Credentials, response: TokenResponse, live: set<Request>)
    requires Placed(s.locker, live)
    ensures Placed(TokenSuccess(s, c, response).locker, live)
  {
    var l := s.locker.(failureCount := 0);
    var added := AddToken(l, response.token, c);
    var running := SessionState.Running(response.token.id, response.token.pkey);
    SamePlacesThenAttempt(s, s.(locker := added), live);
    SamePlacesThenAttempt(s, s.(locker := ChangeState(added, running)), live);
  }

  lemma TokenFailurePlaces(s: State, c: Credentials, response: TokenResponse, now: Time, live: set<Request>)
    requires Placed(s.locker, live)
    ensures Placed(TokenFailure(s, c, response, now).locker, live)
  {
    SamePlacesStayPlaced(s.locker, TokenFailure(s, c, response, now).locker, live);
  }

  lemma TokenAnswerPlaces(s: State, i: nat, response: TokenResponse, now: Time, live: set<Request>)
    requires Placed(s.locker, live) && i < |s.tokenCalls| && s.locker.tokenRequests > 0
    ensures Placed(HandleTokenResponse(s, i, response, now).locker, live)
  {
    var s' := UpdateConnection(TokenCallAnswered(s, i), response.error, now);
    SamePlacesStayPlaced(s.locker, s'.locker, live);
    if response.error == NoError { TokenSuccessPlaces(s', s.tokenCalls[i], response, live); }
    else { TokenFailurePlaces(s', s.tokenCalls[i], response, now, live); }
  }

  lemma StatusAnswerPlaces(s: State, e: ErrorCode, now: Time, live: set<Request>)
    requires Placed(s.locker, live) && s.statusChecks > 0
    ensures Placed(HandleStatusResponse(s, e, now).locker, live)
  {
    var s' := UpdateConnection(s.(statusChecks := s.statusChecks - 1), e, now);
    SamePlacesStayPlaced(s.locker, s'.locker, live);
    SamePlacesThenAttempt(s, s', live);
  }

  lemma TimerPlaces(s: State, live: set<Request>)
    requires Placed(s.locker, live)
    ensures s.failureTimer.ready > 0 ==> Placed(HandleFailureTimeout(s).locker, live)
    ensures s.recheckTimer.ready > 0 ==> Placed(HandleRecheckTimeout(s).locker, live)
  {
    if s.failureTimer.ready > 0 {
      var s' := s.(failureTimer := s.failureTimer.(ready := s.failureTimer.ready - 1));
      AttemptKeepsPlaced(s', live);
      RequestNeededMovesNothing(AttemptRequests(s'), true);
    }
    if s.recheckTimer.ready > 0 {
      AttemptKeepsPlaced(s.(recheckTimer := s.recheckTimer.(ready := s.recheckTimer.ready - 1)), live);
    }
  }

  lemma CredentialsPlaces(s: State, c: Credentials, live: set<Request>)
    requires Placed(s.locker, live)
    ensures Placed(SetLoginCredentials(s, c).locker, live)
  {
    SamePlacesThenAttempt(s, s.(locker := SessionPool.SetCredentials(s.locker, c)), live);
  }

  /** Actions that neither create nor finish a request, deliver nothing and answer no request. */
  lemma QuietStepPlaces(w: World, a: Action)
    requires Inv(w) && Enabled(w, a)
    requires !a.Call? && !a.ApiAnswered? && a != Timeouts(Delivers)
    ensures Inv(Step(w, a))
  {
    var l := w.s.locker;
    assert Live(Step(w, a)) == Live(w);
    match a
    case SetCredentials(c) => CredentialsPlaces(w.s, c, Live(w));
    case TokenAnswered(i, response) => TokenAnswerPlaces(w.s, i, response, w.now, Live(w));
    case StatusAnswered(e) => StatusAnswerPlaces(w.s, e, w.now, Live(w));
    case FailureTimerFires => TimerPlaces(w.s, Live(w));
    case RecheckTimerFires => TimerPlaces(w.s, Live(w));
    case Delayed(qa) =>
      if qa.Delivers? { DelayedDeliveryPlaces(w.s, w.now, Live(w)); }
      else { SamePlacesStayPlaced(l, Effect(w, a).locker, Live(w)); }
    case Timeouts(qa) => SamePlacesStayPlaced(l, Effect(w, a).locker, Live(w));
    case _ =>
  }

  lemma StepKeepsInv(w: World, a: Action)
    requires Inv(w)
    ensures Inv(Step(w, a))
  {
    if Enabled(w, a) {
      match a
      case Call(usesToken, timeoutSeconds) => CallPlaces(w, usesToken, timeoutSeconds);
      case ApiAnswered(r, response) => ApiAnswerPlaces(w, r, response);
      case Timeouts(Delivers) => TimeoutDeliveryPlaces(w);
      case _ => QuietStepPlaces(w, a);
    }
  }

  lemma {:induction false} RunKeepsInv(actions: seq<Action>)
    ensures Inv(Run(actions))
  {
    if actions != [] {
      RunKeepsInv(actions[..|actions| - 1]);
      StepKeepsInv(Run(actions[..|actions| - 1]), actions[|actions| - 1]);
    }
  }

  /** Conservation: an unfinished request is in one place, a finished one in none. */
  lemma ExactlyOnePlace(actions: seq<Action>, r: Request)
    requires r in Run(actions).submitted
    ensures var w := Run(actions); Places(w.s.locker)[r] == if r in w.finished then 0 else 1
  {
    RunKeepsInv(actions);
  }

  /** Nothing that was never submitted is anywhere, and only token requests in progress hold tokens. */
  lemma NothingElseIsPlaced(actions: seq<Action>, r: Request)
    ensures var w := Run(actions);
      && (r !in w.submitted ==> Places(w.s.locker)[r] == 0)
      && (r in w.s.locker.checkedOut ==> r.usesToken && r in w.s.locker.inProgress)
  {
    RunKeepsInv(actions);
  }

  lemma {:induction false} SubmittedAreDistinct(submitted: seq<Request>)
    requires forall i | 0 <= i < |submitted| :: submitted[i].id == i
    ensures |set r | r in submitted| == |submitted|
  {
    if submitted != [] {
      var n := |submitted| - 1;
      SubmittedAreDistinct(submitted[..n]);
      assert (set r | r in submitted) == (set r | r in submitted[..n]) + {submitted[n]};
      assert submitted[n] !in submitted[..n];
    }
  }

  /** TotalRequests is what was submitted less what was finished. */
  lemma TotalIsUnfinished(actions: seq<Action>)
    ensures var w := Run(actions); TotalRequests(w.s.locker) == |w.submitted| - |w.finished|
  {
    RunKeepsInv(actions);
    var w := Run(actions);
    SubmittedAreDistinct(w.submitted);
    assert |Live(w)| == |set r | r in w.submitted| - |w.finished|;
    assert |Places(w.s.locker)| == |multiset(Live(w))| == |Live(w)|;
  }
}
