/** Over a run: a request that is not answered in time does leave its waiting queue. */
module TimedOut {
  import opened Basics
  import opened SessionTypes
  import opened SessionPool
  import opened Scheduler
  import opened SchedulerRuns
  import EventQueue
  import RequestConservation
  import BoundedWait
  import Dispatch

  /** The delayed queue hands `r` back to AddWaitingRequest, which gives it a new timeout. */
  predicate Requeues(w: World, a: Action, r: Request) {
    a == Delayed(Delivers) && Enabled(w, a) && w.s.locker.delayed.data[0].event == r
  }

  /** Every timeout of `r` comes by `bound`. */
  ghost predicate DueBy(q: EventQueue.Queue<Request>, r: Request, bound: Time) {
    forall e | e in q.data && e.event == r :: e.due <= bound
  }

  lemma AttemptKeepsTimeouts(s: State)
    ensures AttemptRequests(s).locker.timeouts == s.locker.timeouts
    ensures RequestNeeded(AttemptRequests(s), true).locker.timeouts == s.locker.timeouts
  {
    BoundedWait.AttemptOnlySends(s);
    RequestConservation.RequestNeededMovesNothing(AttemptRequests(s), true);
  }

  lemma AddedIsAnother(q: EventQueue.Queue<Request>, due: Time, x: Request, r: Request, bound: Time)
    requires DueBy(q, r, bound) && x != r
    ensures DueBy(EventQueue.Add(q, due, x), r, bound)
  {
    forall e | e in EventQueue.Add(q, due, x).data && e.event == r ensures e.due <= bound {
      EventQueue.InsertMember(q.data, EventQueue.Entry(due, x), e);
    }
  }

  /** Only a new request and a delayed one that comes back get a timeout. */
  lemma PreparedTimeouts(w: World, a: Action)
    requires Enabled(w, a) && Dispatch.Prepared(w, a).Some?
    ensures var q, q' := w.s.locker.timeouts, Dispatch.Prepared(w, a).value.locker.timeouts;
      if a.Call? then
        var x := NewRequest(|w.submitted|, a.usesToken, a.timeoutSeconds, w.now);
        q' == EventQueue.Add(q, w.now + 1000 * x.timeoutSeconds, x)
      else if a.Delayed? then
        var x := w.s.locker.delayed.data[0].event;
        q' == EventQueue.Add(q, w.now + 1000 * x.timeoutSeconds, x)
      else q' == q
  {
    if a.ApiAnswered? {
      AnsweredTimeouts(UpdateConnection(w.s, a.api.error, w.now).locker, a.r, a.api, w.now);
    }
  }

  lemma AnsweredTimeouts(l: Locker, r: Request, response: ApiResponse, now: Time)
    ensures Dispatch.Answered(l, r, response, now).timeouts == l.timeouts
  {
  }

  lemma PreparedDueBy(w: World, a: Action, r: Request, bound: Time)
    requires RequestConservation.Inv(w) && Enabled(w, a) && Dispatch.Prepared(w, a).Some?
    requires r in w.submitted && !Requeues(w, a, r) && DueBy(w.s.locker.timeouts, r, bound)
    ensures DueBy(Dispatch.Prepared(w, a).value.locker.timeouts, r, bound)
  {
    var q := w.s.locker.timeouts;
    PreparedTimeouts(w, a);
    if a.Call? {
      var x := NewRequest(|w.submitted|, a.usesToken, a.timeoutSeconds, w.now);
      AddedIsAnother(q, w.now + 1000 * x.timeoutSeconds, x, r, bound);
    } else if a.Delayed? {
      var x := w.s.locker.delayed.data[0].event;
      AddedIsAnother(q, w.now + 1000 * x.timeoutSeconds, x, r, bound);
    }
  }

  lemma FailureKeepsTimeouts(w: World, i: nat, response: TokenResponse)
    requires Enabled(w, TokenAnswered(i, response)) && response.error != NoError
    ensures Effect(w, TokenAnswered(i, response)).locker.timeouts == w.s.locker.timeouts
  {
    var s := UpdateConnection(TokenCallAnswered(w.s, i), response.error, w.now);
    BoundedWait.FailureOnlySends(s, w.s.tokenCalls[i], response, w.now);
  }

  lemma TurnTimeouts(w: World, a: Action)
    requires Enabled(w, a) && Dispatch.Prepared(w, a).None? && !a.TokenAnswered?
    ensures var data, data' := w.s.locker.timeouts.data, Effect(w, a).locker.timeouts.data;
      data' == if a == Timeouts(Delivers) then data[1..] else data
  {
  }

  /** The other actions take a timeout off the front at most. */
  lemma OthersTimeouts(w: World, a: Action)
    requires Enabled(w, a) && Dispatch.Prepared(w, a).None?
    ensures var data, data' := w.s.locker.timeouts.data, Effect(w, a).locker.timeouts.data;
      data' == if a == Timeouts(Delivers) then data[1..] else data
  {
    if a.TokenAnswered? { FailureKeepsTimeouts(w, a.i, a.token); } else { TurnTimeouts(w, a); }
  }

  lemma OthersDueBy(w: World, a: Action, r: Request, bound: Time)
    requires Enabled(w, a) && Dispatch.Prepared(w, a).None? && DueBy(w.s.locker.timeouts, r, bound)
    ensures DueBy(Effect(w, a).locker.timeouts, r, bound)
  {
    OthersTimeouts(w, a);
    assert forall e | e in Effect(w, a).locker.timeouts.data :: e in w.s.locker.timeouts.data;
  }

  /** No step but that one puts off the last timeout of a request. */
  lemma StepDueBy(w: World, a: Action, r: Request, bound: Time)
    requires RequestConservation.Inv(w) && r in w.submitted
    requires !Requeues(w, a, r) && DueBy(w.s.locker.timeouts, r, bound)
    ensures DueBy(Step(w, a).s.locker.timeouts, r, bound) && r in Step(w, a).submitted
  {
    if Enabled(w, a) {
      if Dispatch.Prepared(w, a).Some? {
        PreparedDueBy(w, a, r, bound);
        AttemptKeepsTimeouts(Dispatch.Prepared(w, a).value);
        if !a.FailureTimerFires? { Dispatch.EffectIsAttempt(w, a); }
      } else {
        OthersDueBy(w, a, r, bound);
      }
    }
  }

  lemma {:induction false} RunDueBy(actions: seq<Action>, more: seq<Action>, r: Request)
    requires r in Run(actions).submitted
    requires forall n | 0 <= n < |more| :: !Requeues(Run(actions + more[..n]), more[n], r)
    ensures var bound := Run(actions).now + 1000 * r.timeoutSeconds;
      DueBy(Run(actions + more).s.locker.timeouts, r, bound) && r in Run(actions + more).submitted
  {
    if more == [] {
      BoundedWait.RunKeepsBounded(actions);
      assert actions + more == actions;
    } else {
      var n := |more| - 1;
      forall m | 0 <= m < n ensures !Requeues(Run(actions + more[..n][..m]), more[..n][m], r) {
        assert more[..n][..m] == more[..m];
      }
      RunDueBy(actions, more[..n], r);
      RequestConservation.RunKeepsInv(actions + more[..n]);
      RunEnds(actions, more);
      StepDueBy(Run(actions + more[..n]), more[n], r, Run(actions).now + 1000 * r.timeoutSeconds);
    }
  }

  predicate TimeoutsIdle(w: World) { EventQueue.Idle(w.s.locker.timeouts, w.now) }

  /** An idle queue has nothing due any more. */
  lemma IdleIsAhead(w: World, e: EventQueue.Entry<Request>)
    requires BoundedWait.Sound(w.s.locker.timeouts, w.now) && TimeoutsIdle(w) && e in w.s.locker.timeouts.data
    ensures w.now < e.due
  {
    EventQueue.FrontIsDueFirst(w.s.locker.timeouts.data, e);
  }

  lemma NoLongerWaits(w: World, r: Request, bound: Time)
    requires BoundedWait.Bounded(w.s.locker, w.now, w.submitted)
    requires DueBy(w.s.locker.timeouts, r, bound) && bound <= w.now && TimeoutsIdle(w)
    ensures !BoundedWait.Waits(w.s.locker, r)
  {
    if BoundedWait.Waits(w.s.locker, r) {
      var e :| e in w.s.locker.timeouts.data && e.event == r;
      IdleIsAhead(w, e);
    }
  }

  /** Whatever happens in between: once a request's timeout has passed and the timeouts queue has done its
      work, the request waits no longer, unless it was delayed and queued anew. It is finished, failed
      as timed out if nothing else, or under way, or delayed. */
  lemma LeavesTheQueue(actions: seq<Action>, more: seq<Action>, r: Request)
    requires r in Run(actions).submitted
    requires forall n | 0 <= n < |more| :: !Requeues(Run(actions + more[..n]), more[n], r)
    requires Run(actions).now + 1000 * r.timeoutSeconds <= Run(actions + more).now && TimeoutsIdle(Run(actions + more))
    ensures var w := Run(actions + more);
      && !BoundedWait.Waits(w.s.locker, r)
      && (r in w.finished || r in w.s.locker.inProgress || r in EventQueue.Events(w.s.locker.delayed.data))
  {
    var w := Run(actions + more);
    RunDueBy(actions, more, r);
    BoundedWait.RunKeepsBounded(actions + more);
    NoLongerWaits(w, r, Run(actions).now + 1000 * r.timeoutSeconds);
    RequestConservation.ExactlyOnePlace(actions + more, r);
    if r !in w.finished { PlacedSomewhere(w.s.locker, r); }
  }

  lemma PlacedSomewhere(l: Locker, r: Request)
    requires RequestConservation.Places(l)[r] == 1 && !BoundedWait.Waits(l, r)
    ensures r in l.inProgress || r in EventQueue.Events(l.delayed.data)
  {
    assert multiset(l.waitingSt)[r] == 0 && multiset(l.waitingNonSt)[r] == 0;
    assert r in multiset(l.inProgress) || r in multiset(EventQueue.Events(l.delayed.data));
  }
}
