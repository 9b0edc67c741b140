/** Every run of a TimedEvents object: any interleaving of Add calls from any thread with the
    posted ResetTimer calls, timer expiries, single deliveries and cancellations. */
module EventQueueRuns {
  import opened Basics
  import opened EventQueue

  /** An added event with its insertion number, so that equal events stay distinguishable. */
  datatype Tagged<E> = Tagged(no: nat, event: E)

  datatype Delivery<E> = Delivery(entry: Entry<Tagged<E>>, at: Time)

  /** `added`, `delivered` and `cancelled` are the history of the run. */
  datatype World<E> = World(
    q: Queue<Tagged<E>>,
    now: Time,
    added: seq<Entry<Tagged<E>>>,
    delivered: seq<Delivery<E>>,
    cancelled: seq<Entry<Tagged<E>>>)

  datatype Action<E> =
    | AddAfter(duration: Time, event: E)
    | Elapse(time: Time)
    | TimerExpires
    | ResetStarts
    | DeliverNext
    | ResetEnds
    | CancelPending
    | StopQueue

  function Start<E>(): World<E> { World(Empty(), 0, [], [], []) }

  /** One action; an action that is not enabled leaves the world as it is. */
  function Step<E>(w: World<E>, a: Action<E>): World<E> {
    match a
    case AddAfter(duration, event) =>
      var entry := Entry(w.now + duration, Tagged(|w.added|, event));
      w.(q := Add(w.q, entry.due, entry.event), added := w.added + [entry])
    case Elapse(time) => w.(now := w.now + time)
    case TimerExpires =>
      if w.q.armed.Some? && w.q.armed.value <= w.now then w.(q := Expire(w.q)) else w
    case ResetStarts =>
      if w.q.posted > 0 && w.q.pass.None? then w.(q := BeginPass(w.q, w.now)) else w
    case DeliverNext =>
      if CanDeliver(w.q)
      then w.(q := Deliver(w.q), delivered := w.delivered + [Delivery(w.q.data[0], w.now)])
      else w
    case ResetEnds =>
      if w.q.pass.Some? && !CanDeliver(w.q) then w.(q := EndPass(w.q)) else w
    case CancelPending => w.(q := CancelAll(w.q), cancelled := w.cancelled + w.q.data)
    case StopQueue => w.(q := Stop(w.q), cancelled := w.cancelled + w.q.data)
  }

  function Run<E>(actions: seq<Action<E>>): World<E> {
    if actions == [] then Start() else Step(Run(actions[..|actions| - 1]), actions[|actions| - 1])
  }

  /** Earlier due time first, and for equal due times the earlier insertion first. */
  predicate Before<E>(a: Entry<Tagged<E>>, b: Entry<Tagged<E>>) {
    a.due < b.due || (a.due == b.due && a.event.no < b.event.no)
  }

  ghost predicate Stable<E>(data: seq<Entry<Tagged<E>>>) {
    forall i, j | 0 <= i < j < |data| :: Before(data[i], data[j])
  }

  ghost predicate Numbered<E>(added: seq<Entry<Tagged<E>>>) {
    forall i | 0 <= i < |added| :: added[i].event.no == i
  }

  function Entries<E>(delivered: seq<Delivery<E>>): seq<Entry<Tagged<E>>> {
    seq(|delivered|, i requires 0 <= i < |delivered| => delivered[i].entry)
  }

  /** Every added event is pending, delivered or cancelled, each exactly once. */
  ghost predicate Accounted<E>(w: World<E>) {
    multiset(w.added) == multiset(w.q.data) + (multiset(Entries(w.delivered)) + multiset(w.cancelled))
  }

  ghost predicate NeverEarly<E>(w: World<E>) {
    && (w.q.pass.Some? ==> w.q.pass.value <= w.now)
    && (forall i | 0 <= i < |w.delivered| :: w.delivered[i].entry.due <= w.delivered[i].at <= w.now)
  }

  /** The pending entries are in order, and all are older than the next addition. */
  ghost predicate InOrder<E>(w: World<E>) {
    && Valid(w.q) && Stable(w.q.data)
    && (forall e | e in w.q.data :: e.event.no < |w.added|)
  }

  ghost predicate Recorded<E>(w: World<E>) { Numbered(w.added) && Accounted(w) && NeverEarly(w) }

  lemma {:induction false} InsertKeepsStable<E>(data: seq<Entry<Tagged<E>>>, entry: Entry<Tagged<E>>)
    requires Stable(data)
    requires forall e | e in data :: e.event.no < entry.event.no
    ensures Stable(Insert(data, entry))
  {
    if data != [] && data[0].due <= entry.due {
      var rest := Insert(data[1..], entry);
      InsertKeepsStable(data[1..], entry);
      forall j | 0 <= j < |rest| ensures Before(data[0], rest[j]) {
        InsertMember(data[1..], entry, rest[j]);
        if rest[j] in data[1..] {
          var i :| 0 <= i < |data| - 1 && data[1..][i] == rest[j];
          assert data[i + 1] == rest[j];
        }
      }
    }
  }

  lemma InsertKeepsNumbers<E>(data: seq<Entry<Tagged<E>>>, entry: Entry<Tagged<E>>)
    requires forall e | e in data :: e.event.no < entry.event.no
    ensures forall e | e in Insert(data, entry) :: e.event.no <= entry.event.no
  {
    forall e | e in Insert(data, entry) ensures e.event.no <= entry.event.no { InsertMember(data, entry, e); }
  }

  lemma AddKeepsOrder<E>(w: World<E>, duration: Time, event: E)
    requires InOrder(w)
    ensures InOrder(Step(w, AddAfter(duration, event)))
  {
    var entry := Entry(w.now + duration, Tagged(|w.added|, event));
    InsertKeepsStable(w.q.data, entry);
    InsertKeepsNumbers(w.q.data, entry);
    AddKeepsValid(w.q, entry.due, entry.event);
  }

  lemma StepKeepsOrder<E>(w: World<E>, a: Action<E>)
    requires InOrder(w)
    ensures InOrder(Step(w, a))
  {
    match a
    case AddAfter(duration, event) => AddKeepsOrder(w, duration, event);
    case _ =>
  }

  lemma OneMorePending<T>(added: multiset<T>, pending: multiset<T>, history: multiset<T>, entry: T)
    requires added == pending + history
    ensures added + multiset{entry} == pending + multiset{entry} + history
  {
  }

  lemma AddKeepsAccounted<E>(w: World<E>, w': World<E>, entry: Entry<Tagged<E>>)
    requires Accounted(w) && w'.q.data == Insert(w.q.data, entry) && w'.added == w.added + [entry]
    requires w'.delivered == w.delivered && w'.cancelled == w.cancelled
    ensures Accounted(w')
  {
    InsertAddsOne(w.q.data, entry);
    var history := multiset(Entries(w.delivered)) + multiset(w.cancelled);
    OneMorePending(multiset(w.added), multiset(w.q.data), history, entry);
  }

  lemma DeliverKeepsAccounted<E>(w: World<E>, w': World<E>)
    requires Accounted(w) && w.q.data != [] && w'.q.data == w.q.data[1..]
    requires w'.delivered == w.delivered + [Delivery(w.q.data[0], w.now)]
    requires w'.added == w.added && w'.cancelled == w.cancelled
    ensures Accounted(w')
  {
    assert w.q.data == [w.q.data[0]] + w'.q.data;
    assert Entries(w'.delivered) == Entries(w.delivered) + [w.q.data[0]];
  }

  lemma CancelKeepsAccounted<E>(w: World<E>, w': World<E>)
    requires Accounted(w) && w'.q.data == [] && w'.cancelled == w.cancelled + w.q.data
    requires w'.added == w.added && w'.delivered == w.delivered
    ensures Accounted(w')
  {
  }

  /** Actions that move no entry. */
  lemma QuietKeepsAccounted<E>(w: World<E>, w': World<E>)
    requires Accounted(w) && w'.q.data == w.q.data
    requires w'.added == w.added && w'.delivered == w.delivered && w'.cancelled == w.cancelled
    ensures Accounted(w')
  {
  }

  lemma StepKeepsAccounted<E>(w: World<E>, a: Action<E>)
    requires Accounted(w)
    ensures Accounted(Step(w, a))
  {
    var w' := Step(w, a);
    match a
    case AddAfter(duration, event) => AddKeepsAccounted(w, w', Entry(w.now + duration, Tagged(|w.added|, event)));
    case DeliverNext => if CanDeliver(w.q) { DeliverKeepsAccounted(w, w'); }
    case CancelPending => CancelKeepsAccounted(w, w');
    case StopQueue => CancelKeepsAccounted(w, w');
    case _ => QuietKeepsAccounted(w, w');
  }

  lemma StepKeepsRest<E>(w: World<E>, a: Action<E>)
    requires Numbered(w.added) && NeverEarly(w)
    ensures Numbered(Step(w, a).added) && NeverEarly(Step(w, a))
  {
  }

  lemma {:induction false} RunKeepsInv<E>(actions: seq<Action<E>>)
    ensures InOrder(Run(actions)) && Recorded(Run(actions))
  {
    if actions != [] {
      var w, a := Run(actions[..|actions| - 1]), actions[|actions| - 1];
      RunKeepsInv(actions[..|actions| - 1]);
      StepKeepsOrder(w, a);
      StepKeepsAccounted(w, a);
      StepKeepsRest(w, a);
    }
  }

  lemma AddedOnce<E>(added: seq<Entry<Tagged<E>>>, i: nat)
    requires Numbered(added) && i < |added|
    ensures multiset(added)[added[i]] == 1
  {
    var before, after := added[..i], added[i + 1..];
    assert added == before + [added[i]] + after;
    assert added[i] !in before && added[i] !in after;
  }

  lemma RunAccounts<E>(actions: seq<Action<E>>)
    ensures Accounted(Run(actions)) && Numbered(Run(actions).added)
  {
    RunKeepsInv(actions);
  }

  /** No event is lost or repeated: each addition is pending, delivered or cancelled, once in all. */
  lemma EachEventExactlyOnce<E>(actions: seq<Action<E>>, i: nat)
    requires i < |Run(actions).added|
    ensures var w := Run(actions);
      (multiset(w.q.data) + (multiset(Entries(w.delivered)) + multiset(w.cancelled)))[w.added[i]] == 1
  {
    RunAccounts(actions);
    AddedOnce(Run(actions).added, i);
  }

  /** No delivery happens before its time. */
  lemma NothingEarly<E>(actions: seq<Action<E>>, i: nat)
    requires i < |Run(actions).delivered|
    ensures var d := Run(actions).delivered[i];
      d.entry.due <= d.at <= Run(actions).now
  {
    RunKeepsInv(actions);
  }

  lemma RunGrows<E>(actions: seq<Action<E>>, a: Action<E>)
    ensures Run(actions + [a]) == Step(Run(actions), a)
  {
    assert (actions + [a])[..|actions|] == actions;
  }

  lemma PendingIsStable<E>(actions: seq<Action<E>>)
    ensures Stable(Run(actions).q.data)
  {
    RunKeepsInv(actions);
  }

  /** What a delivery hands over comes before everything that stays pending. */
  lemma EarliestFirst<E>(actions: seq<Action<E>>, other: Entry<Tagged<E>>)
    requires CanDeliver(Run(actions).q)
    requires other in Deliver(Run(actions).q).data
    ensures Before(Run(actions).q.data[0], other)
    ensures var before, after := Run(actions), Run(actions + [DeliverNext]);
      after.delivered == before.delivered + [Delivery(before.q.data[0], before.now)]
  {
    PendingIsStable(actions);
    FrontIsFirst(Run(actions).q.data, other);
    RunGrows(actions, DeliverNext);
  }

  lemma FrontIsFirst<E>(data: seq<Entry<Tagged<E>>>, other: Entry<Tagged<E>>)
    requires Stable(data) && data != [] && other in data[1..]
    ensures Before(data[0], other)
  {
  }

  /** No lost wake-up: whenever a running queue goes idle, every pending event is still in the
      future and the timer is set for the first of them or earlier. */
  lemma IdleLeavesNothingDue<E>(actions: seq<Action<E>>, e: Entry<Tagged<E>>)
    requires var w := Run(actions); Idle(w.q, w.now) && w.q.running && e in w.q.data
    ensures var w := Run(actions); w.q.armed.Some? && w.now < w.q.armed.value <= e.due
  {
    RunKeepsInv(actions);
    FrontIsDueFirst(Run(actions).q.data, e);
  }

  function PassWork<E>(w: World<E>): nat {
    if w.q.pass.None? then 0 else if w.q.pass.value < w.now then 4 else 1
  }

  /** Bounds how many internal actions the io_service can still perform before it goes idle. */
  function Work<E>(w: World<E>): nat {
    3 * |w.q.data| + 2 * w.q.posted + PassWork(w)
    + (if w.q.armed.Some? && w.q.armed.value <= w.now then 3 else 0)
  }

  /** What the io_service does by itself. */
  predicate Internal<E>(a: Action<E>) { a.TimerExpires? || a.ResetStarts? || a.DeliverNext? || a.ResetEnds? }

  /** While the clock stands still and nobody calls in, every internal action that does anything uses
      up work, and only an idle queue has none left to do. */
  lemma InternalActionsRunOut<E>(actions: seq<Action<E>>)
    ensures var w := Run(actions);
      && (forall a | Internal(a) :: Step(w, a) == w || Work(Step(w, a)) < Work(w))
      && (Idle(w.q, w.now) <==> forall a | Internal(a) :: Step(w, a) == w)
  {
    RunKeepsInv(actions);
    var w := Run(actions);
    forall a | Internal(a) ensures Step(w, a) == w || Work(Step(w, a)) < Work(w) { StepDoesWork(w, a); }
    if Idle(w.q, w.now) { forall a | Internal(a) ensures Step(w, a) == w { IdleStays(w, a); } }
    else { var _ := BusyAction(w); }
  }

  lemma StepDoesWork<E>(w: World<E>, a: Action<E>)
    requires Internal(a) && NeverEarly(w)
    ensures Step(w, a) == w || Work(Step(w, a)) < Work(w)
  {
  }

  lemma IdleStays<E>(w: World<E>, a: Action<E>)
    requires Internal(a) && Idle(w.q, w.now)
    ensures Step(w, a) == w
  {
  }

  /** A queue that is not idle has something to do. */
  lemma BusyAction<E>(w: World<E>) returns (a: Action<E>)
    requires !Idle(w.q, w.now)
    ensures Internal(a) && Step(w, a) != w
  {
    if w.q.pass.Some? {
      a := if CanDeliver(w.q) then DeliverNext else ResetEnds;
      if CanDeliver(w.q) { assert |Step(w, a).delivered| == |w.delivered| + 1; }
    } else {
      a := if w.q.posted > 0 then ResetStarts else TimerExpires;
    }
  }

  lemma OneStepCloser<E>(actions: seq<Action<E>>, a: Action<E>)
    requires Internal(a) && Step(Run(actions), a) != Run(actions)
    ensures Work(Run(actions + [a])) < Work(Run(actions)) && Run(actions + [a]).now == Run(actions).now
  {
    RunKeepsInv(actions);
    StepDoesWork(Run(actions), a);
    RunGrows(actions, a);
  }

  lemma OneFirst<T>(s: seq<T>, x: T, t: seq<T>)
    ensures s + ([x] + t) == (s + [x]) + t
  {
  }

  /** So the queue does go idle, after no more internal actions than its work allows. */
  lemma {:induction false} GoesIdle<E>(actions: seq<Action<E>>) returns (more: seq<Action<E>>)
    ensures |more| <= Work(Run(actions)) && (forall i | 0 <= i < |more| :: Internal(more[i]))
    ensures Run(actions + more).now == Run(actions).now && Idle(Run(actions + more).q, Run(actions).now)
    decreases Work(Run(actions))
  {
    if Idle(Run(actions).q, Run(actions).now) {
      more := [];
      assert actions + more == actions;
    } else {
      var a := BusyAction(Run(actions));
      OneStepCloser(actions, a);
      var rest := GoesIdle(actions + [a]);
      more := [a] + rest;
      OneFirst(actions, a, rest);
    }
  }

  // ---- stopping

  /** A queue runs until it is stopped, and never again after that. */
  lemma {:induction false} RunsUntilStopped<E>(actions: seq<Action<E>>)
    ensures Run(actions).q.running <==> StopQueue !in actions
  {
    if actions != [] {
      var n := |actions| - 1;
      RunsUntilStopped(actions[..n]);
      assert actions == actions[..n] + [actions[n]];
    }
  }

  lemma StoppedStays<E>(w: World<E>, a: Action<E>)
    requires !w.q.running && w.q.armed.None?
    ensures var w' := Step(w, a);
      !w'.q.running && w'.q.armed.None? && w'.delivered == w.delivered && w.cancelled <= w'.cancelled
  {
  }

  /** Stop cancels all that is pending, and after it nothing is delivered and the timer is never armed,
      whatever is added or posted then. */
  lemma {:induction false} NothingAfterStop<E>(actions: seq<Action<E>>, more: seq<Action<E>>)
    ensures var w, w' := Run(actions), Run((actions + [StopQueue]) + more);
      !w'.q.running && w'.q.armed.None? && w'.delivered == w.delivered && w.cancelled + w.q.data <= w'.cancelled
  {
    var stopped := actions + [StopQueue];
    if more == [] {
      RunGrows(actions, StopQueue);
      assert stopped + more == stopped;
    } else {
      var n := |more| - 1;
      NothingAfterStop(actions, more[..n]);
      assert stopped + more == (stopped + more[..n]) + [more[n]];
      RunGrows(stopped + more[..n], more[n]);
      StoppedStays(Run(stopped + more[..n]), more[n]);
    }
  }
}
