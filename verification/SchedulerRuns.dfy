/** Every run of the session scheduler: public calls, answers from the network, timers and the
    single deliveries of its two event queues, in any order, on one monotone clock. */
module SchedulerRuns {
  import opened Basics
  import opened SessionTypes
  import opened SessionPool
  import opened Scheduler
  import EventQueue

  /** `submitted`, `finished` and `issued` are the history: the requests Call created, those that
      were completed or failed, and which token was obtained with which credentials. */
  datatype World = World(
    s: State,
    now: Time,
    submitted: seq<Request>,
    finished: set<Request>,
    issued: set<(string, Credentials)>)

  datatype QueueAction = Expires | Begins | Delivers | Ends

  datatype Action =
    | SetCredentials(c: Credentials)
    | Call(usesToken: bool, timeoutSeconds: nat)
    | TokenAnswered(i: nat, token: TokenResponse)
    | ApiAnswered(r: Request, api: ApiResponse)
    | StatusAnswered(e: ErrorCode)
    | Elapse(time: Time)
    | FailureTimerExpires
    | FailureTimerFires
    | RecheckTimerExpires
    | RecheckTimerFires
    | Timeouts(timeoutsAction: QueueAction)
    | Delayed(delayedAction: QueueAction)

  function Start(): World { World(Initial(), 0, [], {}, {}) }

  predicate Elapsed(t: Timer, now: Time) { t.armed.Some? && t.armed.value <= now }

  /** The wait elapses: its handler is queued and can no longer be cancelled. */
  function Expire(t: Timer): Timer { Timer(None, t.ready + 1) }

  predicate QueueEnabled(q: EventQueue.Queue<Request>, a: QueueAction, now: Time) {
    match a
    case Expires => q.armed.Some? && q.armed.value <= now
    case Begins => q.posted > 0 && q.pass.None?
    case Delivers => EventQueue.CanDeliver(q)
    case Ends => q.pass.Some? && !EventQueue.CanDeliver(q)
  }

  predicate Enabled(w: World, a: Action) {
    match a
    case SetCredentials(_) => true
    case Call(_, _) => true
    case TokenAnswered(i, _) => i < |w.s.tokenCalls| && w.s.locker.tokenRequests > 0
    case ApiAnswered(r, _) => r in w.s.locker.inProgress
    case StatusAnswered(_) => w.s.statusChecks > 0
    case Elapse(_) => true
    case FailureTimerExpires => Elapsed(w.s.failureTimer, w.now)
    case FailureTimerFires => w.s.failureTimer.ready > 0
    case RecheckTimerExpires => Elapsed(w.s.recheckTimer, w.now)
    case RecheckTimerFires => w.s.recheckTimer.ready > 0
    case Timeouts(qa) => QueueEnabled(w.s.locker.timeouts, qa, w.now)
    case Delayed(qa) => QueueEnabled(w.s.locker.delayed, qa, w.now)
  }

  function QueueStep(q: EventQueue.Queue<Request>, a: QueueAction, now: Time): EventQueue.Queue<Request>
    requires QueueEnabled(q, a, now)
  {
    match a
    case Expires => EventQueue.Expire(q)
    case Begins => EventQueue.BeginPass(q, now)
    case Delivers => EventQueue.Deliver(q)
    case Ends => EventQueue.EndPass(q)
  }

  /** What the action does to the scheduler. */
  function Effect(w: World, a: Action): State
    requires Enabled(w, a)
  {
    match a
    case SetCredentials(c) => SetLoginCredentials(w.s, c)
    case Call(usesToken, timeoutSeconds) =>
      AddWaitingRequest(w.s, NewRequest(|w.submitted|, usesToken, timeoutSeconds, w.now), w.now)
    case TokenAnswered(i, response) => HandleTokenResponse(w.s, i, response, w.now)
    case ApiAnswered(r, response) => HandleApiResponse(w.s, r, response, w.now)
    case StatusAnswered(e) => HandleStatusResponse(w.s, e, w.now)
    case Elapse(_) => w.s
    case FailureTimerExpires => w.s.(failureTimer := Expire(w.s.failureTimer))
    case FailureTimerFires => HandleFailureTimeout(w.s)
    case RecheckTimerExpires => w.s.(recheckTimer := Expire(w.s.recheckTimer))
    case RecheckTimerFires => HandleRecheckTimeout(w.s)
    case Timeouts(qa) =>
      if qa.Delivers? then DeliverTimeout(w.s)
      else w.s.(locker := w.s.locker.(timeouts := QueueStep(w.s.locker.timeouts, qa, w.now)))
    case Delayed(qa) =>
      if qa.Delivers? then DeliverDelayed(w.s, w.now)
      else w.s.(locker := w.s.locker.(delayed := QueueStep(w.s.locker.delayed, qa, w.now)))
  }

  /** The request the action completes or fails, if any. */
  function Finishes(w: World, a: Action): set<Request>
    requires Enabled(w, a)
  {
    match a
    case ApiAnswered(r, response) => if Retries(r, response, w.now) then {} else {r}
    case Timeouts(Delivers) =>
      var r := w.s.locker.timeouts.data[0].event;
      if r in w.s.locker.waitingSt || r in w.s.locker.waitingNonSt then {r} else {}
    case _ => {}
  }

  /** One step; an action that is not enabled leaves the world as it is. */
  function Step(w: World, a: Action): World {
    if !Enabled(w, a) then w
    else World(
      Effect(w, a),
      if a.Elapse? then w.now + a.time else w.now,
      if a.Call? then w.submitted + [NewRequest(|w.submitted|, a.usesToken, a.timeoutSeconds, w.now)]
      else w.submitted,
      w.finished + Finishes(w, a),
      if a.TokenAnswered? && a.token.error == NoError
      then w.issued + {(a.token.token.id, w.s.tokenCalls[a.i])}
      else w.issued)
  }

  function Run(actions: seq<Action>): World {
    if actions == [] then Start() else Step(Run(actions[..|actions| - 1]), actions[|actions| - 1])
  }

  lemma RunGrows(actions: seq<Action>, a: Action)
    ensures Run(actions + [a]) == Step(Run(actions), a)
  {
    assert (actions + [a])[..|actions|] == actions;
  }

  lemma EndSplits<T>(a: seq<T>, b: seq<T>)
    requires b != []
    ensures a + b == (a + b[..|b| - 1]) + [b[|b| - 1]]
  {
  }

  lemma RunEnds(actions: seq<Action>, more: seq<Action>)
    requires more != []
    ensures var n := |more| - 1; Run(actions + more) == Step(Run(actions + more[..n]), more[n])
  {
    EndSplits(actions, more);
    RunGrows(actions + more[..|more| - 1], more[|more| - 1]);
  }

  lemma RunSteps(actions: seq<Action>, n: nat)
    requires n < |actions|
    ensures Run(actions[..n + 1]) == Step(Run(actions[..n]), actions[n])
  {
    assert actions[..n + 1][..n] == actions[..n];
  }

  lemma RunStepsTwice(actions: seq<Action>, n: nat)
    requires n + 1 < |actions|
    ensures Run(actions[..n + 2]) == Step(Step(Run(actions[..n]), actions[n]), actions[n + 1])
  {
    RunSteps(actions, n);
    RunSteps(actions, n + 1);
  }
}
