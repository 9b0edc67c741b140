/** The history of session states when token responses are handled on several threads at once and
    credentials are set in between: one step is one call of the locker made under its mutex. */
module SessionHistory {
  import opened Basics
  import opened SessionTypes
  import opened SessionPool
  import opened Scheduler

  /** A response handler between its locker calls: what GetSessionState gave it (`readAt` is where
      the history ended then), and the state it has decided to set, if any. */
  datatype Handler = Handler(
    response: TokenResponse,
    credentials: Credentials,
    state: SessionState,
    changeCount: nat,
    readAt: int,
    next: Option<SessionState>)

  /** `history` lists the session states in the order they were entered. */
  datatype System = System(l: Locker, history: seq<SessionState>, handlers: map<nat, Handler>)

  datatype Call =
    | SetCredentials(c: Credentials)
    | GetSessionState(id: nat, response: TokenResponse, credentials: Credentials)
    | CountResponse(countId: nat)
    | Decide(decideId: nat)
    | SetSessionStateSafe(setId: nat)

  function Start(): System { System(Fresh(), [Uninitialized], map[]) }

  function Enter(y: System, l: Locker): System {
    y.(l := l, history := if l.sessionState == y.l.sessionState then y.history else y.history + [l.sessionState])
  }

  /** The locker call by which a handler makes up its mind, after the state it read earlier:
      GetCredentials, GetFailureCount or AddSessionToken. */
  function Decision(l: Locker, h: Handler): Option<SessionState> {
    var e := h.response.error;
    if e == NoError then
      if l.credentials == Some(h.credentials) && !h.state.Uninitialized? && !h.state.Running?
      then Some(SessionState.Running(h.response.token.id, h.response.token.pkey)) else None
    else if IsInvalidCredentialsError(e) then
      if l.credentials == Some(h.credentials) && !h.state.Uninitialized? && !h.state.CredentialsFailure?
      then Some(CredentialsFailure(if h.response.pkey == "" then None else Some(h.response.pkey), e)) else None
    else
      if (l.failureCount >= PROLONGED_FAILURE_THRESHOLD || e == AccountTemporarilyLocked)
         && (h.state.Initialized? || h.state.ProlongedError?)
      then Some(ProlongedError(e)) else None
  }

  function Step(y: System, call: Call): System {
    match call
    case SetCredentials(c) => Enter(y, SessionPool.SetCredentials(y.l, c))
    case GetSessionState(id, response, credentials) =>
      y.(handlers := y.handlers[id := Handler(response, credentials, y.l.sessionState, y.l.changeCount,
                                              |y.history| - 1, None)])
    case CountResponse(id) =>
      if id !in y.handlers then y
      else y.(l := y.l.(failureCount :=
        if y.handlers[id].response.error == NoError then 0 else (y.l.failureCount + 1) % UINT32))
    case Decide(id) =>
      if id !in y.handlers then y
      else
        var h := y.handlers[id];
        y.(handlers := y.handlers[id := h.(next := Decision(y.l, h))],
           l := if h.response.error == NoError then AddToken(y.l, h.response.token, h.credentials) else y.l)
    case SetSessionStateSafe(id) =>
      if id !in y.handlers then y
      else
        var h, rest := y.handlers[id], y.(handlers := y.handlers - {id});
        if h.next.None? then rest else Enter(rest, ChangeStateSafe(y.l, h.next.value, h.changeCount))
  }

  function Run(calls: seq<Call>): System {
    if calls == [] then Start() else Step(Run(calls[..|calls| - 1]), calls[|calls| - 1])
  }

  /** The transitions the class means to allow: credentials reset from anywhere; a credentials
      failure, a prolonged error and success only from the states their handlers test for. */
  predicate Allowed(from: SessionState, to: SessionState) {
    && from != to
    && match to
       case Uninitialized => false
       case Initialized => true
       case CredentialsFailure(_, _) => from.Initialized? || from.ProlongedError? || from.Running?
       case ProlongedError(_) => from.Initialized? || from.ProlongedError?
       case Running(_, _) => from.Initialized? || from.ProlongedError? || from.CredentialsFailure?
  }

  ghost predicate Recorded(y: System) {
    && y.history != []
    && y.l.sessionState == y.history[|y.history| - 1]
    && y.l.changeCount == (|y.history| - 1) % UINT32
    && (forall i | 0 < i < |y.history| :: y.history[i - 1] != y.history[i])
  }

  ghost predicate Remembered(y: System, h: Handler) {
    && 0 <= h.readAt < |y.history|
    && h.state == y.history[h.readAt] && h.changeCount == h.readAt % UINT32
    && (h.next.Some? ==> h.next.value == h.state || Allowed(h.state, h.next.value))
  }

  ghost predicate Inv(y: System) {
    && Recorded(y)
    && (forall id | id in y.handlers :: Remembered(y, y.handlers[id]))
    && (|y.history| <= UINT32 ==> forall i | 0 < i < |y.history| :: Allowed(y.history[i - 1], y.history[i]))
  }

  lemma SameResidue(a: nat, b: nat)
    requires b <= a
    ensures a % UINT32 == b % UINT32 <==> (a - b) % UINT32 == 0
    ensures a - b < UINT32 && (a - b) % UINT32 == 0 ==> a == b
  {
  }

  /** The counter compares equal exactly when the number of changes since the read is a multiple of
      2^32, so with fewer changes in all it proves that nothing changed. */
  lemma AcceptedMeansUnchanged(y: System, h: Handler)
    requires Recorded(y) && Remembered(y, h)
    ensures y.l.changeCount == h.changeCount <==> (|y.history| - 1 - h.readAt) % UINT32 == 0
    ensures y.l.changeCount == h.changeCount && |y.history| <= UINT32 ==>
      h.readAt == |y.history| - 1 && y.l.sessionState == h.state
  {
    SameResidue(|y.history| - 1, h.readAt);
  }

  lemma DecisionIsAllowed(l: Locker, h: Handler)
    ensures var next := Decision(l, h); next.Some? ==> next.value == h.state || Allowed(h.state, next.value)
  {
  }

  lemma LongerStillRemembers(y: System, y': System, h: Handler)
    requires Remembered(y, h) && y.history <= y'.history
    ensures Remembered(y', h)
  {
  }

  lemma EnterKeepsInv(y: System, l: Locker)
    requires Inv(y)
    requires l.sessionState != y.l.sessionState ==>
      l.changeCount == (y.l.changeCount + 1) % UINT32
      && (|y.history| < UINT32 ==> Allowed(y.l.sessionState, l.sessionState))
    requires l.sessionState == y.l.sessionState ==> l.changeCount == y.l.changeCount
    ensures Inv(Enter(y, l))
  {
    var y' := Enter(y, l);
    forall id | id in y'.handlers ensures Remembered(y', y'.handlers[id]) {
      LongerStillRemembers(y, y', y.handlers[id]);
    }
  }

  /** A state change that its handler decided on. */
  lemma SetKeepsInv(y: System, id: nat)
    requires Inv(y) && id in y.handlers && y.handlers[id].next.Some?
    ensures Inv(Step(y, SetSessionStateSafe(id)))
  {
    var h, rest := y.handlers[id], y.(handlers := y.handlers - {id});
    AcceptedMeansUnchanged(y, h);
    assert Inv(rest);
    EnterKeepsInv(rest, ChangeStateSafe(y.l, h.next.value, h.changeCount));
  }

  lemma DecideKeepsInv(y: System, id: nat)
    requires Inv(y) && id in y.handlers
    ensures Inv(Step(y, Decide(id)))
  {
    DecisionIsAllowed(y.l, y.handlers[id]);
  }

  lemma StepKeepsInv(y: System, call: Call)
    requires Inv(y)
    ensures Inv(Step(y, call))
  {
    match call
    case SetCredentials(c) => EnterKeepsInv(y, SessionPool.SetCredentials(y.l, c));
    case GetSessionState(id, response, credentials) =>
    case CountResponse(id) =>
    case Decide(id) => if id in y.handlers { DecideKeepsInv(y, id); }
    case SetSessionStateSafe(id) => if id in y.handlers && y.handlers[id].next.Some? { SetKeepsInv(y, id); }
  }

  lemma {:induction false} RunKeepsInv(calls: seq<Call>)
    ensures Inv(Run(calls))
  {
    if calls != [] {
      RunKeepsInv(calls[..|calls| - 1]);
      StepKeepsInv(Run(calls[..|calls| - 1]), calls[|calls| - 1]);
    }
  }

  /** The change count is the number of real changes, and consecutive states differ, whatever the
      interleaving. */
  lemma CountIsChanges(calls: seq<Call>)
    ensures var y := Run(calls);
      && y.history != [] && y.l.sessionState == y.history[|y.history| - 1]
      && y.l.changeCount == (|y.history| - 1) % UINT32
      && (forall i | 0 < i < |y.history| :: y.history[i - 1] != y.history[i])
  {
    RunKeepsInv(calls);
  }

  /** With fewer than 2^32 changes every transition is an allowed one. In particular a prolonged
      error never follows Running or a credentials failure, and Running never follows Running. */
  lemma OnlyAllowedTransitions(calls: seq<Call>, i: nat)
    requires |Run(calls).history| <= UINT32 && 0 < i < |Run(calls).history|
    ensures var from, to := Run(calls).history[i - 1], Run(calls).history[i];
      && Allowed(from, to)
      && !(from.Running? && to.ProlongedError?)
      && !(from.CredentialsFailure? && to.ProlongedError?)
      && !(from.Running? && to.Running?)
  {
    RunKeepsInv(calls);
  }

  /** A successful SetSessionStateSafe acts on exactly the state its caller read. */
  lemma ActsOnWhatWasRead(calls: seq<Call>, id: nat)
    requires var y := Run(calls);
      && |y.history| <= UINT32 && id in y.handlers
      && y.l.changeCount == y.handlers[id].changeCount
    ensures var y := Run(calls); y.l.sessionState == y.handlers[id].state && y.handlers[id].readAt == |y.history| - 1
  {
    RunKeepsInv(calls);
    AcceptedMeansUnchanged(Run(calls), Run(calls).handlers[id]);
  }

  /** A handler whose calls follow each other without anything in between. */
  function Handled(y: System, id: nat, response: TokenResponse, c: Credentials): System {
    Step(Step(Step(Step(y, GetSessionState(id, response, c)), CountResponse(id)), Decide(id)), SetSessionStateSafe(id))
  }

  /** What the scheduler's own handler makes of the locker, in one piece. */
  function InOnePiece(l: Locker, c: Credentials, response: TokenResponse): Locker {
    var counted := l.(failureCount := (l.failureCount + 1) % UINT32);
    if response.error == NoError then Obtained(l, c, response)
    else if IsInvalidCredentialsError(response.error) then CredentialsRefused(counted, c, response)
    else FailureProlonged(counted, response.error)
  }

  lemma DecidesAsHandler(l: Locker, h: Handler)
    requires h.state == l.sessionState && h.changeCount == l.changeCount && h.response.error != NoError
    ensures var next := Decision(l, h);
      (if next.None? then l else ChangeStateSafe(l, next.value, h.changeCount))
      == if IsInvalidCredentialsError(h.response.error) then CredentialsRefused(l, h.credentials, h.response)
         else FailureProlonged(l, h.response.error)
  {
  }

  lemma DecidesAsSuccess(l: Locker, h: Handler)
    requires h.state == l.sessionState && h.changeCount == l.changeCount && h.response.error == NoError
    ensures var reset := l.(failureCount := 0);
      var next, added := Decision(reset, h), AddToken(reset, h.response.token, h.credentials);
      (if next.None? then added else ChangeStateSafe(added, next.value, h.changeCount))
      == Obtained(l, h.credentials, h.response)
  {
  }

  /** The calls without interleaving are the handler of the scheduler's runs: they leave the same locker. */
  lemma HandledInOnePiece(y: System, id: nat, response: TokenResponse, c: Credentials)
    ensures Handled(y, id, response, c).l == InOnePiece(y.l, c, response)
  {
    var y1 := Step(y, GetSessionState(id, response, c));
    var y2 := Step(y1, CountResponse(id));
    var h := y1.handlers[id];
    if response.error == NoError { DecidesAsSuccess(y.l, h); } else { DecidesAsHandler(y2.l, h); }
  }
}
