/** The bound on the number of state changes is needed: a run of locker calls in which the change count
    wraps round while a handler is at work, and the handler then enters a state it must not. */
module WrapAround {
  import opened Basics
  import opened SessionTypes
  import opened SessionPool
  import opened SessionHistory

  const TOKEN: SessionToken := SessionToken("t", "", "", 1)
  const GRANTED: TokenResponse := TokenResponse(NoError, "", TOKEN)
  const REFUSED: TokenResponse := TokenResponse(CredentialsInvalid, "", TOKEN)
  const LOCKED: TokenResponse := TokenResponse(AccountTemporarilyLocked, "", TOKEN)

  const FIRST: Credentials := Email("a", "p")
  const SECOND: Credentials := Email("b", "p")

  function Other(c: Credentials): Credentials { if c == FIRST then SECOND else FIRST }

  /** The calls of a response handler that nothing interrupts. */
  function Handling(id: nat, response: TokenResponse, c: Credentials): seq<Call> {
    [GetSessionState(id, response, c), CountResponse(id), Decide(id), SetSessionStateSafe(id)]
  }

  /** Initialized, Running and back, with new credentials. */
  function Lap(c: Credentials): seq<Call> { Handling(1, GRANTED, c) + [SetCredentials(Other(c))] }

  /** The same by way of a credentials failure: three changes instead of two. */
  function LongLap(c: Credentials): seq<Call> {
    Handling(1, GRANTED, c) + (Handling(1, REFUSED, c) + [SetCredentials(Other(c))])
  }

  function Laps(n: nat, c: Credentials): seq<Call> { if n == 0 then [] else Lap(c) + Laps(n - 1, Other(c)) }

  function AfterLaps(n: nat, c: Credentials): Credentials { if n == 0 then c else AfterLaps(n - 1, Other(c)) }

  /** Carrying on from a system. */
  function Resume(y: System, calls: seq<Call>): System
    decreases |calls|
  {
    if calls == [] then y else Resume(Step(y, calls[0]), calls[1..])
  }

  lemma {:induction false} ResumeJoins(y: System, a: seq<Call>, b: seq<Call>)
    ensures Resume(y, a + b) == Resume(Resume(y, a), b)
    decreases |a|
  {
    if a == [] {
      assert a + b == b;
    } else {
      ResumeJoins(Step(y, a[0]), a[1..], b);
      assert (a + b)[1..] == a[1..] + b;
    }
  }

  lemma {:induction false} RunResumes(calls: seq<Call>)
    ensures Run(calls) == Resume(Start(), calls)
  {
    if calls != [] {
      var n := |calls| - 1;
      RunResumes(calls[..n]);
      ResumeJoins(Start(), calls[..n], [calls[n]]);
      assert calls == calls[..n] + [calls[n]];
      assert Resume(Resume(Start(), calls[..n]), [calls[n]]) == Step(Run(calls[..n]), calls[n]);
    }
  }

  /** The handler that waits: it read Initialized after one change, and has a locked account to report. */
  const WAITING: Handler :=
    Handler(LOCKED, FIRST, Initialized, 1, 1, Some(ProlongedError(AccountTemporarilyLocked)))

  /** In `state`, with the credentials `c`, after `changes` changes, the handler still waiting. */
  ghost predicate At(y: System, state: SessionState, c: Credentials, changes: nat) {
    && y.l.sessionState == state && y.l.credentials == Some(c) && y.l.changeCount == changes % UINT32
    && |y.history| == changes + 1 && y.history[changes] == state
    && y.handlers == map[0 := WAITING]
  }

  lemma HandlingIs(y: System, id: nat, response: TokenResponse, c: Credentials, rest: seq<Call>)
    ensures Resume(y, Handling(id, response, c) + rest) == Resume(Handled(y, id, response, c), rest)
  {
    var calls := Handling(id, response, c);
    ResumeJoins(y, calls, rest);
    var y1 := Step(y, calls[0]);
    var y2 := Step(y1, calls[1]);
    var y3 := Step(y2, calls[2]);
    assert Resume(y, calls) == Resume(y1, calls[1..]);
    assert calls[1..][1..] == calls[2..] && calls[2..][1..] == calls[3..] && calls[3..][1..] == [];
    assert Resume(y1, calls[1..]) == Resume(y2, calls[2..]);
    assert Resume(y2, calls[2..]) == Resume(y3, calls[3..]);
    assert Resume(y3, calls[3..]) == Step(y3, calls[3]);
  }

  const RUNNING: SessionState := SessionState.Running("t", "")
  const FAILED: SessionState := CredentialsFailure(None, CredentialsInvalid)

  lemma NextCount(changes: nat)
    ensures (changes % UINT32 + 1) % UINT32 == (changes + 1) % UINT32
  {
  }

  lemma GrantedRuns(y: System, c: Credentials, changes: nat)
    requires At(y, Initialized, c, changes)
    ensures At(Handled(y, 1, GRANTED, c), RUNNING, c, changes + 1)
  {
    NextCount(changes);
    var y1 := Step(Step(y, GetSessionState(1, GRANTED, c)), CountResponse(1));
    var y2 := Step(y1, Decide(1));
    assert y2.handlers[1].next == Some(RUNNING) && y2.handlers - {1} == y.handlers;
  }

  lemma RefusedFails(y: System, c: Credentials, changes: nat)
    requires At(y, RUNNING, c, changes)
    ensures At(Handled(y, 1, REFUSED, c), FAILED, c, changes + 1)
  {
    NextCount(changes);
    var y1 := Step(Step(y, GetSessionState(1, REFUSED, c)), CountResponse(1));
    var y2 := Step(y1, Decide(1));
    assert y2.handlers[1].next == Some(FAILED) && y2.handlers - {1} == y.handlers;
  }

  lemma CredentialsInitialize(y: System, state: SessionState, c: Credentials, changes: nat)
    requires At(y, state, c, changes) && state != Initialized
    ensures At(Step(y, SetCredentials(Other(c))), Initialized, Other(c), changes + 1)
  {
    NextCount(changes);
  }

  lemma LapTakesTwo(y: System, c: Credentials, changes: nat)
    requires At(y, Initialized, c, changes)
    ensures At(Resume(y, Lap(c)), Initialized, Other(c), changes + 2)
  {
    var y1 := Handled(y, 1, GRANTED, c);
    HandlingIs(y, 1, GRANTED, c, [SetCredentials(Other(c))]);
    GrantedRuns(y, c, changes);
    CredentialsInitialize(y1, RUNNING, c, changes + 1);
    assert Resume(y1, [SetCredentials(Other(c))]) == Step(y1, SetCredentials(Other(c)));
  }

  lemma LongLapTakesThree(y: System, c: Credentials, changes: nat)
    requires At(y, Initialized, c, changes)
    ensures At(Resume(y, LongLap(c)), Initialized, Other(c), changes + 3)
  {
    var y1 := Handled(y, 1, GRANTED, c);
    var y2 := Handled(y1, 1, REFUSED, c);
    HandlingIs(y, 1, GRANTED, c, Handling(1, REFUSED, c) + [SetCredentials(Other(c))]);
    HandlingIs(y1, 1, REFUSED, c, [SetCredentials(Other(c))]);
    GrantedRuns(y, c, changes);
    RefusedFails(y1, c, changes + 1);
    CredentialsInitialize(y2, FAILED, c, changes + 2);
    assert Resume(y2, [SetCredentials(Other(c))]) == Step(y2, SetCredentials(Other(c)));
  }

  lemma {:induction false} LapsTakeTwoEach(y: System, n: nat, c: Credentials, changes: nat)
    requires At(y, Initialized, c, changes)
    ensures At(Resume(y, Laps(n, c)), Initialized, AfterLaps(n, c), changes + 2 * n)
    decreases n
  {
    if n > 0 {
      LapTakesTwo(y, c, changes);
      ResumeJoins(y, Lap(c), Laps(n - 1, Other(c)));
      LapsTakeTwoEach(Resume(y, Lap(c)), n - 1, Other(c), changes + 2);
    }
  }

  /** The waiting handler starts; one long lap and many short ones go by, and half a lap more. */
  const OPENING: seq<Call> :=
    [SetCredentials(FIRST), GetSessionState(0, LOCKED, FIRST), CountResponse(0), Decide(0)]

  function Meanwhile(n: nat): seq<Call> {
    LongLap(FIRST) + (Laps(n, SECOND) + Handling(1, GRANTED, AfterLaps(n, SECOND)))
  }

  lemma OpeningWaits()
    ensures At(Resume(Start(), OPENING), Initialized, FIRST, 1)
  {
    var y1 := Step(Start(), SetCredentials(FIRST));
    var y2 := Step(y1, GetSessionState(0, LOCKED, FIRST));
    var y3 := Step(y2, CountResponse(0));
    var y4 := Step(y3, Decide(0));
    assert Resume(Start(), OPENING) == Resume(y1, OPENING[1..]);
    assert OPENING[1..][1..] == OPENING[2..] && OPENING[2..][1..] == OPENING[3..] && OPENING[3..][1..] == [];
    assert Resume(y1, OPENING[1..]) == Resume(y2, OPENING[2..]);
    assert Resume(y2, OPENING[2..]) == Resume(y3, OPENING[3..]);
    assert Resume(y3, OPENING[3..]) == y4;
    assert y4.handlers == map[0 := WAITING];
  }

  lemma LastHandling(y: System, c: Credentials, changes: nat)
    requires At(y, Initialized, c, changes)
    ensures At(Resume(y, Handling(1, GRANTED, c)), RUNNING, c, changes + 1)
  {
    GrantedRuns(y, c, changes);
    HandlingIs(y, 1, GRANTED, c, []);
    assert Handling(1, GRANTED, c) + [] == Handling(1, GRANTED, c);
  }

  lemma MeanwhileRuns(y: System, n: nat)
    requires At(y, Initialized, FIRST, 1)
    ensures At(Resume(y, Meanwhile(n)), RUNNING, AfterLaps(n, SECOND), 2 * n + 5)
  {
    var c, last := AfterLaps(n, SECOND), Handling(1, GRANTED, AfterLaps(n, SECOND));
    ResumeJoins(y, LongLap(FIRST), Laps(n, SECOND) + last);
    LongLapTakesThree(y, FIRST, 1);
    var y1 := Resume(y, LongLap(FIRST));
    ResumeJoins(y1, Laps(n, SECOND), last);
    LapsTakeTwoEach(y1, n, SECOND, 4);
    LastHandling(Resume(y1, Laps(n, SECOND)), c, 2 * n + 4);
  }

  /** The waiting handler sets its state if the count has come round to what it read. */
  lemma LateHandlerSets(y: System, c: Credentials, changes: nat)
    requires At(y, RUNNING, c, changes) && changes % UINT32 == 1
    ensures var y' := Step(y, SetSessionStateSafe(0));
      && |y'.history| == changes + 2 && y'.history[changes] == RUNNING
      && y'.history[changes + 1] == ProlongedError(AccountTemporarilyLocked)
  {
  }

  function WholeRun(n: nat): seq<Call> { (OPENING + Meanwhile(n)) + [SetSessionStateSafe(0)] }

  lemma WholeRunIs(n: nat)
    ensures Run(WholeRun(n)) == Step(Resume(Resume(Start(), OPENING), Meanwhile(n)), SetSessionStateSafe(0))
  {
    var y := Resume(Start(), OPENING + Meanwhile(n));
    RunResumes(WholeRun(n));
    ResumeJoins(Start(), OPENING + Meanwhile(n), [SetSessionStateSafe(0)]);
    ResumeJoins(Start(), OPENING, Meanwhile(n));
    assert Resume(y, [SetSessionStateSafe(0)]) == Step(y, SetSessionStateSafe(0));
  }

  lemma BeforeLast(n: nat)
    ensures At(Resume(Resume(Start(), OPENING), Meanwhile(n)), RUNNING, AfterLaps(n, SECOND), 2 * n + 5)
  {
    OpeningWaits();
    MeanwhileRuns(Resume(Start(), OPENING), n);
  }

  lemma WholeRunEnds(n: nat, changes: nat)
    requires changes == 2 * n + 5 && changes % UINT32 == 1
    ensures var h := Run(WholeRun(n)).history;
      |h| == changes + 2 && h[changes] == RUNNING && h[changes + 1] == ProlongedError(AccountTemporarilyLocked)
  {
    WholeRunIs(n);
    BeforeLast(n);
    LateHandlerSets(Resume(Resume(Start(), OPENING), Meanwhile(n)), AfterLaps(n, SECOND), changes);
  }

  /** After exactly 2^32 changes a handler enters ProlongedError out of Running. */
  lemma WrapForcesForbidden()
    ensures var h := Run(WholeRun(UINT32 / 2 - 2)).history;
      && |h| == UINT32 + 3
      && h[|h| - 2].Running? && h[|h| - 1].ProlongedError? && !Allowed(h[|h| - 2], h[|h| - 1])
  {
    WholeRunEnds(UINT32 / 2 - 2, UINT32 + 1);
  }
}
