/** What the waits after a failed token request hold back, and what they do not. session_maintainer.hpp
    (lines 61-72) wants no token request meanwhile. The code looks at the timer nowhere: every handler
    that attempts requests may ask for tokens while it runs. Only with bad credentials do the waits space
    the token requests. */
module Throttling {
  import opened Basics
  import opened SessionTypes
  import opened SessionPool
  import opened Scheduler
  import opened SchedulerRuns
  import opened Backoff
  import Dispatch
  import EventQueue
  import RequestConservation
  import Retrying

  // ---- when token requests are started

  /** The unanswered token requests that the action finds, or leaves. */
  function Unanswered(w: World, a: Action): seq<Credentials>
    requires Enabled(w, a)
  {
    if a.TokenAnswered? then w.s.tokenCalls[..a.i] + w.s.tokenCalls[a.i + 1..] else w.s.tokenCalls
  }

  function Calls(n: nat, c: Option<Credentials>): seq<Credentials> {
    if c.Some? then seq(n, _ => c.value) else []
  }

  /** How many token requests the action starts. */
  function Started(w: World, a: Action): nat
    requires Enabled(w, a)
  {
    var p := Dispatch.Prepared(w, a);
    if p.Some? && (a.FailureTimerFires? || !p.value.locker.connection.Unconnected?)
    then Dispatch.AskedBy(a, p.value.locker) else 0
  }

  lemma NeededCalls(s: State)
    ensures RequestNeeded(s, false).tokenCalls
         == s.tokenCalls + Calls(Dispatch.Asked(s.locker), s.locker.credentials)
  {
    if s.locker.credentials.Some? { Dispatch.GrantedAreRequested(s, s.locker.credentials.value); }
  }

  lemma AttemptCalls(s: State)
    requires !s.locker.connection.Unconnected? && Dispatch.Tidy(s.locker)
    ensures AttemptRequests(s).tokenCalls == s.tokenCalls + Calls(Dispatch.Asked(s.locker), s.locker.credentials)
  {
    Retrying.TokenlessRetry(s);
    Retrying.WithTokensRetry(StartTokenless(s));
    Dispatch.LoopsKeepAsked(s);
    NeededCalls(StartWithTokens(StartTokenless(s)));
  }

  lemma ForcedNeeded(s: State)
    ensures RequestNeeded(s, true).tokenCalls
         == s.tokenCalls + Calls(Dispatch.AskedBy(FailureTimerFires, s.locker), s.locker.credentials)
  {
    Dispatch.GrantedMeansWanted(s.locker);
    if s.locker.credentials.Some? { Dispatch.GrantedAreRequested(s, s.locker.credentials.value); }
  }

  lemma ForcedAfterAttempt(s: State)
    requires Dispatch.Tidy(s.locker)
    ensures var t := AttemptRequests(s);
      && t.tokenCalls + Calls(Dispatch.AskedBy(FailureTimerFires, t.locker), t.locker.credentials)
         == s.tokenCalls + Calls(Dispatch.AskedBy(FailureTimerFires, s.locker), s.locker.credentials)
  {
    if !s.locker.connection.Unconnected? {
      AttemptCalls(s);
      Dispatch.AttemptKeepsSession(s);
      if s.locker.sessionState.CredentialsFailure? { Dispatch.BadCredentialsAskNothing(s); }
      else { Dispatch.NothingLeftToAsk(s); }
    }
  }

  lemma ForcedCalls(s: State)
    requires Dispatch.Tidy(s.locker)
    ensures RequestNeeded(AttemptRequests(s), true).tokenCalls
         == s.tokenCalls + Calls(Dispatch.AskedBy(FailureTimerFires, s.locker), s.locker.credentials)
  {
    ForcedNeeded(AttemptRequests(s));
    ForcedAfterAttempt(s);
  }

  lemma PreparedCalls(w: World, a: Action)
    requires Enabled(w, a) && Dispatch.Prepared(w, a).Some?
    ensures Dispatch.Prepared(w, a).value.tokenCalls == Unanswered(w, a)
  {
  }

  lemma UnpreparedCalls(w: World, a: Action)
    requires Enabled(w, a) && Dispatch.Prepared(w, a).None?
    ensures Effect(w, a).tokenCalls == Unanswered(w, a)
  {
  }

  /** The token requests that every action starts in every reachable state: how many, and with which
      credentials. Whether the failure timer is armed does not come into it. */
  lemma TokenRequestsStarted(actions: seq<Action>, a: Action)
    requires Enabled(Run(actions), a)
    ensures var w := Run(actions);
      var p := Dispatch.Prepared(w, a);
      Effect(w, a).tokenCalls
      == Unanswered(w, a) + if p.Some? then Calls(Started(w, a), p.value.locker.credentials) else []
  {
    var w := Run(actions);
    if Dispatch.Prepared(w, a).Some? {
      var p := Dispatch.Prepared(w, a).value;
      RequestConservation.RunKeepsInv(actions);
      Dispatch.PreparedIsTidy(w, a);
      PreparedCalls(w, a);
      if a.FailureTimerFires? { ForcedCalls(p); }
      else {
        Dispatch.EffectIsAttempt(w, a);
        if !p.locker.connection.Unconnected? { AttemptCalls(p); }
      }
    } else {
      UnpreparedCalls(w, a);
    }
  }

  /** The budget allows a token request, and the credentials are not known to be bad, or it is forced. */
  predicate MayAsk(a: Action, l: Locker) {
    && l.credentials.Some? && (l.sessionState.CredentialsFailure? ==> a.FailureTimerFires?)
    && ((l.tokenRequests == 0 && l.tokens == [] && l.checkedOut == map[])
        || (&& |l.waitingSt| > l.tokenRequests + |l.tokens|
            && l.tokenRequests < 4 && l.tokenRequests + |l.tokens| + |l.checkedOut| < 10))
  }

  /** The exact condition for a token request to be started: the handler attempts requests, with the
      connection up unless it is the failure timer's, and may ask. So also while the timer runs. */
  lemma AsksExactly(actions: seq<Action>, a: Action)
    requires Enabled(Run(actions), a)
    ensures var w := Run(actions);
      var p := Dispatch.Prepared(w, a);
      |Effect(w, a).tokenCalls| > |Unanswered(w, a)|
      <==> (&& p.Some? && (a.FailureTimerFires? || !p.value.locker.connection.Unconnected?)
            && MayAsk(a, p.value.locker))
  {
    var w := Run(actions);
    TokenRequestsStarted(actions, a);
    if Dispatch.Prepared(w, a).Some? { Dispatch.GrantedMeansWanted(Dispatch.Prepared(w, a).value.locker); }
  }

  const USER: Credentials := Email("user", "p")

  function Refused(e: ErrorCode): TokenResponse { TokenResponse(e, "", SessionToken("", "", "", 0)) }

  /** The account is locked, and a new request asks for a token at once. */
  const LOCKED_RUN: seq<Action> := [
    SetCredentials(USER), TokenAnswered(0, Refused(AccountTemporarilyLocked)), Call(true, 60)]

  function AfterLogin(): World {
    Start().(s := Initial().(tokenCalls := [USER], locker := Fresh().(
      sessionState := Initialized, changeCount := 1, credentials := Some(USER), tokenRequests := 1)))
  }

  lemma LoginStage()
    ensures Step(Start(), SetCredentials(USER)) == AfterLogin()
  {
    assert [] + [USER] == [USER];
  }

  function AfterLock(): World {
    AfterLogin().(s := AfterLogin().s.(tokenCalls := [], failureTimer := Timer(Some(600000), 0),
      locker := AfterLogin().s.locker.(
        tokenRequests := 0, connection := Connected, failureCount := 1, changeCount := 2,
        sessionState := ProlongedError(AccountTemporarilyLocked))))
  }

  lemma LockHandled()
    ensures HandleTokenResponse(AfterLogin().s, 0, Refused(AccountTemporarilyLocked), 0) == AfterLock().s
  {
    assert TokenCallAnswered(AfterLogin().s, 0).tokenCalls == [];
  }

  lemma LockStage()
    ensures Step(AfterLogin(), TokenAnswered(0, Refused(AccountTemporarilyLocked))) == AfterLock()
  {
    LockHandled();
  }

  lemma LockedCallStage()
    ensures var w := Step(AfterLock(), Call(true, 60));
      w.now == 0 && w.s.failureTimer.armed == Some(600000) && w.s.tokenCalls == [USER]
  {
  }

  /** session_maintainer.hpp:67-72 is not kept: at time 0 a token request is unanswered again, though the
      failure timer has ten minutes to run. */
  lemma AsksWhileLocked()
    ensures var w := Run(LOCKED_RUN);
      w.now == 0 && w.s.failureTimer.armed == Some(600000) && w.s.tokenCalls == [USER]
  {
    RunSteps(LOCKED_RUN, 0);
    RunSteps(LOCKED_RUN, 1);
    RunSteps(LOCKED_RUN, 2);
    assert LOCKED_RUN[..0] == [] && LOCKED_RUN[..3] == LOCKED_RUN;
    LoginStage();
    LockStage();
    LockedCallStage();
  }

  // ---- with bad credentials

  /** New credentials, or a token for the ones that are set. */
  predicate EndsFailure(w: World, a: Action)
    requires Enabled(w, a)
  {
    || (a.SetCredentials? && w.s.locker.credentials != Some(a.c))
    || (a.TokenAnswered? && a.token.error == NoError && w.s.locker.credentials == Some(w.s.tokenCalls[a.i]))
  }

  lemma PreparedFailure(w: World, a: Action)
    requires Enabled(w, a) && Dispatch.Prepared(w, a).Some? && w.s.locker.sessionState.CredentialsFailure?
    ensures Dispatch.Prepared(w, a).value.locker.sessionState.CredentialsFailure? <==> !EndsFailure(w, a)
  {
  }

  lemma TimerFindsSame(w: World)
    requires Enabled(w, FailureTimerFires)
    ensures Dispatch.Prepared(w, FailureTimerFires).value.locker == w.s.locker
  {
  }

  /** After a credentials failure only the failure timer asks for a token, once each time, until new
      credentials are set or a late success ends the failure. */
  lemma OnlyTimerAsks(actions: seq<Action>, a: Action)
    requires Enabled(Run(actions), a)
    requires Run(actions).s.locker.sessionState.CredentialsFailure? && !EndsFailure(Run(actions), a)
    ensures var w := Run(actions);
      && |Effect(w, a).tokenCalls| - |Unanswered(w, a)|
         == if a.FailureTimerFires? && w.s.locker.credentials.Some? && WantsToken(w.s.locker) then 1 else 0
  {
    var w := Run(actions);
    TokenRequestsStarted(actions, a);
    if Dispatch.Prepared(w, a).Some? {
      PreparedFailure(w, a);
      if a.FailureTimerFires? {
        TimerFindsSame(w);
        Dispatch.GrantedMeansWanted(w.s.locker);
      }
    }
  }

  // ---- which waits have run out

  /** The failures whose wait ran out, in the order in which the timer expired. */
  function WaitsOver(actions: seq<Action>): seq<FailedAt> {
    if actions == [] then []
    else
      var n := |actions| - 1;
      var over, last := WaitsOver(actions[..n]), LastFailure(actions[..n]);
      if actions[n].FailureTimerExpires? && Enabled(Run(actions[..n]), actions[n]) && last.Some?
      then over + [last.value] else over
  }

  /** How often the failure timer's handler ran. */
  function Firings(actions: seq<Action>): nat {
    if actions == [] then 0
    else
      var n := |actions| - 1;
      Firings(actions[..n])
      + if actions[n].FailureTimerFires? && Enabled(Run(actions[..n]), actions[n]) then 1 else 0
  }

  /** At that step a token request did fail, then and so. */
  ghost predicate Happened(actions: seq<Action>, f: FailedAt) {
    && f.step < |actions| && Fails(Run(actions[..f.step]), actions[f.step])
    && f.at == Run(actions[..f.step]).now && f.error == actions[f.step].token.error
  }

  ghost predicate Rising(fs: seq<FailedAt>) { forall i, j | 0 <= i < j < |fs| :: fs[i].step < fs[j].step }

  lemma HappenedBefore(actions: seq<Action>, f: FailedAt)
    requires actions != [] && Happened(actions[..|actions| - 1], f)
    ensures Happened(actions, f)
  {
    assert actions[..|actions| - 1][..f.step] == actions[..f.step];
  }

  lemma {:induction false} LastHappened(actions: seq<Action>)
    requires LastFailure(actions).Some?
    ensures Happened(actions, LastFailure(actions).value)
  {
    var n := |actions| - 1;
    if !Fails(Run(actions[..n]), actions[n]) {
      LastHappened(actions[..n]);
      HappenedBefore(actions, LastFailure(actions).value);
    }
  }

  /** A handler runs, or is queued, for each wait that ran out and for no other. */
  lemma {:induction false} EachWaitOnce(actions: seq<Action>)
    ensures |WaitsOver(actions)| == Firings(actions) + Run(actions).s.failureTimer.ready
  {
    if actions != [] {
      var n := |actions| - 1;
      var w, a := Run(actions[..n]), actions[n];
      EachWaitOnce(actions[..n]);
      WaitsForLastFailure(actions[..n]);
      if Enabled(w, a) {
        if Fails(w, a) { FailureSetsWait(w, a.i, a.token); } else { OthersKeepWait(w, a); }
      }
    }
  }

  lemma {:induction false} ClockRuns(actions: seq<Action>)
    requires actions != []
    ensures Run(actions[..|actions| - 1]).now <= Run(actions).now
  {
  }

  /** The waits that ran out are of different failures, and an armed timer is for a later one. */
  ghost predicate Accounted(actions: seq<Action>) {
    var timer, last, over := Run(actions).s.failureTimer, LastFailure(actions), WaitsOver(actions);
    && Rising(over) && (forall f | f in over :: Happened(actions, f) && WaitEnds(f) <= Run(actions).now)
    && (timer.armed.Some? ==> last.Some? && forall f | f in over :: f.step < last.value.step)
  }

  lemma OldWaitsStay(actions: seq<Action>)
    requires actions != [] && Accounted(actions[..|actions| - 1])
    ensures forall f | f in WaitsOver(actions[..|actions| - 1]) ::
              Happened(actions, f) && WaitEnds(f) <= Run(actions).now && f.step < |actions| - 1
  {
    var before := actions[..|actions| - 1];
    ClockRuns(actions);
    forall f | f in WaitsOver(before) ensures Happened(actions, f) { HappenedBefore(actions, f); }
  }

  lemma ExpiryAccounted(actions: seq<Action>)
    requires actions != [] && Accounted(actions[..|actions| - 1])
    requires var n := |actions| - 1; actions[n].FailureTimerExpires? && Enabled(Run(actions[..n]), actions[n])
    ensures Accounted(actions)
  {
    var before := actions[..|actions| - 1];
    OldWaitsStay(actions);
    ClockRuns(actions);
    WaitsForLastFailure(before);
    LastHappened(before);
    HappenedBefore(actions, LastFailure(before).value);
  }

  lemma OtherAccounted(actions: seq<Action>)
    requires actions != [] && Accounted(actions[..|actions| - 1])
    requires var n := |actions| - 1; !(actions[n].FailureTimerExpires? && Enabled(Run(actions[..n]), actions[n]))
    ensures Accounted(actions)
  {
    var n := |actions| - 1;
    var w, a := Run(actions[..n]), actions[n];
    OldWaitsStay(actions);
    if Enabled(w, a) && !Fails(w, a) { OthersKeepWait(w, a); }
  }

  lemma {:induction false} WaitsAreOver(actions: seq<Action>)
    ensures Accounted(actions)
  {
    if actions != [] {
      var n := |actions| - 1;
      WaitsAreOver(actions[..n]);
      if actions[n].FailureTimerExpires? && Enabled(Run(actions[..n]), actions[n]) { ExpiryAccounted(actions); }
      else { OtherAccounted(actions); }
    }
  }

  /** The waits space the token requests that bad credentials still allow. The k-th of them comes from the
      k-th firing of the timer, and no earlier than the end of the k-th wait that ran out: that of a
      failed token request which no other firing stands for. */
  lemma RefusedAsksAreSpaced(actions: seq<Action>, a: Action)
    requires Enabled(Run(actions), a)
    requires Run(actions).s.locker.sessionState.CredentialsFailure? && !EndsFailure(Run(actions), a)
    requires |Effect(Run(actions), a).tokenCalls| > |Unanswered(Run(actions), a)|
    ensures var k, over := Firings(actions), WaitsOver(actions);
      && a.FailureTimerFires? && |Effect(Run(actions), a).tokenCalls| == |Unanswered(Run(actions), a)| + 1
      && Firings(actions + [a]) == k + 1 && k < |over| && Rising(over)
      && Happened(actions, over[k]) && WaitEnds(over[k]) <= Run(actions).now
  {
    OnlyTimerAsks(actions, a);
    EachWaitOnce(actions);
    WaitsAreOver(actions);
    assert (actions + [a])[..|actions|] == actions;
  }

  /** But a later failure of another kind cuts the minute short: two token requests are under way, one is
      refused, and the other one fails otherwise. */
  const SHORT_RUN: seq<Action> := [
    SetCredentials(USER), Call(true, 60), Call(true, 60),
    TokenAnswered(0, Refused(CredentialsInvalid)), TokenAnswered(0, Refused(Failure(1))),
    Elapse(2500), FailureTimerExpires, FailureTimerFires]

  const FIRST: Request := Request(0, true, 60, 60)
  const SECOND: Request := Request(1, true, 60, 60)

  function AfterFirst(): World {
    var l := AfterLogin().s.locker;
    AfterLogin().(submitted := [FIRST], s := AfterLogin().s.(locker := l.(waitingSt := [FIRST],
      timeouts := EventQueue.Queue([EventQueue.Entry(60000, FIRST)], true, None, 1, None))))
  }

  function AfterSecond(): World {
    var l := AfterFirst().s.locker;
    AfterFirst().(submitted := [FIRST, SECOND], s := AfterFirst().s.(tokenCalls := [USER, USER],
      locker := l.(tokenRequests := 2, waitingSt := [FIRST, SECOND], timeouts := EventQueue.Queue(
        [EventQueue.Entry(60000, FIRST), EventQueue.Entry(60000, SECOND)], true, None, 2, None))))
  }

  function AfterRefusal(): World {
    var l := AfterSecond().s.locker;
    AfterSecond().(s := AfterSecond().s.(tokenCalls := [USER], failureTimer := Timer(Some(60000), 0),
      locker := l.(tokenRequests := 1, connection := Connected, failureCount := 1, changeCount := 2,
                   sessionState := CredentialsFailure(None, CredentialsInvalid))))
  }

  function AfterFailure(): World {
    var l := AfterRefusal().s.locker;
    AfterRefusal().(s := AfterRefusal().s.(tokenCalls := [], failureTimer := Timer(Some(2500), 0),
      locker := l.(tokenRequests := 0, failureCount := 2)))
  }

  lemma FirstStage()
    ensures Step(AfterLogin(), Call(true, 60)) == AfterFirst()
  {
    var l := AddWaiting(AfterLogin().s.locker, FIRST, 0);
    assert l == AfterFirst().s.locker;
  }

  lemma SecondStage()
    ensures Step(AfterFirst(), Call(true, 60)) == AfterSecond()
  {
    var l := AddWaiting(AfterFirst().s.locker, SECOND, 0);
    assert l == AfterSecond().s.locker.(tokenRequests := 1);
    assert RequestTokens(AfterFirst().s.(locker := l), USER) == AfterSecond().s;
  }

  /** The second token request is off the count, but not yet looked at. */
  function RefusalArrives(): State {
    AfterSecond().s.(tokenCalls := [USER],
      locker := AfterSecond().s.locker.(tokenRequests := 1, connection := Connected))
  }

  lemma RefusalReceived()
    ensures UpdateConnection(TokenCallAnswered(AfterSecond().s, 0), CredentialsInvalid, 0) == RefusalArrives()
  {
    assert TokenCallAnswered(AfterSecond().s, 0).tokenCalls == [USER];
  }

  lemma RefusalCounted()
    ensures TokenFailure(RefusalArrives(), USER, Refused(CredentialsInvalid), 0) == AfterRefusal().s
  {
  }

  lemma RefusalHandled()
    ensures HandleTokenResponse(AfterSecond().s, 0, Refused(CredentialsInvalid), 0) == AfterRefusal().s
  {
    RefusalReceived();
    RefusalCounted();
  }

  lemma RefusalStage()
    ensures Step(AfterSecond(), TokenAnswered(0, Refused(CredentialsInvalid))) == AfterRefusal()
  {
    RefusalHandled();
  }

  lemma FailureReceived()
    ensures UpdateConnection(TokenCallAnswered(AfterRefusal().s, 0), Failure(1), 0)
         == AfterRefusal().s.(tokenCalls := [], locker := AfterRefusal().s.locker.(tokenRequests := 0))
  {
    assert TokenCallAnswered(AfterRefusal().s, 0).tokenCalls == [];
  }

  lemma FailureHandled()
    ensures HandleTokenResponse(AfterRefusal().s, 0, Refused(Failure(1)), 0) == AfterFailure().s
  {
    FailureReceived();
  }

  lemma FailureStage()
    ensures Step(AfterRefusal(), TokenAnswered(0, Refused(Failure(1)))) == AfterFailure()
  {
    FailureHandled();
  }

  lemma ShortTimerStage()
    ensures var w := Step(Step(Step(AfterFailure(), Elapse(2500)), FailureTimerExpires), FailureTimerFires);
      w.now == 2500 && w.s.tokenCalls == [USER] && w.s.locker.sessionState.CredentialsFailure?
  {
  }

  lemma UpToSecond()
    ensures Run(SHORT_RUN[..3]) == AfterSecond()
  {
    RunSteps(SHORT_RUN, 0);
    RunSteps(SHORT_RUN, 1);
    RunSteps(SHORT_RUN, 2);
    assert SHORT_RUN[..0] == [];
    LoginStage();
    FirstStage();
    SecondStage();
  }

  lemma UpToRefusal()
    ensures Run(SHORT_RUN[..4]) == AfterRefusal()
  {
    UpToSecond();
    RunSteps(SHORT_RUN, 3);
    RefusalStage();
  }

  lemma UpToFailure()
    ensures Run(SHORT_RUN[..5]) == AfterFailure()
  {
    UpToRefusal();
    RunSteps(SHORT_RUN, 4);
    FailureStage();
  }

  lemma WholeRun()
    ensures SHORT_RUN[..8] == SHORT_RUN
  {
  }

  lemma UpToFiring()
    ensures Run(SHORT_RUN)
         == Step(Step(Step(AfterFailure(), Elapse(2500)), FailureTimerExpires), FailureTimerFires)
  {
    UpToFailure();
    RunSteps(SHORT_RUN, 5);
    RunStepsTwice(SHORT_RUN, 6);
    WholeRun();
  }

  /** 2.5 seconds after the credentials were refused, and still with them, a token is asked for again. */
  lemma MinuteCutShort()
    ensures Run(SHORT_RUN[..4]).now == 0 && Run(SHORT_RUN[..4]).s.locker.sessionState.CredentialsFailure?
    ensures var w := Run(SHORT_RUN);
      w.now == 2500 && w.s.tokenCalls == [USER] && w.s.locker.sessionState.CredentialsFailure?
  {
    UpToRefusal();
    UpToFiring();
    ShortTimerStage();
  }
}
