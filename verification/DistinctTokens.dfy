/** With a server that never repeats a token, no token is ever in the pool twice: not stored twice,
    not checked out to two requests, and not stored while checked out. */
module DistinctTokens {
  import opened Basics
  import opened SessionTypes
  import opened SessionPool
  import opened Scheduler
  import opened SchedulerRuns
  import EventQueue
  import RequestConservation

  ghost predicate Distinct(l: Locker, known: set<string>) {
    && (forall i, j | 0 <= i < j < |l.tokens| :: l.tokens[i].id != l.tokens[j].id)
    && (forall r, q | r in l.checkedOut && q in l.checkedOut && r != q :: l.checkedOut[r].id != l.checkedOut[q].id)
    && (forall i, r | 0 <= i < |l.tokens| && r in l.checkedOut :: l.tokens[i].id != l.checkedOut[r].id)
    && (forall i | 0 <= i < |l.tokens| :: l.tokens[i].id in known)
    && (forall r | r in l.checkedOut :: l.checkedOut[r].id in known)
  }

  ghost function Known(w: World): set<string> { set p | p in w.issued :: p.0 }

  lemma TokenStarts(s: State, known: set<string>)
    requires Distinct(s.locker, known) && CanCheckOut(s.locker)
    ensures Distinct(StartOneWithToken(s).locker, known)
  {
  }

  lemma {:induction false} AllWithTokensStart(s: State, known: set<string>)
    requires Distinct(s.locker, known)
    ensures Distinct(StartWithTokens(s).locker, known)
    decreases |s.locker.waitingSt|
  {
    if CanCheckOut(s.locker) {
      TokenStarts(s, known);
      AllWithTokensStart(StartOneWithToken(s), known);
    }
  }

  /** The first loop of AttemptRequests and token requests leave the pool alone. */
  lemma {:induction false} TokenlessLeavesPool(s: State)
    ensures var l := StartTokenless(s).locker;
      l.tokens == s.locker.tokens && l.checkedOut == s.locker.checkedOut
    decreases |s.locker.waitingNonSt|
  {
    if s.locker.waitingNonSt != [] { TokenlessLeavesPool(StartOneTokenless(s)); }
  }

  lemma AttemptKeepsDistinct(s: State, known: set<string>)
    requires Distinct(s.locker, known)
    ensures Distinct(AttemptRequests(s).locker, known)
  {
    TokenlessLeavesPool(s);
    AllWithTokensStart(StartTokenless(s), known);
    RequestConservation.RequestNeededMovesNothing(StartWithTokens(StartTokenless(s)), false);
  }

  ghost predicate Fewer(l: Locker, l': Locker) {
    && (l'.tokens == l.tokens || l'.tokens == [])
    && (forall r | r in l'.checkedOut :: r in l.checkedOut && l'.checkedOut[r] == l.checkedOut[r])
  }

  lemma FewerThenAttempt(s: State, s': State, known: set<string>)
    requires Distinct(s.locker, known) && Fewer(s.locker, s'.locker)
    ensures Distinct(s'.locker, known) && Distinct(AttemptRequests(s').locker, known)
  {
    AttemptKeepsDistinct(s', known);
  }

  lemma ReuseKeepsDistinct(l: Locker, r: Request, newKey: bool, known: set<string>)
    requires Distinct(l, known)
    ensures Distinct(ReuseToken(l, r, newKey), known)
  {
  }

  lemma ReuseThenAttempt(s: State, r: Request, newKey: bool, known: set<string>)
    requires Distinct(s.locker, known)
    ensures Distinct(AttemptRequests(s.(locker := ReuseToken(s.locker, r, newKey))).locker, known)
    ensures Distinct(AttemptRequests(s.(locker := DropToken(s.locker, r))).locker, known)
  {
    ReuseKeepsDistinct(s.locker, r, newKey, known);
    AttemptKeepsDistinct(s.(locker := ReuseToken(s.locker, r, newKey)), known);
    FewerThenAttempt(s, s.(locker := DropToken(s.locker, r)), known);
  }

  lemma ApiAnswerKeepsDistinct(s: State, r: Request, response: ApiResponse, now: Time, known: set<string>)
    requires Distinct(s.locker, known)
    ensures Distinct(HandleApiResponse(s, r, response, now).locker, known)
  {
    var s' := UpdateConnection(s, response.error, now);
    if Retries(r, response, now) {
      ReuseThenAttempt(s'.(locker := InProgressToWaiting(s'.locker, r)), r, response.newKey, known);
      ReuseThenAttempt(s'.(locker := InProgressToDelayed(s'.locker, r, 1, now)), r, response.newKey, known);
    } else {
      ReuseThenAttempt(s'.(locker := RemoveInProgress(s'.locker, r)), r, response.newKey, known);
    }
  }

  lemma AddKeepsDistinct(l: Locker, t: SessionToken, c: Credentials, known: set<string>)
    requires Distinct(l, known) && t.id !in known
    ensures Distinct(AddToken(l, t, c), known + {t.id})
  {
  }

  lemma TokenSuccessKeepsDistinct(s: State, c: Credentials, response: TokenResponse, known: set<string>)
    requires Distinct(s.locker, known) && response.token.id !in known
    ensures Distinct(TokenSuccess(s, c, response).locker, known + {response.token.id})
  {
    var l := s.locker.(failureCount := 0);
    AddKeepsDistinct(l, response.token, c, known);
    var added := AddToken(l, response.token, c);
    var running := SessionState.Running(response.token.id, response.token.pkey);
    var known' := known + {response.token.id};
    AttemptKeepsDistinct(s.(locker := added), known');
    FewerThenAttempt(s.(locker := added), s.(locker := ChangeState(added, running)), known');
  }

  lemma TokenFailureKeepsDistinct(s: State, c: Credentials, response: TokenResponse, now: Time, known: set<string>)
    requires Distinct(s.locker, known)
    ensures Distinct(TokenFailure(s, c, response, now).locker, known)
  {
    assert Fewer(s.locker, TokenFailure(s, c, response, now).locker);
  }

  lemma TokenAnswerKeepsDistinct(s: State, i: nat, response: TokenResponse, now: Time, known: set<string>)
    requires Distinct(s.locker, known) && i < |s.tokenCalls| && s.locker.tokenRequests > 0
    requires response.error == NoError ==> response.token.id !in known
    ensures Distinct(HandleTokenResponse(s, i, response, now).locker,
                     if response.error == NoError then known + {response.token.id} else known)
  {
    var s' := UpdateConnection(TokenCallAnswered(s, i), response.error, now);
    if response.error == NoError { TokenSuccessKeepsDistinct(s', s.tokenCalls[i], response, known); }
    else { TokenFailureKeepsDistinct(s', s.tokenCalls[i], response, now, known); }
  }

  lemma CredentialsKeepDistinct(s: State, c: Credentials, known: set<string>)
    requires Distinct(s.locker, known)
    ensures Distinct(SetLoginCredentials(s, c).locker, known)
  {
    FewerThenAttempt(s, s.(locker := SessionPool.SetCredentials(s.locker, c)), known);
  }

  lemma StatusKeepsDistinct(s: State, e: ErrorCode, now: Time, known: set<string>)
    requires Distinct(s.locker, known) && s.statusChecks > 0
    ensures Distinct(HandleStatusResponse(s, e, now).locker, known)
  {
    FewerThenAttempt(s, UpdateConnection(s.(statusChecks := s.statusChecks - 1), e, now), known);
  }

  lemma TimersKeepDistinct(s: State, known: set<string>)
    requires Distinct(s.locker, known)
    ensures s.failureTimer.ready > 0 ==> Distinct(HandleFailureTimeout(s).locker, known)
    ensures s.recheckTimer.ready > 0 ==> Distinct(HandleRecheckTimeout(s).locker, known)
  {
    if s.failureTimer.ready > 0 {
      var s' := s.(failureTimer := s.failureTimer.(ready := s.failureTimer.ready - 1));
      AttemptKeepsDistinct(s', known);
      RequestConservation.RequestNeededMovesNothing(AttemptRequests(s'), true);
    }
    if s.recheckTimer.ready > 0 {
      AttemptKeepsDistinct(s.(recheckTimer := s.recheckTimer.(ready := s.recheckTimer.ready - 1)), known);
    }
  }

  lemma WaitingKeepsDistinct(s: State, l: Locker, r: Request, now: Time, known: set<string>)
    requires Distinct(s.locker, known) && l.tokens == s.locker.tokens && l.checkedOut == s.locker.checkedOut
    ensures Distinct(AddWaitingRequest(s.(locker := l), r, now).locker, known)
  {
    FewerThenAttempt(s, s.(locker := AddWaiting(l, r, now)), known);
  }

  lemma QueuesKeepDistinct(w: World, a: Action, known: set<string>)
    requires Distinct(w.s.locker, known) && Enabled(w, a) && (a.Timeouts? || a.Delayed?)
    ensures Distinct(Effect(w, a).locker, known)
  {
    if a == Delayed(Delivers) {
      var l := w.s.locker.(delayed := EventQueue.Deliver(w.s.locker.delayed));
      WaitingKeepsDistinct(w.s, l, w.s.locker.delayed.data[0].event, w.now, known);
    }
  }

  /** The server's answer, if the action is one, carries a token it never gave before. */
  ghost predicate NewToken(w: World, a: Action) {
    a.TokenAnswered? && a.token.error == NoError ==> a.token.token.id !in Known(w)
  }

  ghost predicate NeverRepeats(actions: seq<Action>) {
    forall n | 0 <= n < |actions| :: NewToken(Run(actions[..n]), actions[n])
  }

  lemma KnownGrows(w: World, a: Action)
    requires Enabled(w, a)
    ensures Known(Step(w, a)) == if a.TokenAnswered? && a.token.error == NoError
      then Known(w) + {a.token.token.id} else Known(w)
  {
    var w' := Step(w, a);
    if a.TokenAnswered? && a.token.error == NoError {
      var p := (a.token.token.id, w.s.tokenCalls[a.i]);
      assert w'.issued == w.issued + {p} && p in w'.issued && p.0 in Known(w');
      forall id | id in Known(w) ensures id in Known(w') {
        var p :| p in w.issued && p.0 == id;
        assert p in w'.issued;
      }
    }
  }

  lemma StepKeepsDistinct(w: World, a: Action)
    requires Distinct(w.s.locker, Known(w)) && NewToken(w, a)
    ensures Distinct(Step(w, a).s.locker, Known(Step(w, a)))
  {
    if Enabled(w, a) {
      KnownGrows(w, a);
      match a
      case SetCredentials(c) => CredentialsKeepDistinct(w.s, c, Known(w));
      case Call(usesToken, timeoutSeconds) =>
        var r := NewRequest(|w.submitted|, usesToken, timeoutSeconds, w.now);
        WaitingKeepsDistinct(w.s, w.s.locker, r, w.now, Known(w));
      case TokenAnswered(i, response) => TokenAnswerKeepsDistinct(w.s, i, response, w.now, Known(w));
      case ApiAnswered(r, response) => ApiAnswerKeepsDistinct(w.s, r, response, w.now, Known(w));
      case StatusAnswered(e) => StatusKeepsDistinct(w.s, e, w.now, Known(w));
      case FailureTimerFires => TimersKeepDistinct(w.s, Known(w));
      case RecheckTimerFires => TimersKeepDistinct(w.s, Known(w));
      case Delayed(_) => QueuesKeepDistinct(w, a, Known(w));
      case Timeouts(_) => QueuesKeepDistinct(w, a, Known(w));
      case _ =>
    }
  }

  lemma {:induction false} RunKeepsDistinct(actions: seq<Action>)
    requires NeverRepeats(actions)
    ensures Distinct(Run(actions).s.locker, Known(Run(actions)))
  {
    if actions != [] {
      var n := |actions| - 1;
      assert NeverRepeats(actions[..n]) by {
        forall m | 0 <= m < n ensures NewToken(Run(actions[..n][..m]), actions[..n][m]) {
          assert actions[..n][..m] == actions[..m];
          assert NewToken(Run(actions[..m]), actions[m]);
        }
      }
      RunKeepsDistinct(actions[..n]);
      assert NewToken(Run(actions[..n]), actions[n]);
      StepKeepsDistinct(Run(actions[..n]), actions[n]);
    }
  }

  /** A token is held by at most one request at a time, and never stored while held. */
  lemma HeldOnce(actions: seq<Action>, r: Request, q: Request)
    requires NeverRepeats(actions)
    requires var l := Run(actions).s.locker; r in l.checkedOut && q in l.checkedOut
    ensures var l := Run(actions).s.locker;
      && (l.checkedOut[r].id == l.checkedOut[q].id ==> r == q)
      && (forall i | 0 <= i < |l.tokens| :: l.tokens[i].id != l.checkedOut[r].id)
  {
    RunKeepsDistinct(actions);
  }

  /** Checking out takes nothing from a request that already holds a token, as std::map::insert does not. */
  lemma CheckOutTakesNothing(l: Locker, r: Request, t: SessionToken, q: Request)
    ensures var l' := CheckOut(l, r, t);
      && (q in l'.checkedOut <==> q in l.checkedOut || q == r)
      && (q in l'.checkedOut ==> l'.checkedOut[q] == if q in l.checkedOut then l.checkedOut[q] else t)
  {
  }

  /** The class asserts, before it stores a token, that none with the same id is stored. That holds
      for a token just obtained and for one a request gives back. */
  lemma StoreAssertsHold(actions: seq<Action>, a: Action, i: nat)
    requires NeverRepeats(actions) && NewToken(Run(actions), a) && Enabled(Run(actions), a)
    requires i < |Run(actions).s.locker.tokens|
    ensures var l := Run(actions).s.locker;
      && (a.TokenAnswered? && a.token.error == NoError ==> l.tokens[i].id != a.token.token.id)
      && (a.ApiAnswered? && a.r in l.checkedOut ==> l.tokens[i].id != l.checkedOut[a.r].id)
  {
    RunKeepsDistinct(actions);
  }
}
