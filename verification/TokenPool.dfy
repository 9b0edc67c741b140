/** The bounded pool of session tokens: in every run it stays within its budget, holds tokens of
    the current credentials only, and holds anything at all only while the session is running. */
module TokenPool {
  import opened Basics
  import opened SessionTypes
  import opened SessionPool
  import opened Scheduler
  import opened SchedulerRuns
  import EventQueue

  ghost predicate Budget(s: State) {
    && s.locker.tokenRequests == |s.tokenCalls| <= MAX_TOKEN_REQUESTS
    && s.locker.tokenRequests + |s.locker.tokens| + |s.locker.checkedOut| <= MAX_TOKENS
  }

  predicate Holds(l: Locker) { l.tokens != [] || l.checkedOut != map[] }

  ghost predicate Current(t: SessionToken, l: Locker, issued: set<(string, Credentials)>) {
    l.credentials.Some? && (t.id, l.credentials.value) in issued
  }

  ghost predicate Provenance(l: Locker, issued: set<(string, Credentials)>) {
    && (Holds(l) ==> l.sessionState.Running?)
    && (l.credentials.None? <==> l.sessionState.Uninitialized?)
    && (forall t | t in l.tokens :: Current(t, l, issued))
    && (forall r | r in l.checkedOut :: Current(l.checkedOut[r], l, issued))
  }

  ghost predicate Pool(s: State, issued: set<(string, Credentials)>) {
    Budget(s) && Provenance(s.locker, issued)
  }

  lemma TokenlessStarts(s: State, issued: set<(string, Credentials)>)
    requires Pool(s, issued) && s.locker.waitingNonSt != []
    ensures Pool(StartOneTokenless(s), issued)
  {
  }

  lemma TokenStarts(s: State, issued: set<(string, Credentials)>)
    requires Pool(s, issued) && CanCheckOut(s.locker)
    ensures Pool(StartOneWithToken(s), issued)
  {
    var l := s.locker;
    assert l.tokens[|l.tokens| - 1] in l.tokens;
    var l' := StartOneWithToken(s).locker;
    assert forall t | t in l'.tokens :: t in l.tokens;
  }

  lemma {:induction false} AllTokenlessStart(s: State, issued: set<(string, Credentials)>)
    requires Pool(s, issued)
    ensures Pool(StartTokenless(s), issued)
    decreases |s.locker.waitingNonSt|
  {
    if s.locker.waitingNonSt != [] {
      TokenlessStarts(s, issued);
      AllTokenlessStart(StartOneTokenless(s), issued);
    }
  }

  lemma {:induction false} AllWithTokensStart(s: State, issued: set<(string, Credentials)>)
    requires Pool(s, issued)
    ensures Pool(StartWithTokens(s), issued)
    decreases |s.locker.waitingSt|
  {
    if CanCheckOut(s.locker) {
      TokenStarts(s, issued);
      AllWithTokensStart(StartOneWithToken(s), issued);
    }
  }

  lemma TokenRequested(s: State, c: Credentials, issued: set<(string, Credentials)>)
    requires Pool(s, issued) && WantsToken(s.locker)
    ensures Pool(RequestOneToken(s, c), issued)
  {
  }

  lemma {:induction false} AllTokensRequested(s: State, c: Credentials, issued: set<(string, Credentials)>)
    requires Pool(s, issued)
    ensures Pool(RequestTokens(s, c), issued)
    ensures !WantsToken(RequestTokens(s, c).locker)
    decreases MAX_TOKEN_REQUESTS - s.locker.tokenRequests
  {
    if WantsToken(s.locker) {
      TokenRequested(s, c, issued);
      AllTokensRequested(RequestOneToken(s, c), c, issued);
    }
  }

  lemma NeededRequested(s: State, force: bool, issued: set<(string, Credentials)>)
    requires Pool(s, issued)
    ensures Pool(RequestNeeded(s, force), issued)
  {
    if s.locker.credentials.Some? {
      AllTokensRequested(s, s.locker.credentials.value, issued);
      if WantsToken(s.locker) { TokenRequested(s, s.locker.credentials.value, issued); }
    }
  }

  lemma AttemptKeepsPool(s: State, issued: set<(string, Credentials)>)
    requires Pool(s, issued)
    ensures Pool(AttemptRequests(s), issued)
  {
    if !s.locker.connection.Unconnected? {
      AllTokenlessStart(s, issued);
      AllWithTokensStart(StartTokenless(s), issued);
      NeededRequested(StartWithTokens(StartTokenless(s)), false, issued);
    }
  }

  /** The pool and what it depends on are as before, except that one token may have been dropped or
      put back. */
  lemma ReuseKeepsPool(s: State, r: Request, newKey: bool, issued: set<(string, Credentials)>)
    requires Pool(s, issued)
    ensures Pool(s.(locker := DropToken(s.locker, r)), issued)
    ensures Pool(s.(locker := ReuseToken(s.locker, r, newKey)), issued)
  {
    var l := DropToken(s.locker, r);
    assert l.checkedOut.Keys == s.locker.checkedOut.Keys - {r};
    assert |l.checkedOut| == |l.checkedOut.Keys| && |s.locker.checkedOut| == |s.locker.checkedOut.Keys|;
    assert l.checkedOut != map[] ==> s.locker.checkedOut != map[];
  }

  ghost predicate SamePool(s: State, s': State) {
    && s'.locker.sessionState == s.locker.sessionState && s'.locker.credentials == s.locker.credentials
    && s'.locker.tokens == s.locker.tokens && s'.locker.checkedOut == s.locker.checkedOut
    && s'.locker.tokenRequests == s.locker.tokenRequests && s'.tokenCalls == s.tokenCalls
  }

  lemma SamePoolThenAttempt(s: State, s': State, issued: set<(string, Credentials)>)
    requires Pool(s, issued) && SamePool(s, s')
    ensures Pool(s', issued) && Pool(AttemptRequests(s'), issued)
  {
    AttemptKeepsPool(s', issued);
  }

  lemma CompleteKeepsPool(s: State, r: Request, response: ApiResponse, issued: set<(string, Credentials)>)
    requires Pool(s, issued)
    ensures Pool(Complete(s, r, response), issued)
  {
    var s' := s.(locker := RemoveInProgress(s.locker, r));
    SamePoolThenAttempt(s, s', issued);
    ReuseKeepsPool(s', r, response.newKey, issued);
    AttemptKeepsPool(s'.(locker := DropToken(s'.locker, r)), issued);
    AttemptKeepsPool(s'.(locker := ReuseToken(s'.locker, r, response.newKey)), issued);
  }

  lemma RetryKeepsPool(s: State, r: Request, response: ApiResponse, now: Time, issued: set<(string, Credentials)>)
    requires Pool(s, issued)
    ensures Pool(Retry(s, r, response, now), issued)
  {
    var w := s.(locker := InProgressToWaiting(s.locker, r));
    var d := s.(locker := InProgressToDelayed(s.locker, r, 1, now));
    SamePoolThenAttempt(s, w, issued);
    SamePoolThenAttempt(s, d, issued);
    ReuseKeepsPool(w, r, response.newKey, issued);
    ReuseKeepsPool(d, r, response.newKey, issued);
    AttemptKeepsPool(w.(locker := DropToken(w.locker, r)), issued);
    AttemptKeepsPool(d.(locker := ReuseToken(d.locker, r, response.newKey)), issued);
  }

  lemma ApiAnswerKeepsPool(s: State, r: Request, response: ApiResponse, now: Time, issued: set<(string, Credentials)>)
    requires Pool(s, issued)
    ensures Pool(HandleApiResponse(s, r, response, now), issued)
  {
    var s' := UpdateConnection(s, response.error, now);
    SamePoolThenAttempt(s, s', issued);
    if Retries(r, response, now) { RetryKeepsPool(s', r, response, now, issued); }
    else { CompleteKeepsPool(s', r, response, issued); }
  }

  /** New credentials are recorded only while the pool is empty, or empty it. */
  lemma CredentialsKeepPool(s: State, c: Credentials, issued: set<(string, Credentials)>)
    requires Pool(s, issued)
    ensures Pool(SetLoginCredentials(s, c), issued)
  {
    AttemptKeepsPool(s.(locker := SessionPool.SetCredentials(s.locker, c)), issued);
  }

  /** A token request was answered but nothing is stored yet: there is room for one token. */
  ghost predicate RoomForOne(s: State, issued: set<(string, Credentials)>) {
    && Pool(s, issued)
    && s.locker.tokenRequests + |s.locker.tokens| + |s.locker.checkedOut| < MAX_TOKENS
  }

  lemma TokenSuccessKeepsPool(s: State, c: Credentials, response: TokenResponse, issued: set<(string, Credentials)>)
    requires RoomForOne(s, issued) && (response.token.id, c) in issued
    ensures Pool(TokenSuccess(s, c, response), issued)
  {
    var l := s.locker.(failureCount := 0);
    var added := AddToken(l, response.token, c);
    var running := SessionState.Running(response.token.id, response.token.pkey);
    if l.credentials == Some(c) {
      if l.sessionState.Running? { AttemptKeepsPool(s.(locker := added), issued); }
      else { AttemptKeepsPool(s.(locker := ChangeState(added, running)), issued); }
    } else {
      AttemptKeepsPool(s.(locker := added), issued);
    }
  }

  lemma RefusalKeepsPool(s: State, c: Credentials, response: TokenResponse, now: Time,
                         issued: set<(string, Credentials)>)
    requires Pool(s, issued) && IsInvalidCredentialsError(response.error)
    ensures Pool(TokenFailure(s, c, response, now), issued)
  {
  }

  lemma OtherFailureKeepsPool(s: State, c: Credentials, response: TokenResponse, now: Time,
                              issued: set<(string, Credentials)>)
    requires Pool(s, issued) && !IsInvalidCredentialsError(response.error)
    ensures Pool(TokenFailure(s, c, response, now), issued)
  {
  }

  lemma TokenFailureKeepsPool(s: State, c: Credentials, response: TokenResponse, now: Time,
                              issued: set<(string, Credentials)>)
    requires Pool(s, issued)
    ensures Pool(TokenFailure(s, c, response, now), issued)
  {
    if IsInvalidCredentialsError(response.error) { RefusalKeepsPool(s, c, response, now, issued); }
    else { OtherFailureKeepsPool(s, c, response, now, issued); }
  }

  lemma TokenAnswerKeepsPool(w: World, i: nat, response: TokenResponse)
    requires Pool(w.s, w.issued) && Enabled(w, TokenAnswered(i, response))
    ensures var w' := Step(w, TokenAnswered(i, response)); Pool(w'.s, w'.issued)
  {
    var issued := Step(w, TokenAnswered(i, response)).issued;
    var s := UpdateConnection(TokenCallAnswered(w.s, i), response.error, w.now);
    assert RoomForOne(s, issued);
    if response.error == NoError { TokenSuccessKeepsPool(s, w.s.tokenCalls[i], response, issued); }
    else { TokenFailureKeepsPool(s, w.s.tokenCalls[i], response, w.now, issued); }
  }

  lemma TimersKeepPool(s: State, issued: set<(string, Credentials)>)
    requires Pool(s, issued)
    ensures s.failureTimer.ready > 0 ==> Pool(HandleFailureTimeout(s), issued)
    ensures s.recheckTimer.ready > 0 ==> Pool(HandleRecheckTimeout(s), issued)
  {
    if s.failureTimer.ready > 0 {
      var s' := s.(failureTimer := s.failureTimer.(ready := s.failureTimer.ready - 1));
      AttemptKeepsPool(s', issued);
      NeededRequested(AttemptRequests(s'), true, issued);
    }
    if s.recheckTimer.ready > 0 {
      AttemptKeepsPool(s.(recheckTimer := s.recheckTimer.(ready := s.recheckTimer.ready - 1)), issued);
    }
  }

  lemma WaitingKeepsPool(s: State, l: Locker, r: Request, now: Time, issued: set<(string, Credentials)>)
    requires Pool(s, issued) && SamePool(s, s.(locker := l))
    ensures Pool(AddWaitingRequest(s.(locker := l), r, now), issued)
  {
    SamePoolThenAttempt(s, s.(locker := AddWaiting(l, r, now)), issued);
  }

  lemma StatusSamePool(s: State, e: ErrorCode, now: Time)
    requires s.statusChecks > 0
    ensures SamePool(s, UpdateConnection(s.(statusChecks := s.statusChecks - 1), e, now))
  {
  }

  lemma StatusKeepsPool(s: State, e: ErrorCode, now: Time, issued: set<(string, Credentials)>)
    requires Pool(s, issued) && s.statusChecks > 0
    ensures Pool(HandleStatusResponse(s, e, now), issued)
  {
    StatusSamePool(s, e, now);
    SamePoolThenAttempt(s, UpdateConnection(s.(statusChecks := s.statusChecks - 1), e, now), issued);
  }

  lemma QueuesKeepPool(w: World, a: Action)
    requires Pool(w.s, w.issued) && Enabled(w, a) && (a.Timeouts? || a.Delayed?)
    ensures Pool(Effect(w, a), w.issued)
  {
    if a == Delayed(Delivers) {
      var l := w.s.locker.(delayed := EventQueue.Deliver(w.s.locker.delayed));
      WaitingKeepsPool(w.s, l, w.s.locker.delayed.data[0].event, w.now, w.issued);
    }
  }

  lemma StepKeepsPool(w: World, a: Action)
    requires Pool(w.s, w.issued)
    ensures Pool(Step(w, a).s, Step(w, a).issued)
  {
    if Enabled(w, a) {
      match a
      case SetCredentials(c) => CredentialsKeepPool(w.s, c, w.issued);
      case Call(usesToken, timeoutSeconds) =>
        var r := NewRequest(|w.submitted|, usesToken, timeoutSeconds, w.now);
        WaitingKeepsPool(w.s, w.s.locker, r, w.now, w.issued);
      case TokenAnswered(i, response) => TokenAnswerKeepsPool(w, i, response);
      case ApiAnswered(r, response) => ApiAnswerKeepsPool(w.s, r, response, w.now, w.issued);
      case StatusAnswered(e) => StatusKeepsPool(w.s, e, w.now, w.issued);
      case FailureTimerFires => TimersKeepPool(w.s, w.issued);
      case RecheckTimerFires => TimersKeepPool(w.s, w.issued);
      case Delayed(_) => QueuesKeepPool(w, a);
      case Timeouts(_) => QueuesKeepPool(w, a);
      case _ =>
    }
  }

  lemma {:induction false} RunKeepsPool(actions: seq<Action>)
    ensures Pool(Run(actions).s, Run(actions).issued)
  {
    if actions != [] {
      RunKeepsPool(actions[..|actions| - 1]);
      StepKeepsPool(Run(actions[..|actions| - 1]), actions[|actions| - 1]);
    }
  }

  /** Outstanding requests, stored and checked-out tokens together never exceed the maximum, and the
      counter the class keeps is the number of unanswered token requests. */
  lemma TokenBudget(actions: seq<Action>)
    ensures var s := Run(actions).s;
      && s.locker.tokenRequests == |s.tokenCalls| <= 4
      && |s.tokenCalls| + |s.locker.tokens| + |s.locker.checkedOut| <= 10
  {
    RunKeepsPool(actions);
  }

  /** The assert that the counter is positive when a token request is answered never fires: every
      unanswered request can be answered. */
  lemma CounterAssertHolds(actions: seq<Action>, i: nat, response: TokenResponse)
    ensures Enabled(Run(actions), TokenAnswered(i, response)) <==> i < |Run(actions).s.tokenCalls|
  {
    TokenBudget(actions);
  }

  /** Whatever the order of credential changes and late answers, each stored or checked-out token
      was obtained with the credentials now set, and the session is running. */
  lemma TokensAreCurrent(actions: seq<Action>, t: SessionToken)
    requires var l := Run(actions).s.locker;
      t in l.tokens || (exists r :: r in l.checkedOut && l.checkedOut[r] == t)
    ensures var w := Run(actions);
      && w.s.locker.sessionState.Running? && w.s.locker.credentials.Some?
      && (t.id, w.s.locker.credentials.value) in w.issued
  {
    RunKeepsPool(actions);
  }

  /** The action at `n` answered a token request made with `c`, and the answer was token `id`. */
  ghost predicate AnsweredAt(actions: seq<Action>, n: nat, id: string, c: Credentials) {
    && n < |actions| && actions[n].TokenAnswered?
    && var calls := Run(actions[..n]).s.tokenCalls;
    && actions[n].i < |calls| && calls[actions[n].i] == c
    && actions[n].token.error == NoError && actions[n].token.token.id == id
  }

  /** The history is what happened: a token is on record for some credentials only if a request
      made with them was answered with it. */
  lemma {:induction false} IssuedWasAnswered(actions: seq<Action>, id: string, c: Credentials)
    requires (id, c) in Run(actions).issued
    ensures exists n: nat :: AnsweredAt(actions, n, id, c)
    decreases |actions|
  {
    var last := |actions| - 1;
    if (id, c) in Run(actions[..last]).issued {
      IssuedWasAnswered(actions[..last], id, c);
      var n: nat :| AnsweredAt(actions[..last], n, id, c);
      assert actions[..last][..n] == actions[..n];
      assert AnsweredAt(actions, n, id, c);
    } else {
      assert AnsweredAt(actions, last, id, c);
    }
  }
}
