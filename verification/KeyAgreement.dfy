/** Client and server advance a token's secret key in lock-step. The scheduler's runs are joined
    with the server side of the protocol: a server that renews the key of the token a request was
    signed with, at any moment between the request and its answer. */
module KeyAgreement {
  import opened Basics
  import opened SessionTypes
  import opened SessionPool
  import opened Scheduler
  import opened SchedulerRuns
  import EventQueue
  import SecretKey
  import RequestConservation
  import DistinctTokens

  /** The server's record of a token: the key it gave out, how often it renewed it since, and the time
      of issue. */
  datatype ServerKey = ServerKey(initial: int, renewals: nat, time: string)

  /** What it records when it gives a token out. */
  function Issued(t: SessionToken): ServerKey { ServerKey(t.secretKey, 0, t.time) }

  function KeyNow(k: ServerKey): int { SecretKey.KeyAfter(k.initial, k.renewals) }

  /** `renewed` are the unanswered requests for which the server has already renewed the key. */
  datatype Both = Both(w: World, server: map<string, ServerKey>, renewed: set<Request>)

  datatype Move = Client(a: Action) | ServerRenews(r: Request)

  function Begin(): Both { Both(Start(), map[], {}) }

  /** The answer tells the client of a renewal exactly if there was one: no response is lost. */
  predicate Delivered(b: Both, a: Action) {
    a.ApiAnswered? ==> (a.api.newKey <==> a.r in b.renewed)
  }

  /** The server never gives out a token twice. */
  predicate GivesNew(b: Both, a: Action) {
    a.TokenAnswered? && a.token.error == NoError ==> a.token.token.id !in b.server
  }

  predicate MoveEnabled(b: Both, m: Move) {
    match m
    case Client(a) => Enabled(b.w, a) && Delivered(b, a) && GivesNew(b, a)
    case ServerRenews(r) =>
      && r.usesToken && r in b.w.s.locker.inProgress && r !in b.renewed
      && r in b.w.s.sentWith && b.w.s.sentWith[r].id in b.server
  }

  function MoveStep(b: Both, m: Move): Both {
    if !MoveEnabled(b, m) then b
    else match m
      case Client(a) =>
        Both(Step(b.w, a),
             if a.TokenAnswered? && a.token.error == NoError
             then b.server[a.token.token.id := Issued(a.token.token)] else b.server,
             if a.ApiAnswered? then b.renewed - {a.r} else b.renewed)
      case ServerRenews(r) =>
        var id := b.w.s.sentWith[r].id;
        var k := b.server[id];
        b.(server := b.server[id := k.(renewals := k.renewals + 1)], renewed := b.renewed + {r})
  }

  function Play(moves: seq<Move>): Both {
    if moves == [] then Begin() else MoveStep(Play(moves[..|moves| - 1]), moves[|moves| - 1])
  }

  ghost predicate Fits(t: SessionToken, server: map<string, ServerKey>, ahead: bool) {
    && t.id in server && server[t.id].time == t.time
    && KeyNow(server[t.id]) == if ahead then SecretKey.NextKey(t.secretKey) else t.secretKey
  }

  /** The token `id` is not in the pool. */
  ghost predicate Gone(l: Locker, id: string) {
    && (forall i | 0 <= i < |l.tokens| :: l.tokens[i].id != id)
    && (forall r | r in l.checkedOut :: l.checkedOut[r].id != id)
  }

  /** A stored token has the server's key; a checked-out one lags behind exactly while the answer
      that announces the renewal is on its way. A request in flight that lost its token can only
      touch the key of a token that is gone from the pool. */
  ghost predicate InSync(s: State, server: map<string, ServerKey>, renewed: set<Request>) {
    var l := s.locker;
    && (forall i | 0 <= i < |l.tokens| :: Fits(l.tokens[i], server, false))
    && (forall r | r in l.checkedOut ::
          && r in s.sentWith && s.sentWith[r] == l.checkedOut[r]
          && Fits(l.checkedOut[r], server, r in renewed))
    && (forall r | r in l.inProgress && r.usesToken ::
          && r in s.sentWith && s.sentWith[r].id in server
          && (r in l.checkedOut || Gone(l, s.sentWith[r].id)))
    && renewed <= l.inProgress
  }

  ghost predicate Good(s: State, server: map<string, ServerKey>, renewed: set<Request>, live: set<Request>) {
    && RequestConservation.Placed(s.locker, live) && DistinctTokens.Distinct(s.locker, server.Keys)
    && InSync(s, server, renewed)
  }

  lemma TokenlessStarts(s: State, server: map<string, ServerKey>, renewed: set<Request>, live: set<Request>)
    requires Good(s, server, renewed, live) && s.locker.waitingNonSt != []
    ensures Good(StartOneTokenless(s), server, renewed, live)
  {
    RequestConservation.TokenlessStarts(s, live);
    var s', r := StartOneTokenless(s), s.locker.waitingNonSt[0];
    assert forall id | Gone(s.locker, id) :: Gone(s'.locker, id);
    assert !r.usesToken;
  }

  lemma TokenStarts(s: State, server: map<string, ServerKey>, renewed: set<Request>, live: set<Request>)
    requires Good(s, server, renewed, live) && CanCheckOut(s.locker)
    ensures Good(StartOneWithToken(s), server, renewed, live)
  {
    var l, l' := s.locker, StartOneWithToken(s).locker;
    var r, n := l.waitingSt[0], |l.tokens| - 1;
    RequestConservation.TokenStarts(s, live);
    DistinctTokens.TokenStarts(s, server.Keys);
    RequestConservation.OnePlace(l, live, r);
    assert r !in l.inProgress && r !in l.checkedOut;
    forall id | Gone(l, id) ensures Gone(l', id) { assert l.tokens[n].id != id; }
  }

  lemma {:induction false} AllTokenlessStart(s: State,
                                             server: map<string, ServerKey>, renewed: set<Request>, live: set<Request>)
    requires Good(s, server, renewed, live)
    ensures Good(StartTokenless(s), server, renewed, live)
    decreases |s.locker.waitingNonSt|
  {
    if s.locker.waitingNonSt != [] {
      TokenlessStarts(s, server, renewed, live);
      AllTokenlessStart(StartOneTokenless(s), server, renewed, live);
    }
  }

  lemma {:induction false} AllWithTokensStart(s: State,
                                              server: map<string, ServerKey>, renewed: set<Request>, live: set<Request>)
    requires Good(s, server, renewed, live)
    ensures Good(StartWithTokens(s), server, renewed, live)
    decreases |s.locker.waitingSt|
  {
    if CanCheckOut(s.locker) {
      TokenStarts(s, server, renewed, live);
      AllWithTokensStart(StartOneWithToken(s), server, renewed, live);
    }
  }

  /** The parts of the scheduler that matter here are as they were. */
  ghost predicate Same(s: State, s': State) {
    && s'.locker.tokens == s.locker.tokens && s'.locker.checkedOut == s.locker.checkedOut
    && s'.locker.inProgress == s.locker.inProgress && s'.sentWith == s.sentWith
  }

  lemma SameStaysGood(s: State, s': State, server: map<string, ServerKey>, renewed: set<Request>,
                      live: set<Request>, live': set<Request>)
    requires Good(s, server, renewed, live) && Same(s, s') && RequestConservation.Placed(s'.locker, live')
    ensures Good(s', server, renewed, live')
  {
    assert forall id | Gone(s.locker, id) :: Gone(s'.locker, id);
  }

  lemma {:induction false} RequestTokensSame(s: State, c: Credentials)
    ensures Same(s, RequestTokens(s, c))
    decreases MAX_TOKEN_REQUESTS - s.locker.tokenRequests
  {
    if WantsToken(s.locker) { RequestTokensSame(RequestOneToken(s, c), c); }
  }

  lemma NeededStaysGood(s: State, force: bool,
                        server: map<string, ServerKey>, renewed: set<Request>, live: set<Request>)
    requires Good(s, server, renewed, live)
    ensures Good(RequestNeeded(s, force), server, renewed, live)
  {
    RequestConservation.RequestNeededMovesNothing(s, force);
    if s.locker.credentials.Some? { RequestTokensSame(s, s.locker.credentials.value); }
    SameStaysGood(s, RequestNeeded(s, force), server, renewed, live, live);
  }

  lemma AttemptStaysGood(s: State, server: map<string, ServerKey>, renewed: set<Request>, live: set<Request>)
    requires Good(s, server, renewed, live)
    ensures Good(AttemptRequests(s), server, renewed, live)
  {
    if s.locker.connection.Unconnected? {
      SameStaysGood(s, AttemptRequests(s), server, renewed, live, live);
    } else {
      AllTokenlessStart(s, server, renewed, live);
      AllWithTokensStart(StartTokenless(s), server, renewed, live);
      NeededStaysGood(StartWithTokens(StartTokenless(s)), false, server, renewed, live);
    }
  }

  lemma ThenAttempt(s: State, s': State, server: map<string, ServerKey>, renewed: set<Request>,
                    live: set<Request>, live': set<Request>)
    requires Good(s, server, renewed, live) && Same(s, s') && RequestConservation.Placed(s'.locker, live')
    ensures Good(AttemptRequests(s'), server, renewed, live')
  {
    SameStaysGood(s, s', server, renewed, live, live');
    AttemptStaysGood(s', server, renewed, live');
  }

  /** Changing the state clears the pool or leaves it. */
  ghost predicate Emptied(s: State, s': State) {
    && s'.locker.tokens == [] && s'.locker.checkedOut == map[]
    && s'.locker.inProgress == s.locker.inProgress && s'.sentWith == s.sentWith
    && RequestConservation.SamePlaces(s.locker, s'.locker)
  }

  lemma EmptiedStaysGood(s: State, s': State, server: map<string, ServerKey>, renewed: set<Request>, live: set<Request>)
    requires Good(s, server, renewed, live) && Emptied(s, s')
    ensures Good(s', server, renewed, live)
  {
    RequestConservation.SamePlacesStayPlaced(s.locker, s'.locker, live);
  }

  lemma SameOrEmptied(s: State, s': State, server: map<string, ServerKey>, renewed: set<Request>, live: set<Request>)
    requires Good(s, server, renewed, live)
    requires (Same(s, s') && RequestConservation.SamePlaces(s.locker, s'.locker)) || Emptied(s, s')
    ensures Good(s', server, renewed, live)
  {
    RequestConservation.SamePlacesStayPlaced(s.locker, s'.locker, live);
    if Same(s, s') { SameStaysGood(s, s', server, renewed, live, live); }
    else { EmptiedStaysGood(s, s', server, renewed, live); }
  }

  /** The answer to `r` gives its token back with the announced renewal, or drops it. */
  lemma AnswerStaysInSync(s: State, r: Request, newKey: bool, server: map<string, ServerKey>, renewed: set<Request>)
    requires InSync(s, server, renewed) && RequestConservation.Typed(s.locker)
    requires DistinctTokens.Distinct(s.locker, server.Keys)
    requires newKey <==> r in renewed
    ensures InSync(s.(locker := ReuseToken(RemoveInProgress(s.locker, r), r, newKey)), server, renewed - {r})
    ensures InSync(s.(locker := DropToken(RemoveInProgress(s.locker, r), r)), server, renewed - {r})
  {
    var l := s.locker;
    var back, gone := ReuseToken(RemoveInProgress(l, r), r, newKey), DropToken(RemoveInProgress(l, r), r);
    assert forall id | Gone(l, id) :: Gone(gone, id);
    assert r in l.checkedOut ==> Fits(Renewed(l.checkedOut[r], newKey), server, false);
    forall id | Gone(l, id) ensures Gone(back, id) {
      assert r in l.checkedOut ==> l.checkedOut[r].id != id;
    }
  }

  lemma AnswerStaysGood(s: State, r: Request, newKey: bool, server: map<string, ServerKey>,
                        renewed: set<Request>, live: set<Request>)
    requires Good(s, server, renewed, live) && r in s.locker.inProgress
    requires newKey <==> r in renewed
    ensures Good(s.(locker := ReuseToken(RemoveInProgress(s.locker, r), r, newKey)), server, renewed - {r}, live - {r})
    ensures Good(s.(locker := DropToken(RemoveInProgress(s.locker, r), r)), server, renewed - {r}, live - {r})
  {
    var l := s.locker;
    AnswerStaysInSync(s, r, newKey, server, renewed);
    RequestConservation.RemoveInProgressPlaces(l, r, live);
    RequestConservation.ReuseDropsToken(l, r, newKey, live);
    DistinctTokens.ReuseKeepsDistinct(RemoveInProgress(l, r), r, newKey, server.Keys);
  }

  lemma CompleteStaysGood(s: State, r: Request, response: ApiResponse, server: map<string, ServerKey>,
                          renewed: set<Request>, live: set<Request>)
    requires Good(s, server, renewed, live) && r in s.locker.inProgress
    requires response.newKey <==> r in renewed
    ensures Good(Complete(s, r, response), server, renewed - {r}, live - {r})
  {
    AnswerStaysGood(s, r, response.newKey, server, renewed, live);
    var l := RemoveInProgress(s.locker, r);
    AttemptStaysGood(s.(locker := if IsInvalidSessionTokenError(response.error) then DropToken(l, r)
                                  else ReuseToken(l, r, response.newKey)), server, renewed - {r}, live - {r});
  }

  lemma RetryStaysGood(s: State, r: Request, response: ApiResponse, now: Time, server: map<string, ServerKey>,
                       renewed: set<Request>, live: set<Request>)
    requires Good(s, server, renewed, live) && r in s.locker.inProgress && r.usesToken
    requires response.newKey <==> r in renewed
    ensures Good(Retry(s, r, response, now), server, renewed - {r}, live)
  {
    AnswerStaysGood(s, r, response.newKey, server, renewed, live);
    RequestConservation.OnePlace(s.locker, live, r);
    assert live - {r} + {r} == live;
    var l := RemoveInProgress(s.locker, r);
    if IsInvalidSessionTokenError(response.error) {
      var out := DropToken(l, r);
      RequestConservation.EnqueuePlaces(out, r, live - {r});
      ThenAttempt(s.(locker := out), s.(locker := Enqueue(out, r)), server, renewed - {r}, live - {r}, live);
      assert Enqueue(out, r) == DropToken(InProgressToWaiting(s.locker, r), r);
    } else {
      var out := ReuseToken(l, r, response.newKey);
      RequestConservation.DelayPlaces(out, r, now + 1000, live - {r});
      var back := out.(delayed := EventQueue.Add(out.delayed, now + 1000, r));
      ThenAttempt(s.(locker := out), s.(locker := back), server, renewed - {r}, live - {r}, live);
      assert back == ReuseToken(InProgressToDelayed(s.locker, r, 1, now), r, response.newKey);
    }
  }

  lemma ConnectionStaysGood(s: State, e: ErrorCode, now: Time, server: map<string, ServerKey>,
                            renewed: set<Request>, live: set<Request>)
    requires Good(s, server, renewed, live)
    ensures var s' := UpdateConnection(s, e, now);
      Good(s', server, renewed, live) && s'.locker.inProgress == s.locker.inProgress
  {
    RequestConservation.UpdateConnectionPlaces(s, e, now, live);
    SameStaysGood(s, UpdateConnection(s, e, now), server, renewed, live, live);
  }

  lemma LiveAfterAnswer(w: World, r: Request, response: ApiResponse)
    requires RequestConservation.Inv(w) && r in w.s.locker.inProgress
    ensures RequestConservation.Live(Step(w, ApiAnswered(r, response)))
         == RequestConservation.Live(w) - (if Retries(r, response, w.now) then {} else {r})
  {
    RequestConservation.InProgressIsLive(w, r);
  }

  lemma HandledAnswerStaysGood(s: State, r: Request, response: ApiResponse, now: Time,
                               server: map<string, ServerKey>, renewed: set<Request>, live: set<Request>)
    requires Good(s, server, renewed, live) && r in s.locker.inProgress
    requires response.newKey <==> r in renewed
    ensures Good(HandleApiResponse(s, r, response, now), server, renewed - {r},
                 live - (if Retries(r, response, now) then {} else {r}))
  {
    var s' := UpdateConnection(s, response.error, now);
    ConnectionStaysGood(s, response.error, now, server, renewed, live);
    assert live - {} == live;
    if Retries(r, response, now) { RetryStaysGood(s', r, response, now, server, renewed, live); }
    else { CompleteStaysGood(s', r, response, server, renewed, live); }
  }

  lemma ApiAnswerStaysGood(b: Both, r: Request, response: ApiResponse)
    requires RequestConservation.Inv(b.w) && Good(b.w.s, b.server, b.renewed, RequestConservation.Live(b.w))
    requires r in b.w.s.locker.inProgress && (response.newKey <==> r in b.renewed)
    ensures var w' := Step(b.w, ApiAnswered(r, response));
      Good(w'.s, b.server, b.renewed - {r}, RequestConservation.Live(w'))
  {
    LiveAfterAnswer(b.w, r, response);
    HandledAnswerStaysGood(b.w.s, r, response, b.w.now, b.server, b.renewed, RequestConservation.Live(b.w));
  }

  /** A new token enters the pool in step, under a name that no request in flight was sent with. */
  lemma NewTokenStaysInSync(s: State, t: SessionToken, c: Credentials,
                            server: map<string, ServerKey>, renewed: set<Request>)
    requires InSync(s, server, renewed) && DistinctTokens.Distinct(s.locker, server.Keys) && t.id !in server
    ensures var server' := server[t.id := Issued(t)];
      InSync(s.(locker := AddToken(s.locker, t, c)), server', renewed)
  {
    var l := s.locker;
    var l', server' := AddToken(l, t, c), server[t.id := Issued(t)];
    assert Fits(t, server', false);
    forall id | Gone(l, id) && id != t.id ensures Gone(l', id) {}
    forall i | 0 <= i < |l.tokens| ensures Fits(l.tokens[i], server', false) {
      assert Fits(l.tokens[i], server, false);
    }
    forall r | r in l.checkedOut ensures Fits(l.checkedOut[r], server', r in renewed) {
      assert Fits(l.checkedOut[r], server, r in renewed);
    }
  }

  lemma NewTokenStaysGood(s: State, t: SessionToken, c: Credentials, server: map<string, ServerKey>,
                          renewed: set<Request>, live: set<Request>)
    requires Good(s, server, renewed, live) && t.id !in server
    ensures var server' := server[t.id := Issued(t)];
      Good(s.(locker := AddToken(s.locker, t, c)), server', renewed, live)
  {
    NewTokenStaysInSync(s, t, c, server, renewed);
    DistinctTokens.AddKeepsDistinct(s.locker, t, c, server.Keys);
    RequestConservation.SamePlacesStayPlaced(s.locker, AddToken(s.locker, t, c), live);
    assert server[t.id := Issued(t)].Keys == server.Keys + {t.id};
  }

  lemma TokenSuccessStaysGood(s: State, c: Credentials, response: TokenResponse, server: map<string, ServerKey>,
                              renewed: set<Request>, live: set<Request>)
    requires Good(s, server, renewed, live) && response.token.id !in server
    ensures Good(TokenSuccess(s, c, response),
                 server[response.token.id := Issued(response.token)], renewed, live)
  {
    var server' := server[response.token.id := Issued(response.token)];
    var s0 := s.(locker := s.locker.(failureCount := 0));
    SameOrEmptied(s, s0, server, renewed, live);
    NewTokenStaysGood(s0, response.token, c, server, renewed, live);
    var s1 := s0.(locker := AddToken(s0.locker, response.token, c));
    var running := SessionState.Running(response.token.id, response.token.pkey);
    var s2 := s1.(locker := ChangeState(s1.locker, running));
    SameOrEmptied(s1, s2, server', renewed, live);
    AttemptStaysGood(s1, server', renewed, live);
    AttemptStaysGood(s2, server', renewed, live);
  }

  lemma FailureOnlyEmpties(s: State, c: Credentials, response: TokenResponse, now: Time)
    ensures var s' := TokenFailure(s, c, response, now);
      (Same(s, s') && RequestConservation.SamePlaces(s.locker, s'.locker)) || Emptied(s, s')
  {
  }

  lemma TokenFailureStaysGood(s: State, c: Credentials, response: TokenResponse, now: Time,
                              server: map<string, ServerKey>, renewed: set<Request>, live: set<Request>)
    requires Good(s, server, renewed, live)
    ensures Good(TokenFailure(s, c, response, now), server, renewed, live)
  {
    FailureOnlyEmpties(s, c, response, now);
    SameOrEmptied(s, TokenFailure(s, c, response, now), server, renewed, live);
  }

  lemma TokenAnswerStaysGood(s: State, i: nat, response: TokenResponse, now: Time,
                             server: map<string, ServerKey>, renewed: set<Request>, live: set<Request>)
    requires Good(s, server, renewed, live) && i < |s.tokenCalls| && s.locker.tokenRequests > 0
    requires response.error == NoError ==> response.token.id !in server
    ensures Good(HandleTokenResponse(s, i, response, now),
                 if response.error == NoError
                 then server[response.token.id := Issued(response.token)] else server,
                 renewed, live)
  {
    var s' := UpdateConnection(TokenCallAnswered(s, i), response.error, now);
    SameOrEmptied(s, s', server, renewed, live);
    if response.error == NoError { TokenSuccessStaysGood(s', s.tokenCalls[i], response, server, renewed, live); }
    else { TokenFailureStaysGood(s', s.tokenCalls[i], response, now, server, renewed, live); }
  }

  lemma CredentialsStayGood(s: State, c: Credentials,
                            server: map<string, ServerKey>, renewed: set<Request>, live: set<Request>)
    requires Good(s, server, renewed, live)
    ensures Good(SetLoginCredentials(s, c), server, renewed, live)
  {
    var s' := s.(locker := SessionPool.SetCredentials(s.locker, c));
    SameOrEmptied(s, s', server, renewed, live);
    AttemptStaysGood(s', server, renewed, live);
  }

  lemma StatusStaysGood(s: State, e: ErrorCode, now: Time,
                        server: map<string, ServerKey>, renewed: set<Request>, live: set<Request>)
    requires Good(s, server, renewed, live) && s.statusChecks > 0
    ensures Good(HandleStatusResponse(s, e, now), server, renewed, live)
  {
    var s' := s.(statusChecks := s.statusChecks - 1);
    SameStaysGood(s, s', server, renewed, live, live);
    ConnectionStaysGood(s', e, now, server, renewed, live);
    AttemptStaysGood(UpdateConnection(s', e, now), server, renewed, live);
  }

  lemma TimersStayGood(s: State, server: map<string, ServerKey>, renewed: set<Request>, live: set<Request>)
    requires Good(s, server, renewed, live)
    ensures s.failureTimer.ready > 0 ==> Good(HandleFailureTimeout(s), server, renewed, live)
    ensures s.recheckTimer.ready > 0 ==> Good(HandleRecheckTimeout(s), server, renewed, live)
  {
    if s.failureTimer.ready > 0 {
      var s' := s.(failureTimer := s.failureTimer.(ready := s.failureTimer.ready - 1));
      SameOrEmptied(s, s', server, renewed, live);
      AttemptStaysGood(s', server, renewed, live);
      NeededStaysGood(AttemptRequests(s'), true, server, renewed, live);
    }
    if s.recheckTimer.ready > 0 {
      var s' := s.(recheckTimer := s.recheckTimer.(ready := s.recheckTimer.ready - 1));
      SameOrEmptied(s, s', server, renewed, live);
      AttemptStaysGood(s', server, renewed, live);
    }
  }

  lemma CallStaysGood(w: World, usesToken: bool, timeoutSeconds: nat,
                      server: map<string, ServerKey>, renewed: set<Request>)
    requires RequestConservation.Inv(w) && Good(w.s, server, renewed, RequestConservation.Live(w))
    ensures var w' := Step(w, Call(usesToken, timeoutSeconds));
      Good(w'.s, server, renewed, RequestConservation.Live(w'))
  {
    var r := NewRequest(|w.submitted|, usesToken, timeoutSeconds, w.now);
    var live, live' := RequestConservation.Live(w), RequestConservation.Live(Step(w, Call(usesToken, timeoutSeconds)));
    assert r !in w.submitted;
    assert live' == live + {r};
    RequestConservation.AddWaitingPlaces(w.s.locker, r, w.now, live);
    ThenAttempt(w.s, w.s.(locker := AddWaiting(w.s.locker, r, w.now)), server, renewed, live, live');
  }

  lemma DelayedStaysGood(s: State, now: Time, server: map<string, ServerKey>, renewed: set<Request>, live: set<Request>)
    requires Good(s, server, renewed, live) && EventQueue.CanDeliver(s.locker.delayed)
    ensures Good(DeliverDelayed(s, now), server, renewed, live)
  {
    var r := s.locker.delayed.data[0].event;
    RequestConservation.DelayedFrontLeaves(s.locker, live);
    var l := s.locker.(delayed := EventQueue.Deliver(s.locker.delayed));
    RequestConservation.AddWaitingPlaces(l, r, now, live - {r});
    assert live - {r} + {r} == live;
    ThenAttempt(s, s.(locker := AddWaiting(l, r, now)), server, renewed, live, live);
  }

  lemma TimeoutMovesNoToken(s: State)
    requires EventQueue.CanDeliver(s.locker.timeouts)
    ensures Same(s, DeliverTimeout(s))
  {
  }

  lemma TimeoutStaysGood(w: World, server: map<string, ServerKey>, renewed: set<Request>)
    requires RequestConservation.Inv(w) && Good(w.s, server, renewed, RequestConservation.Live(w))
    requires EventQueue.CanDeliver(w.s.locker.timeouts)
    ensures var w' := Step(w, Timeouts(Delivers)); Good(w'.s, server, renewed, RequestConservation.Live(w'))
  {
    var w' := Step(w, Timeouts(Delivers));
    TimeoutMovesNoToken(w.s);
    RequestConservation.TimeoutDeliveryPlaces(w);
    SameStaysGood(w.s, w'.s, server, renewed, RequestConservation.Live(w), RequestConservation.Live(w'));
  }

  /** Actions that neither create nor finish a request, and answer no request. */
  lemma QuietStaysGood(w: World, a: Action, server: map<string, ServerKey>, renewed: set<Request>, live: set<Request>)
    requires Good(w.s, server, renewed, live) && Enabled(w, a)
    requires !a.Call? && !a.ApiAnswered? && !a.TokenAnswered? && a != Timeouts(Delivers)
    ensures Good(Effect(w, a), server, renewed, live)
  {
    match a
    case SetCredentials(c) => CredentialsStayGood(w.s, c, server, renewed, live);
    case StatusAnswered(e) => StatusStaysGood(w.s, e, w.now, server, renewed, live);
    case FailureTimerFires => TimersStayGood(w.s, server, renewed, live);
    case RecheckTimerFires => TimersStayGood(w.s, server, renewed, live);
    case Delayed(qa) =>
      if qa.Delivers? { DelayedStaysGood(w.s, w.now, server, renewed, live); }
      else { SameOrEmptied(w.s, Effect(w, a), server, renewed, live); }
    case Timeouts(qa) => SameOrEmptied(w.s, Effect(w, a), server, renewed, live);
    case FailureTimerExpires => SameOrEmptied(w.s, Effect(w, a), server, renewed, live);
    case RecheckTimerExpires => SameOrEmptied(w.s, Effect(w, a), server, renewed, live);
    case Elapse(_) =>
  }

  /** The server renews the key of a request in flight: only that token's record moves, and if the
      token is still in the pool, that request holds it. */
  lemma RenewalStaysInSync(s: State, r: Request, server: map<string, ServerKey>, renewed: set<Request>)
    requires InSync(s, server, renewed) && DistinctTokens.Distinct(s.locker, server.Keys)
    requires r.usesToken && r in s.locker.inProgress && r !in renewed && s.sentWith[r].id in server
    ensures var id := s.sentWith[r].id;
      InSync(s, server[id := server[id].(renewals := server[id].renewals + 1)], renewed + {r})
  {
    var l, id := s.locker, s.sentWith[r].id;
    var server' := server[id := server[id].(renewals := server[id].renewals + 1)];
    forall i | 0 <= i < |l.tokens| ensures Fits(l.tokens[i], server', false) {
      assert Fits(l.tokens[i], server, false) && l.tokens[i].id != id;
    }
    forall q | q in l.checkedOut ensures Fits(l.checkedOut[q], server', q in renewed + {r}) {
      assert Fits(l.checkedOut[q], server, q in renewed);
      assert q != r ==> l.checkedOut[q].id != id;
    }
  }

  ghost predicate Inv(b: Both) {
    RequestConservation.Inv(b.w) && Good(b.w.s, b.server, b.renewed, RequestConservation.Live(b.w))
  }

  lemma ClientKeepsInv(b: Both, a: Action)
    requires Inv(b) && MoveEnabled(b, Client(a))
    ensures Inv(MoveStep(b, Client(a)))
  {
    var w, live := b.w, RequestConservation.Live(b.w);
    RequestConservation.StepKeepsInv(w, a);
    match a
    case ApiAnswered(r, response) => ApiAnswerStaysGood(b, r, response);
    case Call(usesToken, timeoutSeconds) => CallStaysGood(w, usesToken, timeoutSeconds, b.server, b.renewed);
    case Timeouts(Delivers) => TimeoutStaysGood(w, b.server, b.renewed);
    case TokenAnswered(i, response) =>
      assert RequestConservation.Live(Step(w, a)) == live;
      TokenAnswerStaysGood(w.s, i, response, w.now, b.server, b.renewed, live);
    case _ =>
      assert RequestConservation.Live(Step(w, a)) == live;
      QuietStaysGood(w, a, b.server, b.renewed, live);
  }

  lemma RenewalKeepsInv(b: Both, r: Request)
    requires Inv(b) && MoveEnabled(b, ServerRenews(r))
    ensures Inv(MoveStep(b, ServerRenews(r)))
  {
    RenewalStaysInSync(b.w.s, r, b.server, b.renewed);
    assert MoveStep(b, ServerRenews(r)).server.Keys == b.server.Keys;
  }

  lemma {:induction false} PlayKeepsInv(moves: seq<Move>)
    ensures Inv(Play(moves))
  {
    if moves != [] {
      var b, m := Play(moves[..|moves| - 1]), moves[|moves| - 1];
      PlayKeepsInv(moves[..|moves| - 1]);
      if MoveEnabled(b, m) {
        match m
        case Client(a) => ClientKeepsInv(b, a);
        case ServerRenews(r) => RenewalKeepsInv(b, r);
      }
    }
  }

  /** Whenever a token is in the pool, client and server hold the same key: the key it was given out
      with, multiplied by 16807 once for each renewal, modulo 2^31 - 1, and never 0. */
  lemma PooledKeysAgree(moves: seq<Move>, t: SessionToken)
    requires t in Play(moves).w.s.locker.tokens
    ensures var server := Play(moves).server;
      && t.id in server && t.secretKey == KeyNow(server[t.id])
      && (SecretKey.InCycle(server[t.id].initial) ==>
            && SecretKey.InCycle(t.secretKey)
            && t.secretKey == server[t.id].initial * SecretKey.Power(server[t.id].renewals) % SecretKey.MODULUS)
  {
    PlayKeepsInv(moves);
    var l, server := Play(moves).w.s.locker, Play(moves).server;
    var i :| 0 <= i < |l.tokens| && l.tokens[i] == t;
    assert Fits(l.tokens[i], server, false);
    if SecretKey.InCycle(server[t.id].initial) {
      SecretKey.KeyAfterIsPower(server[t.id].initial, server[t.id].renewals);
    }
  }

  /** A request holds the token it was signed with, in step with the server unless the answer that
      announces the renewal is still on its way. */
  lemma HeldFits(moves: seq<Move>, r: Request)
    requires r in Play(moves).w.s.locker.checkedOut
    ensures var b := Play(moves);
      && r in b.w.s.sentWith && b.w.s.sentWith[r] == b.w.s.locker.checkedOut[r]
      && Fits(b.w.s.sentWith[r], b.server, r in b.renewed)
  {
    PlayKeepsInv(moves);
  }

  /** A request that holds its token was signed with the key the server has when it looks at it. */
  lemma SignedWithServerKey(moves: seq<Move>, r: Request)
    requires var b := Play(moves); MoveEnabled(b, ServerRenews(r)) && r in b.w.s.locker.checkedOut
    ensures var b := Play(moves); b.w.s.sentWith[r].secretKey == KeyNow(b.server[b.w.s.sentWith[r].id])
  {
    HeldFits(moves, r);
  }

  /** Delivery is needed: an answer to a token holder leaves its key in step if and only if it tells
      the client what the server did. */
  lemma OnlyDeliveryKeepsStep(moves: seq<Move>, r: Request, newKey: bool)
    requires var b := Play(moves); r in b.w.s.locker.checkedOut
    requires var b := Play(moves); SecretKey.InCycle(b.w.s.locker.checkedOut[r].secretKey)
    ensures var b := Play(moves);
      Fits(Renewed(b.w.s.locker.checkedOut[r], newKey), b.server, false) <==> (newKey <==> r in b.renewed)
  {
    PlayKeepsInv(moves);
    var b := Play(moves);
    assert Fits(b.w.s.locker.checkedOut[r], b.server, r in b.renewed);
    SecretKey.StepMoves(b.w.s.locker.checkedOut[r].secretKey);
  }
}
