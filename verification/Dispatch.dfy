/** What AttemptRequests amounts to once its loops have run: which requests are sent, in which order,
    with which tokens, and how many tokens are asked for. */
module Dispatch {
  import opened Basics
  import opened SessionTypes
  import opened SessionPool
  import opened Scheduler
  import opened SchedulerRuns
  import EventQueue
  import RequestConservation
  import WakeUps

  function Least(a: int, b: int): int { if a < b then a else b }

  /** How many waiting requests find a token. */
  function Paired(l: Locker): nat {
    if l.sessionState.Running? then Least(|l.waitingSt|, |l.tokens|) else 0
  }

  /** How many token requests are granted one after the other: enough for the requests left over, within
      both limits, and one in any case if there is no token and none under way. */
  function Granted(l: Locker): nat {
    var needed := |l.waitingSt| - l.tokenRequests - |l.tokens|;
    var room := Least(MAX_TOKEN_REQUESTS - l.tokenRequests, MAX_TOKENS - l.tokenRequests - |l.tokens| - |l.checkedOut|);
    var least := if l.tokenRequests == 0 && |l.tokens| + |l.checkedOut| == 0 then 1 else 0;
    if Least(needed, room) > least then Least(needed, room) else least
  }

  ghost predicate NoDuplicates(queue: seq<Request>) {
    forall i, j | 0 <= i < j < |queue| :: queue[i] != queue[j]
  }

  ghost function Members(queue: seq<Request>): set<Request> { set r | r in queue }

  lemma {:induction false} TokenlessAllSent(s: State)
    ensures StartTokenless(s) == s.(locker := s.locker.(
      waitingNonSt := [], inProgress := s.locker.inProgress + Members(s.locker.waitingNonSt)))
    decreases |s.locker.waitingNonSt|
  {
    var queue := s.locker.waitingNonSt;
    if queue == [] {
      assert s.locker.inProgress + Members(queue) == s.locker.inProgress;
    } else {
      TokenlessAllSent(StartOneTokenless(s));
      assert queue == [queue[0]] + queue[1..];
      assert s.locker.inProgress + {queue[0]} + Members(queue[1..]) == s.locker.inProgress + Members(queue);
    }
  }

  /** The queues after `n` requests have each taken the newest token that was left. */
  ghost predicate TookNewest(s: State, s': State, n: nat) {
    var l, l' := s.locker, s'.locker;
    && n <= |l.waitingSt| && n <= |l.tokens|
    && l'.waitingSt == l.waitingSt[n..] && l'.tokens == l.tokens[..|l.tokens| - n]
    && l'.inProgress == l.inProgress + Members(l.waitingSt[..n])
  }

  /** Each of them was signed with the token it took, the oldest request with the newest token. */
  ghost predicate SignedInTurn(s: State, s': State, n: nat)
    requires n <= |s.locker.waitingSt| && n <= |s.locker.tokens|
  {
    var l := s.locker;
    && (forall i | 0 <= i < n ::
          l.waitingSt[i] in s'.sentWith && s'.sentWith[l.waitingSt[i]] == l.tokens[|l.tokens| - 1 - i])
    && (forall r | r in s.sentWith && r !in l.waitingSt[..n] :: r in s'.sentWith && s'.sentWith[r] == s.sentWith[r])
  }

  lemma OneMoreTaken(s: State, s': State, n: nat)
    requires CanCheckOut(s.locker) && TookNewest(StartOneWithToken(s), s', n)
    ensures TookNewest(s, s', n + 1)
  {
    var queue := s.locker.waitingSt;
    assert queue[..n + 1] == [queue[0]] + queue[1..][..n];
    assert Members(queue[..n + 1]) == {queue[0]} + Members(queue[1..][..n]);
  }

  lemma LaterSigned(s: State, s': State, n: nat, i: nat)
    requires CanCheckOut(s.locker) && 0 < i <= n <= |s.locker.waitingSt| - 1 && n <= |s.locker.tokens| - 1
    requires SignedInTurn(StartOneWithToken(s), s', n)
    ensures var r, tokens := s.locker.waitingSt[i], s.locker.tokens;
      r in s'.sentWith && s'.sentWith[r] == tokens[|tokens| - 1 - i]
  {
    assert StartOneWithToken(s).locker.waitingSt[i - 1] == s.locker.waitingSt[i];
  }

  lemma OtherStaysSigned(s: State, s': State, n: nat, r: Request)
    requires CanCheckOut(s.locker) && n <= |s.locker.waitingSt| - 1 && n <= |s.locker.tokens| - 1
    requires SignedInTurn(StartOneWithToken(s), s', n)
    requires r in s.sentWith && r !in s.locker.waitingSt[..n + 1]
    ensures r in s'.sentWith && s'.sentWith[r] == s.sentWith[r]
  {
    var queue := s.locker.waitingSt;
    assert queue[..n + 1] == [queue[0]] + queue[1..][..n];
  }

  lemma OneMoreSigned(s: State, s': State, n: nat)
    requires CanCheckOut(s.locker) && NoDuplicates(s.locker.waitingSt)
    requires n <= |s.locker.waitingSt| - 1 && n <= |s.locker.tokens| - 1
    requires SignedInTurn(StartOneWithToken(s), s', n)
    ensures SignedInTurn(s, s', n + 1)
  {
    var queue, tokens := s.locker.waitingSt, s.locker.tokens;
    forall i | 0 <= i < n + 1
      ensures queue[i] in s'.sentWith && s'.sentWith[queue[i]] == tokens[|tokens| - 1 - i] {
      if i > 0 { LaterSigned(s, s', n, i); } else { FirstStaysSigned(s, s', n); }
    }
    forall r | r in s.sentWith && r !in queue[..n + 1]
      ensures r in s'.sentWith && s'.sentWith[r] == s.sentWith[r] {
      OtherStaysSigned(s, s', n, r);
    }
  }

  lemma FirstStaysSigned(s: State, s': State, n: nat)
    requires CanCheckOut(s.locker) && NoDuplicates(s.locker.waitingSt)
    requires n <= |s.locker.waitingSt| - 1 && n <= |s.locker.tokens| - 1
    requires SignedInTurn(StartOneWithToken(s), s', n)
    ensures var r, tokens := s.locker.waitingSt[0], s.locker.tokens;
      r in s'.sentWith && s'.sentWith[r] == tokens[|tokens| - 1]
  {
    var queue := s.locker.waitingSt;
    assert queue[0] in StartOneWithToken(s).sentWith && queue[0] !in queue[1..][..n];
  }

  lemma OneLessPaired(s: State)
    requires CanCheckOut(s.locker)
    ensures Paired(s.locker) == Paired(StartOneWithToken(s).locker) + 1
    ensures NoDuplicates(s.locker.waitingSt) ==> NoDuplicates(StartOneWithToken(s).locker.waitingSt)
  {
  }

  lemma {:induction false} PairedAreSent(s: State)
    requires NoDuplicates(s.locker.waitingSt)
    ensures TookNewest(s, StartWithTokens(s), Paired(s.locker))
    ensures SignedInTurn(s, StartWithTokens(s), Paired(s.locker))
    decreases |s.locker.waitingSt|
  {
    var l := s.locker;
    if CanCheckOut(l) {
      var next := StartOneWithToken(s);
      OneLessPaired(s);
      PairedAreSent(next);
      OneMoreTaken(s, StartWithTokens(s), Paired(next.locker));
      OneMoreSigned(s, StartWithTokens(s), Paired(next.locker));
    } else {
      assert l.inProgress + Members(l.waitingSt[..0]) == l.inProgress;
    }
  }

  lemma {:induction false} GrantedAreRequested(s: State, c: Credentials)
    ensures RequestTokens(s, c) == s.(
      locker := s.locker.(tokenRequests := s.locker.tokenRequests + Granted(s.locker)),
      tokenCalls := s.tokenCalls + seq(Granted(s.locker), _ => c))
    decreases MAX_TOKEN_REQUESTS - s.locker.tokenRequests
  {
    if WantsToken(s.locker) {
      GrantedAreRequested(RequestOneToken(s, c), c);
      var n := Granted(s.locker);
      assert s.tokenCalls + [c] + seq(n - 1, _ => c) == s.tokenCalls + seq(n, _ => c);
    } else {
      assert s.tokenCalls + seq(0, _ => c) == s.tokenCalls;
    }
  }

  lemma {:induction false} PlacedOnce(l: Locker, live: set<Request>)
    requires RequestConservation.Placed(l, live)
    ensures NoDuplicates(l.waitingSt)
  {
    forall i, j | 0 <= i < j < |l.waitingSt| ensures l.waitingSt[i] != l.waitingSt[j] {
      var queue := l.waitingSt;
      assert queue == queue[..i] + [queue[i]] + queue[i + 1..j] + [queue[j]] + queue[j + 1..];
      assert multiset(queue)[queue[i]] <= RequestConservation.Places(l)[queue[i]] <= 1;
    }
  }

  /** All requests without a token and the first `n` others have been sent. */
  ghost predicate Sent(s: State, s': State, n: nat) {
    var l, l' := s.locker, s'.locker;
    && n <= |l.waitingSt| && n <= |l.tokens|
    && l'.waitingNonSt == [] && l'.waitingSt == l.waitingSt[n..] && l'.tokens == l.tokens[..|l.tokens| - n]
    && l'.inProgress == (l.inProgress + Members(l.waitingNonSt)) + Members(l.waitingSt[..n])
    && SignedInTurn(s, s', n)
  }

  /** No waiting request is queued twice or holds a token. */
  ghost predicate Tidy(l: Locker) {
    NoDuplicates(l.waitingSt) && forall r | r in l.waitingSt :: r !in l.checkedOut
  }

  /** No token is asked for with bad credentials or none. */
  function Asked(l: Locker): nat {
    if l.sessionState.CredentialsFailure? || l.credentials.None? then 0 else Granted(l)
  }

  lemma GrantedMeansWanted(l: Locker)
    ensures Granted(l) > 0 <==> WantsToken(l)
  {
  }

  lemma SameTurns(s: State, t: State, s': State, n: nat)
    requires t.locker.waitingSt == s.locker.waitingSt && t.locker.tokens == s.locker.tokens && t.sentWith == s.sentWith
    requires n <= |s.locker.waitingSt| && n <= |s.locker.tokens| && SignedInTurn(t, s', n)
    ensures SignedInTurn(s, s', n)
  {
  }

  lemma LoopsSend(s: State)
    requires Tidy(s.locker)
    ensures Sent(s, StartWithTokens(StartTokenless(s)), Paired(s.locker))
  {
    TokenlessAllSent(s);
    var t := StartTokenless(s);
    assert t.locker.waitingSt == s.locker.waitingSt && t.locker.tokens == s.locker.tokens && t.sentWith == s.sentWith;
    PairedAreSent(t);
    LoopKeepsRest(t);
    SameTurns(s, t, StartWithTokens(t), Paired(s.locker));
  }

  /** What the pairing loop does not change, and the tokens it only hands out. */
  ghost predicate SameNeed(l: Locker, l': Locker) {
    && l'.tokenRequests == l.tokenRequests && l'.waitingNonSt == l.waitingNonSt
    && l'.sessionState == l.sessionState && l'.credentials == l.credentials
  }

  lemma {:induction false} LoopKeepsRest(s: State)
    ensures SameNeed(s.locker, StartWithTokens(s).locker)
    decreases |s.locker.waitingSt|
  {
    if CanCheckOut(s.locker) { LoopKeepsRest(StartOneWithToken(s)); }
  }

  /** Pairing a request with a token leaves as much to ask for as there was. */
  lemma {:induction false} PairingKeepsGranted(s: State)
    requires Tidy(s.locker)
    ensures Granted(StartWithTokens(s).locker) == Granted(s.locker)
    decreases |s.locker.waitingSt|
  {
    if CanCheckOut(s.locker) {
      var l, next := s.locker, StartOneWithToken(s);
      assert l.waitingSt[0] !in l.checkedOut && |next.locker.checkedOut| == |l.checkedOut| + 1;
      PairingKeepsGranted(next);
    }
  }

  lemma LoopsKeepAsked(s: State)
    requires Tidy(s.locker)
    ensures var u := StartWithTokens(StartTokenless(s));
      && Asked(u.locker) == Asked(s.locker) && Granted(u.locker) == Granted(s.locker)
      && u.locker.tokenRequests == s.locker.tokenRequests
      && u.locker.sessionState == s.locker.sessionState && u.locker.credentials == s.locker.credentials
  {
    TokenlessAllSent(s);
    LoopKeepsRest(StartTokenless(s));
    PairingKeepsGranted(StartTokenless(s));
  }

  lemma NeededAsks(s: State)
    ensures var s' := RequestNeeded(s, false);
      && s'.locker == s.locker.(tokenRequests := s.locker.tokenRequests + Asked(s.locker))
      && s'.sentWith == s.sentWith
  {
    if s.locker.credentials.Some? { GrantedAreRequested(s, s.locker.credentials.value); }
  }

  /** From any connected state without duplicates: all requests without a token are sent; the oldest
      requests with a token are sent in the order they were queued, as many as there are tokens, each
      with the newest one left; and unless the credentials are bad, exactly as many token requests
      follow as the rest needs and the limits leave. */
  lemma AttemptSends(s: State)
    requires !s.locker.connection.Unconnected? && Tidy(s.locker)
    ensures Sent(s, AttemptRequests(s), Paired(s.locker))
    ensures AttemptRequests(s).locker.tokenRequests == s.locker.tokenRequests + Asked(s.locker)
  {
    LoopsSend(s);
    LoopsKeepAsked(s);
    NeededAsks(StartWithTokens(StartTokenless(s)));
  }

  // ---- the handlers

  /** An answered request is finished or put back, and its token reused or dropped. */
  function Answered(l: Locker, r: Request, response: ApiResponse, now: Time): Locker {
    if Retries(r, response, now) then Retried(l, r, response, now) else Completed(l, r, response)
  }

  /** The state in which the handler of `a` calls AttemptRequests, if it does. */
  function Prepared(w: World, a: Action): Option<State>
    requires Enabled(w, a)
  {
    match a
    case SetCredentials(c) => Some(w.s.(locker := SessionPool.SetCredentials(w.s.locker, c)))
    case Call(usesToken, timeoutSeconds) =>
      Some(w.s.(locker := AddWaiting(w.s.locker, NewRequest(|w.submitted|, usesToken, timeoutSeconds, w.now), w.now)))
    case TokenAnswered(i, response) =>
      if response.error != NoError then None
      else
        var s := UpdateConnection(TokenCallAnswered(w.s, i), NoError, w.now);
        Some(s.(locker := Obtained(s.locker, w.s.tokenCalls[i], response)))
    case ApiAnswered(r, response) =>
      var s := UpdateConnection(w.s, response.error, w.now);
      Some(s.(locker := Answered(s.locker, r, response, w.now)))
    case StatusAnswered(e) =>
      var s := UpdateConnection(w.s.(statusChecks := w.s.statusChecks - 1), e, w.now);
      if s.locker.connection.Connected? then Some(s) else None
    case FailureTimerFires => Some(w.s.(failureTimer := w.s.failureTimer.(ready := w.s.failureTimer.ready - 1)))
    case RecheckTimerFires => Some(w.s.(recheckTimer := w.s.recheckTimer.(ready := w.s.recheckTimer.ready - 1)))
    case Delayed(qa) =>
      if !qa.Delivers? then None
      else
        var l := w.s.locker.(delayed := EventQueue.Deliver(w.s.locker.delayed));
        Some(w.s.(locker := AddWaiting(l, w.s.locker.delayed.data[0].event, w.now)))
    case _ => None
  }

  /** The request that the action puts at the back of the queue, if it wants a token. */
  function Arriving(w: World, a: Action): seq<Request>
    requires Enabled(w, a)
  {
    match a
    case Call(usesToken, timeoutSeconds) =>
      if usesToken then [NewRequest(|w.submitted|, usesToken, timeoutSeconds, w.now)] else []
    case ApiAnswered(r, response) =>
      if Retries(r, response, w.now) && IsInvalidSessionTokenError(response.error) then [r] else []
    case Delayed(qa) => if qa.Delivers? then [w.s.locker.delayed.data[0].event] else []
    case _ => []
  }

  /** The failure timer asks once more even with bad credentials. */
  function AskedBy(a: Action, l: Locker): nat {
    if a.FailureTimerFires? && l.sessionState.CredentialsFailure? && l.credentials.Some?
    then Least(1, Granted(l)) else Asked(l)
  }

  lemma EffectIsAttempt(w: World, a: Action)
    requires Enabled(w, a) && Prepared(w, a).Some? && !a.FailureTimerFires?
    ensures Effect(w, a) == AttemptRequests(Prepared(w, a).value)
  {
  }

  lemma AnsweredQueue(l: Locker, r: Request, response: ApiResponse, now: Time)
    requires r in l.checkedOut ==> r.usesToken
    ensures var l', again := Answered(l, r, response, now),
        Retries(r, response, now) && IsInvalidSessionTokenError(response.error);
      && l'.waitingSt == (if again then l.waitingSt + [r] else l.waitingSt)
      && l'.checkedOut.Keys <= l.checkedOut.Keys - {r}
  {
  }

  lemma ObtainedQueue(l: Locker, c: Credentials, response: TokenResponse)
    ensures var l' := Obtained(l, c, response); l'.waitingSt == l.waitingSt && l'.checkedOut.Keys <= l.checkedOut.Keys
  {
  }

  /** Nothing overtakes: whatever the handler does first, the queue only grows at its back. */
  lemma PreparedQueue(w: World, a: Action)
    requires Enabled(w, a) && Prepared(w, a).Some? && RequestConservation.Typed(w.s.locker)
    ensures var l, l' := w.s.locker, Prepared(w, a).value.locker;
      l'.waitingSt == l.waitingSt + Arriving(w, a) && l'.checkedOut.Keys <= l.checkedOut.Keys
  {
    match a
    case ApiAnswered(r, response) =>
      AnsweredQueue(UpdateConnection(w.s, response.error, w.now).locker, r, response, w.now);
    case TokenAnswered(i, response) =>
      ObtainedQueue(UpdateConnection(TokenCallAnswered(w.s, i), NoError, w.now).locker, w.s.tokenCalls[i], response);
    case _ =>
  }

  /** The token that the action brings into the pool, if any. */
  function Returning(w: World, a: Action): seq<SessionToken>
    requires Enabled(w, a)
  {
    var l := w.s.locker;
    match a
    case TokenAnswered(i, response) => if l.credentials == Some(w.s.tokenCalls[i]) then [response.token] else []
    case ApiAnswered(r, response) =>
      if r in l.checkedOut && !IsInvalidSessionTokenError(response.error)
      then [Renewed(l.checkedOut[r], response.newKey)] else []
    case _ => []
  }

  /** The newest token is the last: whatever a handler does first, the pool grows at its back only, unless
      new credentials empty it. */
  lemma PreparedTokens(w: World, a: Action)
    requires Enabled(w, a) && Prepared(w, a).Some? && RequestConservation.Typed(w.s.locker)
    ensures Prepared(w, a).value.locker.tokens
         == if a.SetCredentials? && (w.s.locker.credentials != Some(a.c) && !w.s.locker.sessionState.Initialized?)
            then [] else w.s.locker.tokens + Returning(w, a)
  {
  }

  lemma LiveIsTidy(l: Locker, live: set<Request>)
    requires RequestConservation.Placed(l, live)
    ensures Tidy(l)
  {
    PlacedOnce(l, live);
    forall r | r in l.waitingSt ensures r !in l.checkedOut {
      RequestConservation.OnePlace(l, live, r);
      assert multiset(l.waitingSt)[r] > 0;
    }
  }

  /** Who arrives was somewhere else before, or nowhere. */
  lemma ArrivesFromElsewhere(w: World, a: Action, r: Request)
    requires RequestConservation.Inv(w) && Enabled(w, a) && Arriving(w, a) == [r]
    ensures r !in w.s.locker.waitingSt
    ensures r in w.s.locker.checkedOut ==> a.ApiAnswered? && a.r == r
  {
    var l, live := w.s.locker, RequestConservation.Live(w);
    RequestConservation.OnePlace(l, live, r);
    if a.Delayed? {
      assert EventQueue.Events(l.delayed.data)[0] == r;
      assert multiset(EventQueue.Events(l.delayed.data))[r] > 0;
    } else if a.Call? {
      assert r !in w.submitted;
    }
  }

  lemma PreparedIsTidy(w: World, a: Action)
    requires RequestConservation.Inv(w) && Enabled(w, a) && Prepared(w, a).Some?
    ensures Tidy(Prepared(w, a).value.locker)
  {
    var l, l', added := w.s.locker, Prepared(w, a).value.locker, Arriving(w, a);
    LiveIsTidy(l, RequestConservation.Live(w));
    PreparedQueue(w, a);
    if added != [] {
      ArrivesFromElsewhere(w, a, added[0]);
      if a.ApiAnswered? { AnsweredQueue(UpdateConnection(w.s, a.api.error, w.now).locker, a.r, a.api, w.now); }
      assert added[0] !in l'.checkedOut;
    }
  }

  /** Asking once more by force. */
  lemma ForceAsks(s: State)
    requires Asked(s.locker) == 0
    ensures var s' := RequestNeeded(s, true);
      && s'.locker == s.locker.(tokenRequests := s.locker.tokenRequests
           + if s.locker.sessionState.CredentialsFailure? && s.locker.credentials.Some?
             then Least(1, Granted(s.locker)) else 0)
      && s'.sentWith == s.sentWith
  {
    GrantedMeansWanted(s.locker);
    if s.locker.credentials.Some? { GrantedAreRequested(s, s.locker.credentials.value); }
  }

  lemma NothingLeftToAsk(s: State)
    requires !s.locker.connection.Unconnected?
    ensures Asked(AttemptRequests(s).locker) == 0
  {
    var u := StartWithTokens(StartTokenless(s));
    NeededAsks(u);
    if u.locker.credentials.Some? {
      WakeUps.RequestLoopEnds(u, u.locker.credentials.value);
      GrantedMeansWanted(AttemptRequests(s).locker);
    }
  }

  /** With bad credentials AttemptRequests asks for nothing, and what could be asked stays the same. */
  lemma BadCredentialsAskNothing(s: State)
    requires !s.locker.connection.Unconnected? && Tidy(s.locker) && s.locker.sessionState.CredentialsFailure?
    ensures Granted(AttemptRequests(s).locker) == Granted(s.locker)
  {
    LoopsKeepAsked(s);
    NeededAsks(StartWithTokens(StartTokenless(s)));
  }

  lemma AttemptKeepsSession(s: State)
    requires !s.locker.connection.Unconnected? && Tidy(s.locker)
    ensures var l := AttemptRequests(s).locker;
      l.sessionState == s.locker.sessionState && l.credentials == s.locker.credentials
  {
    LoopsKeepAsked(s);
    NeededAsks(StartWithTokens(StartTokenless(s)));
  }

  lemma ForcedAttemptSends(s: State)
    requires !s.locker.connection.Unconnected? && Tidy(s.locker)
    ensures var s' := RequestNeeded(AttemptRequests(s), true);
      && Sent(s, s', Paired(s.locker))
      && s'.locker.tokenRequests == s.locker.tokenRequests + AskedBy(FailureTimerFires, s.locker)
  {
    var t := AttemptRequests(s);
    AttemptSends(s);
    NothingLeftToAsk(s);
    AttemptKeepsSession(s);
    ForceAsks(t);
    if s.locker.sessionState.CredentialsFailure? { BadCredentialsAskNothing(s); }
    SameSent(s, t, RequestNeeded(t, true), Paired(s.locker));
  }

  lemma SameSent(s: State, t: State, t': State, n: nat)
    requires Sent(s, t, n) && t'.sentWith == t.sentWith
    requires t'.locker == t.locker.(tokenRequests := t'.locker.tokenRequests)
    ensures Sent(s, t', n)
  {
  }

  /** First in, first out, for every handler and in every reachable state: what a handler queues goes to
      the back; then, while connected, all requests without a token are sent, and the oldest others in
      queue order, as many as there are tokens, each with the newest token left; and exactly as many
      tokens are asked for as the rest needs and the limits leave. */
  lemma HandlersSendInOrder(actions: seq<Action>, a: Action)
    requires Enabled(Run(actions), a) && Prepared(Run(actions), a).Some?
    ensures var w, p, s' := Run(actions), Prepared(Run(actions), a).value, Effect(Run(actions), a);
      && p.locker.waitingSt == w.s.locker.waitingSt + Arriving(w, a)
      && (!p.locker.connection.Unconnected? ==>
            && Sent(p, s', Paired(p.locker))
            && s'.locker.tokenRequests == p.locker.tokenRequests + AskedBy(a, p.locker))
  {
    var w := Run(actions);
    RequestConservation.RunKeepsInv(actions);
    PreparedQueue(w, a);
    PreparedIsTidy(w, a);
    var p := Prepared(w, a).value;
    if !p.locker.connection.Unconnected? {
      if a.FailureTimerFires? { ForcedAttemptSends(p); }
      else {
        EffectIsAttempt(w, a);
        AttemptSends(p);
      }
    }
  }

  /** No request is sent in any other way: while disconnected, or by a handler that does not attempt. */
  lemma NothingElseSends(actions: seq<Action>, a: Action)
    requires Enabled(Run(actions), a)
    requires Prepared(Run(actions), a).Some? ==> Prepared(Run(actions), a).value.locker.connection.Unconnected?
    ensures var s, s' := Run(actions).s, Effect(Run(actions), a);
      s'.sentWith == s.sentWith && s'.locker.inProgress <= s.locker.inProgress
  {
    var w := Run(actions);
    if Prepared(w, a).Some? {
      PreparedSendsNothing(w, a);
      if a.FailureTimerFires? {
        RequestConservation.RequestNeededMovesNothing(AttemptRequests(Prepared(w, a).value), true);
        ForcedKeepsSent(AttemptRequests(Prepared(w, a).value));
      } else {
        EffectIsAttempt(w, a);
      }
    } else {
      UnpreparedSendsNothing(w, a);
    }
  }

  lemma PreparedSendsNothing(w: World, a: Action)
    requires Enabled(w, a) && Prepared(w, a).Some?
    ensures var p := Prepared(w, a).value; p.sentWith == w.s.sentWith && p.locker.inProgress <= w.s.locker.inProgress
  {
    if a.ApiAnswered? {
      AnsweredSendsNothing(UpdateConnection(w.s, a.api.error, w.now).locker, a.r, a.api, w.now);
    }
  }

  lemma AnsweredSendsNothing(l: Locker, r: Request, response: ApiResponse, now: Time)
    ensures Answered(l, r, response, now).inProgress <= l.inProgress
  {
  }

  lemma UnpreparedSendsNothing(w: World, a: Action)
    requires Enabled(w, a) && Prepared(w, a).None?
    ensures var s' := Effect(w, a); s'.sentWith == w.s.sentWith && s'.locker.inProgress == w.s.locker.inProgress
  {
  }

  lemma ForcedKeepsSent(s: State)
    ensures RequestNeeded(s, true).sentWith == s.sentWith
  {
    if s.locker.credentials.Some? { GrantedAreRequested(s, s.locker.credentials.value); }
  }
}
