/** What each answer from the network means for the scheduler: which requests are tried again, which errors
    disconnect, and which refuse the credentials. The error codes and the times are written out. */
module Answers {
  import opened Basics
  import opened SessionTypes
  import opened SessionPool
  import opened Scheduler
  import opened SchedulerRuns
  import BoundedWait
  import Dispatch
  import DistinctTokens
  import EventQueue
  import KeyAgreement
  import ProlongedErrors
  import RequestConservation
  import Retrying
  import SecretKey
  import TokenPool

  // ---- what an attempt leaves alone

  ghost predicate SameAround(s: State, s': State) {
    && s'.locker.connection == s.locker.connection && s'.recheckTimer == s.recheckTimer
    && s'.locker.delayed == s.locker.delayed
  }

  ghost predicate SameLoop(s: State, s': State) { SameAround(s, s') && s'.statusChecks == s.statusChecks }

  lemma {:induction false} TokenlessAround(s: State)
    ensures SameLoop(s, StartTokenless(s))
    decreases |s.locker.waitingNonSt|
  {
    if s.locker.waitingNonSt != [] { TokenlessAround(StartOneTokenless(s)); }
  }

  lemma {:induction false} WithTokensAround(s: State)
    ensures SameLoop(s, StartWithTokens(s))
    decreases |s.locker.waitingSt|
  {
    if CanCheckOut(s.locker) { WithTokensAround(StartOneWithToken(s)); }
  }

  lemma {:induction false} RequestTokensAround(s: State, c: Credentials)
    ensures SameLoop(s, RequestTokens(s, c))
    decreases MAX_TOKEN_REQUESTS - s.locker.tokenRequests
  {
    if WantsToken(s.locker) { RequestTokensAround(RequestOneToken(s, c), c); }
  }

  lemma NeededAround(s: State, force: bool)
    ensures SameLoop(s, RequestNeeded(s, force))
  {
    if s.locker.credentials.Some? { RequestTokensAround(s, s.locker.credentials.value); }
  }

  lemma AttemptAround(s: State)
    ensures SameAround(s, AttemptRequests(s))
    ensures AttemptRequests(s).statusChecks == s.statusChecks + if s.locker.connection.Unconnected? then 1 else 0
  {
    TokenlessAround(s);
    WithTokensAround(StartTokenless(s));
    NeededAround(StartWithTokens(StartTokenless(s)), false);
  }

  // ---- the connection

  /** The error code of an answer, if the action is one. */
  function AnswerError(a: Action): Option<ErrorCode> {
    match a
    case ApiAnswered(_, response) => Some(response.error)
    case TokenAnswered(_, response) => Some(response.error)
    case StatusAnswered(e) => Some(e)
    case _ => None
  }

  /** The errors of session_maintainer.cpp:197-208. */
  predicate Disconnects(e: ErrorCode) {
    e in {UnableToConnect, UnableToConnectToProxy, UnableToResolve, SslHandshakeFailure,
          WriteFailure, ReadFailure, ProxyProtocolFailure, IoTimeout}
  }

  ghost predicate ConnectionAfter(s: State, s': State, e: ErrorCode, now: Time) {
    if Disconnects(e)
    then s'.locker.connection == Unconnected(e) && s'.recheckTimer == s.recheckTimer.(armed := Some(now + 5000))
    else s'.locker.connection == Connected && s'.recheckTimer == s.recheckTimer
  }

  lemma UpdateConnects(s: State, e: ErrorCode, now: Time)
    ensures ConnectionAfter(s, UpdateConnection(s, e, now), e, now)
    ensures UpdateConnection(s, e, now).locker.delayed == s.locker.delayed
  {
  }

  lemma StillAround(s: State, p: State, s': State, e: ErrorCode, now: Time)
    requires ConnectionAfter(s, p, e, now) && SameAround(p, s')
    ensures ConnectionAfter(s, s', e, now)
  {
  }

  lemma ObtainedAround(s: State, c: Credentials, response: TokenResponse)
    ensures SameAround(s, TokenSuccess(s, c, response))
  {
    AttemptAround(s.(locker := Obtained(s.locker, c, response)));
  }

  lemma FailureAround(s: State, c: Credentials, response: TokenResponse, now: Time)
    ensures SameAround(s, TokenFailure(s, c, response, now))
  {
  }

  lemma TokenAnswerConnects(w: World, i: nat, response: TokenResponse)
    requires Enabled(w, TokenAnswered(i, response))
    ensures ConnectionAfter(w.s, Effect(w, TokenAnswered(i, response)), response.error, w.now)
  {
    var s, c, e := TokenCallAnswered(w.s, i), w.s.tokenCalls[i], response.error;
    var p := UpdateConnection(s, e, w.now);
    UpdateConnects(s, e, w.now);
    if e == NoError {
      ObtainedAround(p, c, response);
      StillAround(w.s, p, TokenSuccess(p, c, response), e, w.now);
    } else {
      FailureAround(p, c, response, w.now);
      StillAround(w.s, p, TokenFailure(p, c, response, w.now), e, w.now);
    }
  }

  lemma CompleteConnects(s: State, r: Request, response: ApiResponse)
    ensures Complete(s, r, response).locker.connection == s.locker.connection
    ensures Complete(s, r, response).recheckTimer == s.recheckTimer
  {
    AttemptAround(s.(locker := Completed(s.locker, r, response)));
  }

  lemma RetryConnects(s: State, r: Request, response: ApiResponse, now: Time)
    ensures Retry(s, r, response, now).locker.connection == s.locker.connection
    ensures Retry(s, r, response, now).recheckTimer == s.recheckTimer
  {
    AttemptAround(s.(locker := Retried(s.locker, r, response, now)));
  }

  lemma ApiAnswerConnects(w: World, r: Request, response: ApiResponse)
    requires Enabled(w, ApiAnswered(r, response))
    ensures ConnectionAfter(w.s, Effect(w, ApiAnswered(r, response)), response.error, w.now)
  {
    var p := UpdateConnection(w.s, response.error, w.now);
    UpdateConnects(w.s, response.error, w.now);
    CompleteConnects(p, r, response);
    RetryConnects(p, r, response, w.now);
  }

  lemma StatusAnswerConnects(w: World, e: ErrorCode)
    requires Enabled(w, StatusAnswered(e))
    ensures ConnectionAfter(w.s, Effect(w, StatusAnswered(e)), e, w.now)
  {
    var p := UpdateConnection(w.s.(statusChecks := w.s.statusChecks - 1), e, w.now);
    StatusConnects(w.s, e, w.now);
    AttemptAround(p);
    StillAround(w.s, p, AttemptRequests(p), e, w.now);
  }

  lemma StatusConnects(s: State, e: ErrorCode, now: Time)
    requires s.statusChecks > 0
    ensures ConnectionAfter(s, UpdateConnection(s.(statusChecks := s.statusChecks - 1), e, now), e, now)
  {
    UpdateConnects(s.(statusChecks := s.statusChecks - 1), e, now);
  }

  /** Every answer decides about the connection: it is lost if and only if the error is one of the eight,
      and then the status is checked five seconds later; any other answer, also an error, restores it. */
  lemma AnswerConnects(w: World, a: Action)
    requires Enabled(w, a) && AnswerError(a).Some?
    ensures ConnectionAfter(w.s, Effect(w, a), AnswerError(a).value, w.now)
  {
    match a
    case ApiAnswered(r, response) => ApiAnswerConnects(w, r, response);
    case TokenAnswered(i, response) => TokenAnswerConnects(w, i, response);
    case StatusAnswered(e) => StatusAnswerConnects(w, e);
  }

  lemma FailureTimerAround(s: State)
    requires s.failureTimer.ready > 0
    ensures SameAround(s, HandleFailureTimeout(s))
  {
    var s' := s.(failureTimer := s.failureTimer.(ready := s.failureTimer.ready - 1));
    AttemptAround(s');
    NeededAround(AttemptRequests(s'), true);
  }

  lemma DeliveryConnection(s: State, now: Time)
    requires EventQueue.CanDeliver(s.locker.delayed)
    ensures DeliverDelayed(s, now).locker.connection == s.locker.connection
  {
    var l := s.locker.(delayed := EventQueue.Deliver(s.locker.delayed));
    AttemptAround(s.(locker := AddWaiting(l, s.locker.delayed.data[0].event, now)));
  }

  /** Nothing else touches the connection. */
  lemma OnlyAnswersConnect(w: World, a: Action)
    requires Enabled(w, a) && AnswerError(a).None?
    ensures Effect(w, a).locker.connection == w.s.locker.connection
  {
    match a
    case SetCredentials(c) => AttemptAround(w.s.(locker := SessionPool.SetCredentials(w.s.locker, c)));
    case Call(usesToken, timeoutSeconds) =>
      var r := NewRequest(|w.submitted|, usesToken, timeoutSeconds, w.now);
      AttemptAround(w.s.(locker := AddWaiting(w.s.locker, r, w.now)));
    case FailureTimerFires => FailureTimerAround(w.s);
    case RecheckTimerFires =>
      AttemptAround(w.s.(recheckTimer := w.s.recheckTimer.(ready := w.s.recheckTimer.ready - 1)));
    case Delayed(qa) => if qa.Delivers? { DeliveryConnection(w.s, w.now); }
    case _ =>
  }

  // ---- status checks

  /** The actions whose handlers attempt requests though they cannot restore the connection. */
  predicate AttemptsAnyway(a: Action) {
    || a.SetCredentials? || a.Call? || a.ApiAnswered? || a.FailureTimerFires? || a.RecheckTimerFires?
    || a == Delayed(Delivers)
  }

  lemma AttemptsChecks(w: World, a: Action)
    requires Enabled(w, a) && Dispatch.Prepared(w, a).Some?
    ensures Effect(w, a).statusChecks == Dispatch.Prepared(w, a).value.statusChecks
              + if Dispatch.Prepared(w, a).value.locker.connection.Unconnected? then 1 else 0
    ensures Effect(w, a).locker.connection == Dispatch.Prepared(w, a).value.locker.connection
  {
    var p := Dispatch.Prepared(w, a).value;
    AttemptAround(p);
    if a.FailureTimerFires? { NeededAround(AttemptRequests(p), true); } else { Dispatch.EffectIsAttempt(w, a); }
  }

  lemma PreparedChecks(w: World, a: Action)
    requires Enabled(w, a)
    ensures var p := Dispatch.Prepared(w, a);
      && (AttemptsAnyway(a) ==> p.Some?)
      && (p.Some? ==> p.value.statusChecks == w.s.statusChecks - if a.StatusAnswered? then 1 else 0)
      && (p.Some? && !AttemptsAnyway(a) ==> p.value.locker.connection.Connected?)
  {
  }

  lemma UnpreparedChecks(w: World, a: Action)
    requires Enabled(w, a) && Dispatch.Prepared(w, a).None?
    ensures Effect(w, a).statusChecks == w.s.statusChecks - if a.StatusAnswered? then 1 else 0
  {
  }

  /** A status check is started exactly by a handler that attempts requests and finds or leaves the
      connection down. In particular a failed check starts no other one: the next is the timer's. */
  lemma ChecksStarted(w: World, a: Action)
    requires Enabled(w, a)
    ensures Effect(w, a).statusChecks
         == w.s.statusChecks - (if a.StatusAnswered? then 1 else 0)
            + if AttemptsAnyway(a) && Effect(w, a).locker.connection.Unconnected? then 1 else 0
  {
    PreparedChecks(w, a);
    if Dispatch.Prepared(w, a).Some? { AttemptsChecks(w, a); } else { UnpreparedChecks(w, a); }
  }

  // ---- requests tried again

  /** A request with a token, one of three errors, and the deadline not come. */
  predicate TriesAgain(r: Request, e: ErrorCode, now: Time) {
    r.usesToken && e in {SessionTokenInvalid, SignatureInvalid, AsyncOperationInProgress} && now / 1000 < r.maxRetryTime
  }

  /** Every answer to a request finishes it if and only if it is not tried again. */
  lemma AnswerFinishes(actions: seq<Action>, r: Request, response: ApiResponse)
    requires Enabled(Run(actions), ApiAnswered(r, response))
    ensures var w := Run(actions);
      r in Step(w, ApiAnswered(r, response)).finished <==> !TriesAgain(r, response.error, w.now)
  {
    RequestConservation.RunKeepsInv(actions);
    RequestConservation.InProgressIsLive(Run(actions), r);
  }

  lemma RetriedDelays(l: Locker, r: Request, response: ApiResponse, now: Time)
    requires response.error !in {SessionTokenInvalid, SignatureInvalid}
    ensures Retried(l, r, response, now).delayed == EventQueue.Add(l.delayed, now + 1000, r)
  {
  }

  lemma RetriedWaits(l: Locker, r: Request, response: ApiResponse, now: Time)
    requires response.error in {SessionTokenInvalid, SignatureInvalid}
    ensures Retried(l, r, response, now).delayed == l.delayed
  {
  }

  lemma RetryEffect(w: World, r: Request, response: ApiResponse)
    requires Enabled(w, ApiAnswered(r, response)) && TriesAgain(r, response.error, w.now)
    ensures Effect(w, ApiAnswered(r, response)).locker.delayed
         == Retried(UpdateConnection(w.s, response.error, w.now).locker, r, response, w.now).delayed
  {
    var p := UpdateConnection(w.s, response.error, w.now);
    AttemptAround(p.(locker := Retried(p.locker, r, response, w.now)));
  }

  /** An operation that is still in progress is asked for again one second later. */
  lemma ProgressDelays(w: World, r: Request, response: ApiResponse)
    requires Enabled(w, ApiAnswered(r, response))
    requires TriesAgain(r, response.error, w.now) && response.error == AsyncOperationInProgress
    ensures Effect(w, ApiAnswered(r, response)).locker.delayed == EventQueue.Add(w.s.locker.delayed, w.now + 1000, r)
    ensures EventQueue.Entry(w.now + 1000, r) in Effect(w, ApiAnswered(r, response)).locker.delayed.data
  {
    RetryEffect(w, r, response);
    RetriedDelays(UpdateConnection(w.s, response.error, w.now).locker, r, response, w.now);
    BoundedWait.AddKeepsEntries(w.s.locker.delayed, w.now + 1000, r);
  }

  lemma InProgressNowhereElse(w: World, r: Request)
    requires RequestConservation.Inv(w) && r in w.s.locker.inProgress
    ensures r !in EventQueue.Events(w.s.locker.delayed.data)
  {
    RequestConservation.OnePlace(w.s.locker, RequestConservation.Live(w), r);
    assert r in EventQueue.Events(w.s.locker.delayed.data) ==>
             multiset(EventQueue.Events(w.s.locker.delayed.data))[r] > 0;
  }

  /** A request whose token was refused waits again at once, or is already on its way with another one. */
  lemma RefusedWaitsAgain(actions: seq<Action>, r: Request, response: ApiResponse)
    requires Enabled(Run(actions), ApiAnswered(r, response)) && TriesAgain(r, response.error, Run(actions).now)
    requires response.error in {SessionTokenInvalid, SignatureInvalid}
    ensures var l := Effect(Run(actions), ApiAnswered(r, response)).locker; r in l.waitingSt || r in l.inProgress
  {
    var w, a := Run(actions), ApiAnswered(r, response);
    var l := Effect(w, a).locker;
    RequestConservation.RunKeepsInv(actions);
    InProgressNowhereElse(w, r);
    RetryEffect(w, r, response);
    RetriedWaits(UpdateConnection(w.s, response.error, w.now).locker, r, response, w.now);
    RunGrows(actions, a);
    RequestConservation.RunKeepsInv(actions + [a]);
    AnswerFinishes(actions, r, response);
    RequestConservation.InProgressIsLive(w, r);
    RequestConservation.ExactlyOnePlace(actions + [a], r);
    assert l.delayed == w.s.locker.delayed;
    Somewhere(l, r);
  }

  lemma Somewhere(l: Locker, r: Request)
    requires RequestConservation.Places(l)[r] == 1 && RequestConservation.Typed(l) && r.usesToken
    requires r !in EventQueue.Events(l.delayed.data)
    ensures r in l.waitingSt || r in l.inProgress
  {
    assert multiset(EventQueue.Events(l.delayed.data))[r] == 0 && multiset(l.waitingNonSt)[r] == 0;
    assert r in multiset(l.waitingSt) || r in multiset(l.inProgress);
  }

  // ---- tokens given back, or not

  lemma DropLeavesNone(l: Locker, r: Request, known: set<string>)
    requires DistinctTokens.Distinct(l, known) && r in l.checkedOut
    ensures DistinctTokens.Distinct(DropToken(l, r), known - {l.checkedOut[r].id})
  {
  }

  lemma DistinctIsGone(l: Locker, known: set<string>, id: string)
    requires DistinctTokens.Distinct(l, known) && id !in known
    ensures KeyAgreement.Gone(l, id)
  {
  }

  lemma SamePoolDistinct(l: Locker, l': Locker, known: set<string>)
    requires DistinctTokens.Distinct(l, known) && l'.tokens == l.tokens && l'.checkedOut == l.checkedOut
    ensures DistinctTokens.Distinct(l', known)
  {
  }

  lemma DroppedStaysGone(s: State, r: Request, response: ApiResponse, now: Time, known: set<string>)
    requires DistinctTokens.Distinct(DropToken(s.locker, r), known)
    requires response.error in {SessionTokenInvalid, SignatureInvalid}
    ensures DistinctTokens.Distinct(Retry(s, r, response, now).locker, known)
    ensures DistinctTokens.Distinct(Complete(s, r, response).locker, known)
  {
    var again, done := Retried(s.locker, r, response, now), Completed(s.locker, r, response);
    SamePoolDistinct(DropToken(s.locker, r), again, known);
    SamePoolDistinct(DropToken(s.locker, r), done, known);
    DistinctTokens.AttemptKeepsDistinct(s.(locker := again), known);
    DistinctTokens.AttemptKeepsDistinct(s.(locker := done), known);
  }

  /** A token that the server refused is dropped for good, whether the request is tried again or not. */
  lemma RefusedTokenLeaves(actions: seq<Action>, r: Request, response: ApiResponse)
    requires DistinctTokens.NeverRepeats(actions) && Enabled(Run(actions), ApiAnswered(r, response))
    requires response.error in {SessionTokenInvalid, SignatureInvalid} && r in Run(actions).s.locker.checkedOut
    ensures var w := Run(actions);
      KeyAgreement.Gone(Effect(w, ApiAnswered(r, response)).locker, w.s.locker.checkedOut[r].id)
  {
    var w := Run(actions);
    var id, known := w.s.locker.checkedOut[r].id, DistinctTokens.Known(w);
    DistinctTokens.RunKeepsDistinct(actions);
    DropLeavesNone(w.s.locker, r, known);
    var p := UpdateConnection(w.s, response.error, w.now);
    SamePoolDistinct(DropToken(w.s.locker, r), DropToken(p.locker, r), known - {id});
    DroppedStaysGone(p, r, response, w.now, known - {id});
    DistinctIsGone(Effect(w, ApiAnswered(r, response)).locker, known - {id}, id);
  }

  /** Stored, or held by a request. */
  ghost predicate Held(l: Locker, t: SessionToken) {
    t in l.tokens || exists r :: r in l.checkedOut && l.checkedOut[r] == t
  }

  lemma StartHolds(s: State, t: SessionToken)
    requires CanCheckOut(s.locker) && s.locker.waitingSt[0] !in s.locker.checkedOut && Held(s.locker, t)
    ensures Held(StartOneWithToken(s).locker, t)
  {
    var l, l' := s.locker, StartOneWithToken(s).locker;
    var n := |l.tokens| - 1;
    if t in l.tokens {
      assert l.tokens == l'.tokens + [l.tokens[n]];
      assert l'.checkedOut[l.waitingSt[0]] == l.tokens[n];
    } else {
      var r :| r in l.checkedOut && l.checkedOut[r] == t;
      assert l'.checkedOut[r] == t;
    }
  }

  lemma {:induction false} LoopHolds(s: State, t: SessionToken)
    requires Dispatch.Tidy(s.locker) && Held(s.locker, t)
    ensures Held(StartWithTokens(s).locker, t)
    decreases |s.locker.waitingSt|
  {
    if CanCheckOut(s.locker) {
      StartHolds(s, t);
      var next := StartOneWithToken(s);
      assert s.locker.waitingSt[0] !in next.locker.waitingSt;
      LoopHolds(next, t);
    }
  }

  lemma AttemptHolds(s: State, t: SessionToken)
    requires Dispatch.Tidy(s.locker) && Held(s.locker, t)
    ensures Held(AttemptRequests(s).locker, t)
  {
    DistinctTokens.TokenlessLeavesPool(s);
    Dispatch.TokenlessAllSent(s);
    var u := StartTokenless(s);
    LoopHolds(u, t);
    RequestConservation.RequestNeededMovesNothing(StartWithTokens(u), false);
  }

  lemma GivenBack(l: Locker, r: Request, response: ApiResponse, now: Time)
    requires r in l.checkedOut && r.usesToken && response.error !in {SessionTokenInvalid, SignatureInvalid}
    ensures Held(Dispatch.Answered(l, r, response, now), WithKey(l.checkedOut[r], response.newKey))
  {
  }

  /** The token as the answer leaves it. */
  function WithKey(t: SessionToken, newKey: bool): SessionToken {
    if newKey then t.(secretKey := SecretKey.NextKey(t.secretKey)) else t
  }

  /** After any other answer, also an error, it is used again, with its key renewed just if the answer
      says so. */
  lemma OtherTokenStays(actions: seq<Action>, r: Request, response: ApiResponse)
    requires Enabled(Run(actions), ApiAnswered(r, response)) && r in Run(actions).s.locker.checkedOut
    requires response.error !in {SessionTokenInvalid, SignatureInvalid}
    ensures Held(Effect(Run(actions), ApiAnswered(r, response)).locker,
                 WithKey(Run(actions).s.locker.checkedOut[r], response.newKey))
  {
    var w, a := Run(actions), ApiAnswered(r, response);
    RequestConservation.RunKeepsInv(actions);
    GivenBack(UpdateConnection(w.s, response.error, w.now).locker, r, response, w.now);
    Dispatch.PreparedIsTidy(w, a);
    Dispatch.EffectIsAttempt(w, a);
    AttemptHolds(Dispatch.Prepared(w, a).value, WithKey(w.s.locker.checkedOut[r], response.newKey));
  }

  // ---- deadlines

  /** The action at `n` made the request, and its deadline is that second and its timeout. */
  ghost predicate MadeAt(actions: seq<Action>, n: nat, r: Request) {
    && n < |actions| && actions[n] == Call(r.usesToken, r.timeoutSeconds)
    && r.maxRetryTime == Run(actions[..n]).now / 1000 + r.timeoutSeconds
  }

  /** Every request was made by a call, and may be tried again until its timeout, in whole seconds. */
  lemma {:induction false} EachWasMade(actions: seq<Action>, r: Request)
    requires r in Run(actions).submitted
    ensures exists n: nat :: MadeAt(actions, n, r)
    decreases |actions|
  {
    var last := |actions| - 1;
    if r in Run(actions[..last]).submitted {
      EachWasMade(actions[..last], r);
      var n: nat :| MadeAt(actions[..last], n, r);
      assert actions[..last][..n] == actions[..n];
      assert MadeAt(actions, n, r);
    } else {
      assert MadeAt(actions, last, r);
    }
  }

  // ---- the session state

  /** The errors of a token request that refuse its credentials. */
  predicate Refuses(e: ErrorCode) { e in {CredentialsInvalid, ParametersInvalid, FacebookAuthenticationFailure} }

  /** What a token request made with the credentials now set does to the session state. */
  function OwnAnswer(state: SessionState, response: TokenResponse): SessionState {
    if response.error == NoError
    then if state.Running? then state else SessionState.Running(response.token.id, response.token.pkey)
    else if state.CredentialsFailure? then state
    else CredentialsFailure(if response.pkey == "" then None else Some(response.pkey), response.error)
  }

  /** Failures that have gone on, of whatever request, are told while there is nothing better to tell. */
  function Prolonged(state: SessionState, failures: nat, e: ErrorCode): SessionState {
    if (state.Initialized? || state.ProlongedError?) && (failures >= 10 || e == AccountTemporarilyLocked)
    then SessionState.ProlongedError(e) else state
  }

  /** The session state that follows, for each kind of action. */
  function StateAfter(w: World, a: Action): SessionState
    requires Enabled(w, a)
  {
    var l := w.s.locker;
    if a.SetCredentials? && l.credentials != Some(a.c) then Initialized
    else if !a.TokenAnswered? then l.sessionState
    else if a.token.error == NoError || Refuses(a.token.error) then
      if l.credentials == Some(w.s.tokenCalls[a.i]) then OwnAnswer(l.sessionState, a.token) else l.sessionState
    else Prolonged(l.sessionState, (l.failureCount + 1) % 0x1_0000_0000, a.token.error)
  }

  lemma SuccessState(s: State, c: Credentials, response: TokenResponse)
    requires s.locker.credentials.Some? ==> !s.locker.sessionState.Uninitialized?
    requires response.error == NoError
    ensures TokenSuccess(s, c, response).locker.sessionState
         == if s.locker.credentials == Some(c) then OwnAnswer(s.locker.sessionState, response)
            else s.locker.sessionState
  {
    Retrying.AttemptRetry(s.(locker := Obtained(s.locker, c, response)));
  }

  lemma RefusalState(s: State, c: Credentials, response: TokenResponse, now: Time)
    requires s.locker.credentials.Some? ==> !s.locker.sessionState.Uninitialized?
    requires Refuses(response.error)
    ensures TokenFailure(s, c, response, now).locker.sessionState
         == if s.locker.credentials == Some(c) then OwnAnswer(s.locker.sessionState, response)
            else s.locker.sessionState
  {
  }

  lemma FailureState(s: State, c: Credentials, response: TokenResponse, now: Time)
    requires response.error != NoError && !Refuses(response.error)
    ensures TokenFailure(s, c, response, now).locker.sessionState
         == Prolonged(s.locker.sessionState, (s.locker.failureCount + 1) % 0x1_0000_0000, response.error)
  {
  }

  lemma TokenAnswerState(w: World, i: nat, response: TokenResponse)
    requires Enabled(w, TokenAnswered(i, response))
    requires w.s.locker.credentials.Some? ==> !w.s.locker.sessionState.Uninitialized?
    ensures Effect(w, TokenAnswered(i, response)).locker.sessionState == StateAfter(w, TokenAnswered(i, response))
  {
    var s, c := UpdateConnection(TokenCallAnswered(w.s, i), response.error, w.now), w.s.tokenCalls[i];
    if response.error == NoError { SuccessState(s, c, response); }
    else if Refuses(response.error) { RefusalState(s, c, response, w.now); }
    else { FailureState(s, c, response, w.now); }
  }

  lemma CredentialsState(s: State, c: Credentials)
    ensures SetLoginCredentials(s, c).locker.sessionState
         == if s.locker.credentials == Some(c) then s.locker.sessionState else Initialized
  {
    Retrying.AttemptRetry(s.(locker := SessionPool.SetCredentials(s.locker, c)));
  }

  /** The whole advisory state machine: in every reachable state, each action leads to just this session
      state, whatever else its handler does. */
  lemma StateFollows(actions: seq<Action>, a: Action)
    requires Enabled(Run(actions), a)
    ensures Effect(Run(actions), a).locker.sessionState == StateAfter(Run(actions), a)
  {
    var w := Run(actions);
    TokenPool.RunKeepsPool(actions);
    match a
    case TokenAnswered(i, response) => TokenAnswerState(w, i, response);
    case SetCredentials(c) => CredentialsState(w.s, c);
    case FailureTimerFires => ProlongedErrors.FailureTimerState(w.s);
    case FailureTimerExpires =>
    case _ => Retrying.OtherActionsRetry(w, a);
  }

  /** Entering a state, whichever it is and from wherever: the tokens go exactly for the three states that
      have none, the credentials exactly for Uninitialized, and entering the state one is in does nothing. */
  lemma EnteringClears(l: Locker, state: SessionState)
    ensures var l' := ChangeState(l, state);
      var clears := state.Uninitialized? || state.Initialized? || state.CredentialsFailure?;
      && l'.sessionState == state
      && (l' == l <==> state == l.sessionState)
      && (state != l.sessionState ==>
            && l'.changeCount == (l.changeCount + 1) % 0x1_0000_0000
            && l'.tokens == (if clears then [] else l.tokens)
            && l'.checkedOut == (if clears then map[] else l.checkedOut)
            && l'.credentials == (if state.Uninitialized? then None else l.credentials))
  {
  }
}
