/** SessionMaintainer as a value: the locker, its two retry timers and what it has sent out, with
    each handler as a function. Module SessionMaintainer holds the class, proved against these. */
module Scheduler {
  import opened Basics
  import opened SessionTypes
  import opened SessionPool
  import EventQueue

  const PROLONGED_FAILURE_THRESHOLD: nat := 10
  const FAILURE_WAIT: nat := 2500
  const CONNECTION_RECHECK: nat := 5000
  const CREDENTIAL_FAILURE_WAIT: nat := 60000
  const ACCOUNT_LOCKED_WAIT: nat := 600000

  /** An asio timer with one waiter: `armed` is the expiry of the pending wait; `ready` counts
      handlers of elapsed waits that are already queued and can no longer be cancelled. */
  datatype Timer = Timer(armed: Option<Time>, ready: nat)

  function Arm(t: Timer, at: Time): Timer { t.(armed := Some(at)) }

  /** `tokenCalls` are the unanswered session token requests with the credentials each used;
      `statusChecks` counts unanswered system/get_status calls; `sentWith` is the token data last
      set on each request object. The unanswered scheduled requests are `locker.inProgress`. */
  datatype State = State(
    locker: Locker,
    failureTimer: Timer,
    recheckTimer: Timer,
    tokenCalls: seq<Credentials>,
    statusChecks: nat,
    sentWith: map<Request, SessionToken>)

  function Initial(): State { State(Fresh(), Timer(None, 0), Timer(None, 0), [], 0, map[]) }

  function UpdateConnection(s: State, e: ErrorCode, now: Time): State {
    if IsConnectionError(e)
    then s.(locker := s.locker.(connection := Unconnected(e)),
            recheckTimer := Arm(s.recheckTimer, now + CONNECTION_RECHECK))
    else s.(locker := s.locker.(connection := Connected))
  }

  /** AttemptRequests' first loop: every waiting request without a token is sent. */
  function StartTokenless(s: State): State
    decreases |s.locker.waitingNonSt|
  {
    if s.locker.waitingNonSt == [] then s else StartTokenless(StartOneTokenless(s))
  }

  function StartOneTokenless(s: State): State
    requires s.locker.waitingNonSt != []
  {
    s.(locker := s.locker.(waitingNonSt := s.locker.waitingNonSt[1..],
                           inProgress := s.locker.inProgress + {s.locker.waitingNonSt[0]}))
  }

  predicate CanCheckOut(l: Locker) { l.sessionState.Running? && l.waitingSt != [] && l.tokens != [] }

  /** AttemptRequests' second loop: the longest waiting request takes the last stored token. */
  function StartWithTokens(s: State): State
    decreases |s.locker.waitingSt|
  {
    if CanCheckOut(s.locker) then StartWithTokens(StartOneWithToken(s)) else s
  }

  function StartOneWithToken(s: State): State
    requires CanCheckOut(s.locker)
  {
    var l := s.locker;
    var r, t := l.waitingSt[0], l.tokens[|l.tokens| - 1];
    s.(locker := CheckOut(l.(waitingSt := l.waitingSt[1..], tokens := l.tokens[..|l.tokens| - 1]), r, t),
       sentWith := s.sentWith[r := t])
  }

  /** The loop of RequestNeededSessionTokens: a token request for each permission granted. */
  function RequestTokens(s: State, c: Credentials): State
    decreases MAX_TOKEN_REQUESTS - s.locker.tokenRequests
  {
    if WantsToken(s.locker) then RequestTokens(RequestOneToken(s, c), c) else s
  }

  function RequestOneToken(s: State, c: Credentials): State {
    s.(locker := s.locker.(tokenRequests := s.locker.tokenRequests + 1),
       tokenCalls := s.tokenCalls + [c])
  }

  function RequestNeeded(s: State, force: bool): State {
    var bad := s.locker.sessionState.CredentialsFailure?;
    if (bad && !force) || s.locker.credentials.None? then s
    else if bad then
      if WantsToken(s.locker) then RequestOneToken(s, s.locker.credentials.value) else s
    else RequestTokens(s, s.locker.credentials.value)
  }

  function AttemptRequests(s: State): State {
    if s.locker.connection.Unconnected?
    then s.(statusChecks := s.statusChecks + 1)
    else RequestNeeded(StartWithTokens(StartTokenless(s)), false)
  }

  function SetLoginCredentials(s: State, c: Credentials): State {
    AttemptRequests(s.(locker := SetCredentials(s.locker, c)))
  }

  /** Create: the deadline for retries, in whole seconds. */
  function NewRequest(id: nat, usesToken: bool, timeoutSeconds: nat, now: Time): Request {
    Request(id, usesToken, timeoutSeconds, now / 1000 + timeoutSeconds)
  }

  function AddWaitingRequest(s: State, r: Request, now: Time): State {
    AttemptRequests(s.(locker := AddWaiting(s.locker, r, now)))
  }

  /** CallbackProxy's decision: only a token request that failed with a transient error before its
      deadline is tried again. */
  predicate Retries(r: Request, response: ApiResponse, now: Time) {
    && r.usesToken && response.error != NoError && now / 1000 < r.maxRetryTime
    && (IsInvalidSessionTokenError(response.error) || response.error == AsyncOperationInProgress)
  }

  /** A finished request goes, and its token is reused or dropped. */
  function Completed(l: Locker, r: Request, response: ApiResponse): Locker {
    var l' := RemoveInProgress(l, r);
    if IsInvalidSessionTokenError(response.error) then DropToken(l', r) else ReuseToken(l', r, response.newKey)
  }

  /** A request to be tried again waits at once without its token, or a second later. */
  function Retried(l: Locker, r: Request, response: ApiResponse, now: Time): Locker {
    if IsInvalidSessionTokenError(response.error) then DropToken(InProgressToWaiting(l, r), r)
    else ReuseToken(InProgressToDelayed(l, r, 1, now), r, response.newKey)
  }

  function Complete(s: State, r: Request, response: ApiResponse): State {
    AttemptRequests(s.(locker := Completed(s.locker, r, response)))
  }

  function Retry(s: State, r: Request, response: ApiResponse, now: Time): State {
    AttemptRequests(s.(locker := Retried(s.locker, r, response, now)))
  }

  function HandleApiResponse(s: State, r: Request, response: ApiResponse, now: Time): State {
    var s' := UpdateConnection(s, response.error, now);
    if Retries(r, response, now) then Retry(s', r, response, now) else Complete(s', r, response)
  }

  function HandleStatusResponse(s: State, e: ErrorCode, now: Time): State
    requires s.statusChecks > 0
  {
    var s' := UpdateConnection(s.(statusChecks := s.statusChecks - 1), e, now);
    if s'.locker.connection.Connected? then AttemptRequests(s') else s'
  }

  /** The answer to the `i`th unanswered token request is taken off the count. */
  function TokenCallAnswered(s: State, i: nat): State
    requires i < |s.tokenCalls| && s.locker.tokenRequests > 0
  {
    s.(locker := s.locker.(tokenRequests := s.locker.tokenRequests - 1),
       tokenCalls := s.tokenCalls[..i] + s.tokenCalls[i + 1..])
  }

  function HandleTokenResponse(s: State, i: nat, response: TokenResponse, now: Time): State
    requires i < |s.tokenCalls| && s.locker.tokenRequests > 0
  {
    var s' := UpdateConnection(TokenCallAnswered(s, i), response.error, now);
    if response.error == NoError then TokenSuccess(s', s.tokenCalls[i], response)
    else TokenFailure(s', s.tokenCalls[i], response, now)
  }

  /** A token obtained with the credentials `c` is stored, and may start Running. */
  function Obtained(l: Locker, c: Credentials, response: TokenResponse): Locker {
    var added := AddToken(l.(failureCount := 0), response.token, c);
    if l.credentials == Some(c) && !l.sessionState.Uninitialized? && !l.sessionState.Running?
    then ChangeState(added, SessionState.Running(response.token.id, response.token.pkey))
    else added
  }

  function TokenSuccess(s: State, c: Credentials, response: TokenResponse): State {
    AttemptRequests(s.(locker := Obtained(s.locker, c, response)))
  }

  /** CredentialsFailure, unless the request was an old one. */
  function CredentialsRefused(l: Locker, c: Credentials, response: TokenResponse): Locker {
    if !l.sessionState.Uninitialized? && !l.sessionState.CredentialsFailure? && l.credentials == Some(c)
    then ChangeState(l, CredentialsFailure(if response.pkey == "" then None else Some(response.pkey), response.error))
    else l
  }

  /** ProlongedError, once failures have gone on long enough in a state that may advise it. */
  function FailureProlonged(l: Locker, e: ErrorCode): Locker {
    if (l.failureCount >= PROLONGED_FAILURE_THRESHOLD || e == AccountTemporarilyLocked)
       && (l.sessionState.Initialized? || l.sessionState.ProlongedError?)
    then ChangeState(l, ProlongedError(e))
    else l
  }

  function FailureWait(e: ErrorCode): Time {
    if e == AccountTemporarilyLocked then ACCOUNT_LOCKED_WAIT else FAILURE_WAIT
  }

  function TokenFailure(s: State, c: Credentials, response: TokenResponse, now: Time): State {
    var e := response.error;
    var l := s.locker.(failureCount := (s.locker.failureCount + 1) % UINT32);
    if IsInvalidCredentialsError(e)
    then s.(failureTimer := Arm(s.failureTimer, now + CREDENTIAL_FAILURE_WAIT),
            locker := CredentialsRefused(l, c, response))
    else s.(failureTimer := Arm(s.failureTimer, now + FailureWait(e)), locker := FailureProlonged(l, e))
  }

  /** HandleSessionTokenFailureTimeout, for a wait that was not cancelled. */
  function HandleFailureTimeout(s: State): State
    requires s.failureTimer.ready > 0
  {
    RequestNeeded(AttemptRequests(s.(failureTimer := s.failureTimer.(ready := s.failureTimer.ready - 1))), true)
  }

  /** HandleConnectionStateRecheckTimeout, for a wait that was not cancelled. */
  function HandleRecheckTimeout(s: State): State
    requires s.recheckTimer.ready > 0
  {
    AttemptRequests(s.(recheckTimer := s.recheckTimer.(ready := s.recheckTimer.ready - 1)))
  }

  /** The timeouts queue hands its front event to HandleTimedOutRequest. */
  function DeliverTimeout(s: State): State
    requires EventQueue.CanDeliver(s.locker.timeouts)
  {
    var l := s.locker.(timeouts := EventQueue.Deliver(s.locker.timeouts));
    s.(locker := TimeOut(l, s.locker.timeouts.data[0].event))
  }

  /** The delayed queue hands its front event to AddWaitingRequest. */
  function DeliverDelayed(s: State, now: Time): State
    requires EventQueue.CanDeliver(s.locker.delayed)
  {
    var l := s.locker.(delayed := EventQueue.Deliver(s.locker.delayed));
    AddWaitingRequest(s.(locker := l), s.locker.delayed.data[0].event, now)
  }
}
