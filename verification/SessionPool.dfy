/** SessionMaintainerLocker as a value: its fields, and each mutex-guarded call as a function.
    Module SessionLocker holds the class, proved against these functions. */
module SessionPool {
  import opened Basics
  import opened SessionTypes
  import EventQueue
  import SecretKey

  const MAX_TOKEN_REQUESTS: nat := 4
  const MAX_TOKENS: nat := 10
  const UINT32: nat := 0x1_0000_0000

  datatype Locker = Locker(
    sessionState: SessionState,
    changeCount: nat,
    connection: ConnectionState,
    credentials: Option<Credentials>,
    waitingSt: seq<Request>,
    waitingNonSt: seq<Request>,
    inProgress: set<Request>,
    checkedOut: map<Request, SessionToken>,
    delayed: EventQueue.Queue<Request>,
    tokens: seq<SessionToken>,
    tokenRequests: nat,
    timeouts: EventQueue.Queue<Request>,
    failureCount: nat)

  function Fresh(): Locker {
    Locker(Uninitialized, 0, ConnectionUninitialized, None, [], [], {}, map[],
           EventQueue.Empty(), [], 0, EventQueue.Empty(), 0)
  }

  /** ChangeSessionStateInternal with its visitor: only a real change counts, and only the states
      without tokens clear the pool. */
  function ChangeState(l: Locker, state: SessionState): Locker {
    if l.sessionState == state then l
    else
      var l' := l.(sessionState := state, changeCount := (l.changeCount + 1) % UINT32);
      match state
      case Uninitialized => l'.(credentials := None, tokens := [], checkedOut := map[])
      case Initialized => l'.(tokens := [], checkedOut := map[])
      case CredentialsFailure(_, _) => l'.(tokens := [], checkedOut := map[])
      case ProlongedError(_) => l'
      case Running(_, _) => l'
  }

  function ChangeStateSafe(l: Locker, state: SessionState, changeCount: nat): Locker {
    if l.changeCount == changeCount then ChangeState(l, state) else l
  }

  function SetCredentials(l: Locker, c: Credentials): Locker {
    if l.credentials == Some(c) then l else ChangeState(l.(credentials := Some(c)), Initialized)
  }

  function Enqueue(l: Locker, r: Request): Locker {
    if r.usesToken
    then l.(waitingSt := l.waitingSt + [r])
    else l.(waitingNonSt := l.waitingNonSt + [r])
  }

  function AddWaiting(l: Locker, r: Request, now: Time): Locker {
    Enqueue(l.(timeouts := EventQueue.Add(l.timeouts, now + 1000 * r.timeoutSeconds, r)), r)
  }

  function RemoveInProgress(l: Locker, r: Request): Locker {
    l.(inProgress := l.inProgress - {r})
  }

  function InProgressToWaiting(l: Locker, r: Request): Locker {
    Enqueue(RemoveInProgress(l, r), r)
  }

  function InProgressToDelayed(l: Locker, r: Request, delaySeconds: nat, now: Time): Locker {
    RemoveInProgress(l, r).(delayed := EventQueue.Add(l.delayed, now + 1000 * delaySeconds, r))
  }

  function DropToken(l: Locker, r: Request): Locker {
    l.(checkedOut := l.checkedOut - {r})
  }

  function Renewed(t: SessionToken, newKey: bool): SessionToken {
    if newKey then t.(secretKey := SecretKey.NextKey(t.secretKey)) else t
  }

  function ReuseToken(l: Locker, r: Request, newKey: bool): Locker {
    if r.usesToken && r in l.checkedOut
    then DropToken(l, r).(tokens := l.tokens + [Renewed(l.checkedOut[r], newKey)])
    else l
  }

  /** std::map::insert: an entry that is already there wins. */
  function CheckOut(l: Locker, r: Request, t: SessionToken): Locker {
    l.(inProgress := l.inProgress + {r},
       checkedOut := if r in l.checkedOut then l.checkedOut else l.checkedOut[r := t])
  }

  predicate WantsToken(l: Locker) {
    || (l.tokenRequests == 0 && |l.tokens| + |l.checkedOut| == 0)
    || (&& |l.waitingSt| > l.tokenRequests + |l.tokens|
        && l.tokenRequests < MAX_TOKEN_REQUESTS
        && l.tokenRequests + |l.tokens| + |l.checkedOut| < MAX_TOKENS)
  }

  function AddToken(l: Locker, t: SessionToken, obtainedWith: Credentials): Locker {
    if l.credentials == Some(obtainedWith) then l.(tokens := l.tokens + [t]) else l
  }

  /** std::find followed by erase: the first occurrence goes. */
  function Without(queue: seq<Request>, r: Request): seq<Request> {
    if queue == [] then []
    else if queue[0] == r then queue[1..]
    else [queue[0]] + Without(queue[1..], r)
  }

  /** HandleTimedOutRequest, for a request that is still alive. */
  function TimeOut(l: Locker, r: Request): Locker {
    if r.usesToken
    then l.(waitingSt := Without(l.waitingSt, r))
    else l.(waitingNonSt := Without(l.waitingNonSt, r))
  }

  function TotalRequests(l: Locker): nat {
    |l.waitingSt| + |l.waitingNonSt| + |l.inProgress| + |l.delayed.data|
  }
}
