/** The class of src/mediafire_sdk/api/detail/session_maintainer_locker.cpp. Every method is one
    call made under the mutex, and leaves exactly the value module SessionPool says. */
module SessionLocker {
  import opened Basics
  import opened SessionTypes
  import opened SessionPool
  import SecretKey
  import TimedEvents

  class SessionMaintainerLocker {
    var sessionState: SessionState
    var changeCount: nat
    var connection: ConnectionState
    var credentials: Option<Credentials>
    var waitingSt: seq<Request>
    var waitingNonSt: seq<Request>
    var inProgress: set<Request>
    var checkedOut: map<Request, SessionToken>
    const delayed: TimedEvents.TimedEvents<Request>
    var tokens: seq<SessionToken>
    var tokenRequests: nat
    const timeouts: TimedEvents.TimedEvents<Request>
    var failureCount: nat

    ghost const Repr: set<object>

    ghost predicate Valid()
    {
      Repr == {this, delayed, timeouts} && delayed != timeouts
    }

    ghost function View(): Locker
      reads this, delayed, timeouts
    {
      Locker(sessionState, changeCount, connection, credentials, waitingSt, waitingNonSt,
             inProgress, checkedOut, delayed.View(), tokens, tokenRequests, timeouts.View(),
             failureCount)
    }

    constructor ()
      ensures Valid() && fresh(Repr) && View() == Fresh()
    {
      sessionState, changeCount, connection := Uninitialized, 0, ConnectionUninitialized;
      credentials, waitingSt, waitingNonSt, inProgress := None, [], [], {};
      checkedOut, tokens, tokenRequests, failureCount := map[], [], 0, 0;
      var d := new TimedEvents.TimedEvents<Request>();
      var t := new TimedEvents.TimedEvents<Request>();
      delayed, timeouts := d, t;
      Repr := {this, d, t};
    }

    /** ChangeSessionStateInternal */
    method ChangeSessionState(state: SessionState)
      modifies this
      ensures View() == ChangeState(old(View()), state)
    {
      if sessionState != state {
        sessionState := state;
        match state {
          case Uninitialized =>
            credentials := None;
            tokens, checkedOut := [], map[];
          case Initialized => tokens, checkedOut := [], map[];
          case CredentialsFailure(_, _) => tokens, checkedOut := [], map[];
          case ProlongedError(_) =>
          case Running(_, _) =>
        }
        changeCount := (changeCount + 1) % UINT32;
      }
    }

    method SetCredentials(c: Credentials)
      modifies this
      ensures View() == SessionPool.SetCredentials(old(View()), c)
    {
      if credentials.None? || credentials.value != c {
        credentials := Some(c);
        ChangeSessionState(Initialized);
      }
    }

    method SetSessionStateSafe(state: SessionState, stateChangeCount: nat) returns (accepted: bool)
      modifies this
      ensures accepted <==> old(changeCount) == stateChangeCount
      ensures View() == ChangeStateSafe(old(View()), state, stateChangeCount)
    {
      accepted := changeCount == stateChangeCount;
      if accepted {
        ChangeSessionState(state);
      }
    }

    method SetConnectionState(state: ConnectionState)
      modifies this
      ensures View() == old(View()).(connection := state)
    {
      if connection != state {
        connection := state;
      }
    }

    method AddWaitingRequest(r: Request, now: Time)
      requires Valid()
      modifies Repr
      ensures View() == AddWaiting(old(View()), r, now)
    {
      timeouts.Add(now + 1000 * r.timeoutSeconds, r);
      PushWaiting(r);
    }

    method PushWaiting(r: Request)
      modifies this
      ensures View() == Enqueue(old(View()), r)
    {
      if r.usesToken {
        waitingSt := waitingSt + [r];
      } else {
        waitingNonSt := waitingNonSt + [r];
      }
    }

    method RemoveInProgressRequest(r: Request)
      modifies this
      ensures View() == RemoveInProgress(old(View()), r)
    {
      inProgress := inProgress - {r};
    }

    method MoveInProgressToWaiting(r: Request)
      modifies this
      ensures View() == InProgressToWaiting(old(View()), r)
    {
      inProgress := inProgress - {r};
      PushWaiting(r);
    }

    method MoveInProgressToDelayed(r: Request, delaySeconds: nat, now: Time)
      requires Valid()
      modifies Repr
      ensures View() == InProgressToDelayed(old(View()), r, delaySeconds, now)
    {
      inProgress := inProgress - {r};
      delayed.Add(now + 1000 * delaySeconds, r);
    }

    method DeleteCheckedOutToken(r: Request)
      modifies this
      ensures View() == DropToken(old(View()), r)
    {
      if r in checkedOut {
        checkedOut := checkedOut - {r};
      }
    }

    method NextWaitingNonSessionTokenRequest() returns (next: Option<Request>)
      modifies this
      ensures next.None? ==> old(waitingNonSt) == [] && View() == old(View())
      ensures next.Some? ==>
        && old(waitingNonSt) != [] && next.value == old(waitingNonSt)[0]
        && View() == old(View()).(waitingNonSt := old(waitingNonSt)[1..])
    {
      if waitingNonSt == [] {
        return None;
      }
      next := Some(waitingNonSt[0]);
      waitingNonSt := waitingNonSt[1..];
    }

    method NextWaitingSessionTokenRequest() returns (next: Option<(Request, SessionToken)>)
      modifies this
      ensures next.None? ==> (old(waitingSt) == [] || old(tokens) == []) && View() == old(View())
      ensures next.Some? ==>
        && old(waitingSt) != [] && old(tokens) != []
        && next.value == (old(waitingSt)[0], old(tokens)[|old(tokens)| - 1])
        && View() == old(View()).(waitingSt := old(waitingSt)[1..],
                                  tokens := old(tokens)[..|old(tokens)| - 1])
    {
      if waitingSt == [] || tokens == [] {
        return None;
      }
      next := Some((waitingSt[0], tokens[|tokens| - 1]));
      tokens := tokens[..|tokens| - 1];
      waitingSt := waitingSt[1..];
    }

    method AddInProgressRequest(r: Request)
      modifies this
      ensures View() == old(View()).(inProgress := old(inProgress) + {r})
    {
      inProgress := inProgress + {r};
    }

    method AddInProgressRequestWithToken(r: Request, token: SessionToken)
      modifies this
      ensures View() == CheckOut(old(View()), r, token)
    {
      inProgress := inProgress + {r};
      if r !in checkedOut {
        checkedOut := checkedOut[r := token];
      }
    }

    method StartRequestSessionToken() returns (granted: bool)
      modifies this
      ensures granted <==> WantsToken(old(View()))
      ensures View() == if granted
        then old(View()).(tokenRequests := old(tokenRequests) + 1)
        else old(View())
    {
      granted := (tokenRequests == 0 && |tokens| + |checkedOut| == 0)
        || (|waitingSt| > tokenRequests + |tokens|
            && tokenRequests < MAX_TOKEN_REQUESTS
            && tokenRequests + |tokens| + |checkedOut| < MAX_TOKENS);
      if granted {
        tokenRequests := tokenRequests + 1;
      }
    }

    method DecrementSessionTokenInProgressCount()
      requires tokenRequests > 0
      modifies this
      ensures View() == old(View()).(tokenRequests := old(tokenRequests) - 1)
    {
      tokenRequests := tokenRequests - 1;
    }

    method AddSessionToken(token: SessionToken, oldCredentials: Credentials) returns (added: bool)
      modifies this
      ensures added <==> old(credentials) == Some(oldCredentials)
      ensures View() == AddToken(old(View()), token, oldCredentials)
    {
      added := credentials.Some? && credentials.value == oldCredentials;
      if added {
        tokens := tokens + [token];
      }
    }

    method ReuseToken(r: Request, newKey: bool)
      modifies this
      ensures View() == SessionPool.ReuseToken(old(View()), r, newKey)
    {
      if r.usesToken && r in checkedOut {
        var st := checkedOut[r];
        checkedOut := checkedOut - {r};
        if newKey {
          st := st.(secretKey := SecretKey.NextKey(st.secretKey));
        }
        tokens := tokens + [st];
      }
    }

    method TotalRequests() returns (n: nat)
      ensures n == SessionPool.TotalRequests(View())
    {
      var d := delayed.Size();
      n := |waitingSt| + |waitingNonSt| + |inProgress| + d;
    }

    /** HandleTimedOutRequest: the search, the erase, and whether the request is to be failed. */
    method HandleTimedOutRequest(r: Request) returns (failed: bool)
      modifies this
      ensures failed <==> r in if r.usesToken then old(waitingSt) else old(waitingNonSt)
      ensures View() == TimeOut(old(View()), r)
    {
      if r.usesToken {
        var i := Find(waitingSt, r);
        failed := i < |waitingSt|;
        if failed {
          waitingSt := waitingSt[..i] + waitingSt[i + 1..];
        }
      } else {
        var i := Find(waitingNonSt, r);
        failed := i < |waitingNonSt|;
        if failed {
          waitingNonSt := waitingNonSt[..i] + waitingNonSt[i + 1..];
        }
      }
    }

    method IncrementFailureCount()
      modifies this
      ensures View() == old(View()).(failureCount := (old(failureCount) + 1) % UINT32)
    {
      failureCount := (failureCount + 1) % UINT32;
    }

    method ResetFailureCount()
      modifies this
      ensures View() == old(View()).(failureCount := 0)
    {
      failureCount := 0;
    }
  }

  /** std::find over a deque; what an erase at the result leaves is Without. */
  method Find(queue: seq<Request>, r: Request) returns (i: nat)
    ensures i <= |queue| && (i < |queue| <==> r in queue)
    ensures Without(queue, r) == if i < |queue| then queue[..i] + queue[i + 1..] else queue
  {
    i := 0;
    while i < |queue| && queue[i] != r
      invariant i <= |queue| && r !in queue[..i]
      invariant Without(queue, r) == queue[..i] + Without(queue[i..], r)
    {
      i := i + 1;
    }
  }
}
