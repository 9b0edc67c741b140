/** The class of src/mediafire_sdk/api/session_maintainer.cpp, with the callback dispatch of
    session_maintainer_request.hpp. Each handler runs the source's calls and loops, and leaves
    exactly the value module Scheduler says. The clock reading of a handler is its parameter. */
module SessionMaintainer {
  import opened Basics
  import opened SessionTypes
  import opened SessionPool
  import opened Scheduler
  import EventQueue
  import SessionLocker

  class SessionMaintainer {
    const locker: SessionLocker.SessionMaintainerLocker
    var failureTimer: Timer
    var recheckTimer: Timer
    var tokenCalls: seq<Credentials>
    var statusChecks: nat
    var sentWith: map<Request, SessionToken>

    ghost predicate Valid()
    {
      locker.Valid() && this !in locker.Repr
    }

    ghost function View(): State
      requires Valid()
      reads this, locker.Repr
    {
      State(locker.View(), failureTimer, recheckTimer, tokenCalls, statusChecks, sentWith)
    }

    constructor ()
      ensures Valid() && fresh(locker.Repr) && View() == Initial()
    {
      locker := new SessionLocker.SessionMaintainerLocker();
      failureTimer, recheckTimer := Timer(None, 0), Timer(None, 0);
      tokenCalls, statusChecks, sentWith := [], 0, map[];
    }

    method UpdateConnectionStateFromErrorCode(e: ErrorCode, now: Time)
      requires Valid()
      modifies this, locker.Repr
      ensures View() == UpdateConnection(old(View()), e, now)
    {
      if IsConnectionError(e) {
        locker.SetConnectionState(Unconnected(e));
        recheckTimer := Arm(recheckTimer, now + CONNECTION_RECHECK);
      } else {
        locker.SetConnectionState(Connected);
      }
    }

    method AttemptRequests()
      requires Valid()
      modifies this, locker.Repr
      ensures View() == Scheduler.AttemptRequests(old(View()))
    {
      if locker.connection.Unconnected? {
        statusChecks := statusChecks + 1;
        return;
      }
      SendTokenless();
      SendWithTokens();
      RequestNeededSessionTokens(false);
    }

    method SendTokenless()
      requires Valid()
      modifies this, locker.Repr
      ensures View() == StartTokenless(old(View()))
    {
      var next := locker.NextWaitingNonSessionTokenRequest();
      while next.Some?
        invariant next.None? ==> View() == StartTokenless(old(View()))
        invariant next.Some? ==>
          var l := View().locker;
          StartTokenless(View().(locker := l.(inProgress := l.inProgress + {next.value})))
            == StartTokenless(old(View()))
        decreases next.Some?, |locker.waitingNonSt|
      {
        locker.AddInProgressRequest(next.value);
        next := locker.NextWaitingNonSessionTokenRequest();
      }
    }

    method SendWithTokens()
      requires Valid()
      modifies this, locker.Repr
      ensures View() == StartWithTokens(old(View()))
    {
      var sent := SendNextWithToken();
      while sent
        invariant StartWithTokens(View()) == StartWithTokens(old(View()))
        invariant !sent ==> !CanCheckOut(View().locker)
        decreases sent, |locker.waitingSt|
      {
        sent := SendNextWithToken();
      }
    }

    /** The loop's condition, and its body when the condition holds. */
    method SendNextWithToken() returns (sent: bool)
      requires Valid()
      modifies this, locker.Repr
      ensures sent <==> CanCheckOut(old(View().locker))
      ensures View() == if sent then StartOneWithToken(old(View())) else old(View())
    {
      if !locker.sessionState.Running? {
        return false;
      }
      var next := locker.NextWaitingSessionTokenRequest();
      sent := next.Some?;
      if sent {
        var (r, t) := next.value;
        sentWith := sentWith[r := t];
        locker.AddInProgressRequestWithToken(r, t);
      }
    }

    method RequestNeededSessionTokens(force: bool)
      requires Valid()
      modifies this, locker.Repr
      ensures View() == RequestNeeded(old(View()), force)
    {
      var haveBadCredentials := locker.sessionState.CredentialsFailure?;
      if !haveBadCredentials || force {
        var credentials := locker.credentials;
        if credentials.Some? {
          var requested := TryRequestSessionToken(credentials.value);
          if !haveBadCredentials {
            while requested
              invariant !requested ==> View() == RequestTokens(old(View()), credentials.value)
              invariant RequestTokens(View(), credentials.value) == RequestTokens(old(View()), credentials.value)
              decreases requested, MAX_TOKEN_REQUESTS - locker.tokenRequests
            {
              requested := TryRequestSessionToken(credentials.value);
            }
          }
        }
      }
    }

    method TryRequestSessionToken(c: Credentials) returns (requested: bool)
      requires Valid()
      modifies this, locker.Repr
      ensures requested <==> WantsToken(old(View().locker))
      ensures View() == if requested then RequestOneToken(old(View()), c) else old(View())
    {
      requested := locker.StartRequestSessionToken();
      if requested {
        tokenCalls := tokenCalls + [c];
      }
    }

    method SetLoginCredentials(c: Credentials)
      requires Valid()
      modifies this, locker.Repr
      ensures View() == Scheduler.SetLoginCredentials(old(View()), c)
    {
      locker.SetCredentials(c);
      AttemptRequests();
    }

    /** Call: creates the request and queues it. */
    method Call(id: nat, usesToken: bool, timeoutSeconds: nat, now: Time) returns (r: Request)
      requires Valid()
      modifies this, locker.Repr
      ensures r == NewRequest(id, usesToken, timeoutSeconds, now)
      ensures View() == Scheduler.AddWaitingRequest(old(View()), r, now)
    {
      r := Request(id, usesToken, timeoutSeconds, now / 1000 + timeoutSeconds);
      AddWaitingRequest(r, now);
    }

    method AddWaitingRequest(r: Request, now: Time)
      requires Valid()
      modifies this, locker.Repr
      ensures View() == Scheduler.AddWaitingRequest(old(View()), r, now)
    {
      locker.AddWaitingRequest(r, now);
      AttemptRequests();
    }

    method HandleCompletion(r: Request, response: ApiResponse)
      requires Valid()
      modifies this, locker.Repr
      ensures View() == Complete(old(View()), r, response)
    {
      locker.RemoveInProgressRequest(r);
      if IsInvalidSessionTokenError(response.error) {
        locker.DeleteCheckedOutToken(r);
      } else {
        locker.ReuseToken(r, response.newKey);
      }
      AttemptRequests();
    }

    method HandleRetryRequest(r: Request, response: ApiResponse, now: Time)
      requires Valid()
      modifies this, locker.Repr
      ensures View() == Retry(old(View()), r, response, now)
    {
      if IsInvalidSessionTokenError(response.error) {
        locker.MoveInProgressToWaiting(r);
        locker.DeleteCheckedOutToken(r);
      } else {
        locker.MoveInProgressToDelayed(r, 1, now);
        locker.ReuseToken(r, response.newKey);
      }
      AttemptRequests();
    }

    /** CallbackProxy of a request whose HTTP call was answered. */
    method CallbackProxy(r: Request, response: ApiResponse, now: Time) returns (finished: bool)
      requires Valid()
      modifies this, locker.Repr
      ensures finished <==> !Retries(r, response, now)
      ensures View() == HandleApiResponse(old(View()), r, response, now)
    {
      UpdateConnectionStateFromErrorCode(response.error, now);
      finished := true;
      if !r.usesToken || response.error == NoError {
        HandleCompletion(r, response);
      } else if now / 1000 < r.maxRetryTime {
        if IsInvalidSessionTokenError(response.error) || response.error == AsyncOperationInProgress {
          HandleRetryRequest(r, response, now);
          finished := false;
        } else {
          HandleCompletion(r, response);
        }
      } else {
        HandleCompletion(r, response);
      }
    }

    method HandleCheckConnectionStatusResponse(e: ErrorCode, now: Time)
      requires Valid() && statusChecks > 0
      modifies this, locker.Repr
      ensures View() == HandleStatusResponse(old(View()), e, now)
    {
      statusChecks := statusChecks - 1;
      UpdateConnectionStateFromErrorCode(e, now);
      if locker.connection.Connected? {
        AttemptRequests();
      }
    }

    method HandleSessionTokenResponse(i: nat, response: TokenResponse, now: Time)
      requires Valid() && i < |tokenCalls| && locker.tokenRequests > 0
      modifies this, locker.Repr
      ensures View() == HandleTokenResponse(old(View()), i, response, now)
    {
      var oldCredentials := tokenCalls[i];
      tokenCalls := tokenCalls[..i] + tokenCalls[i + 1..];
      locker.DecrementSessionTokenInProgressCount();
      var state, changeCount := locker.sessionState, locker.changeCount;
      UpdateConnectionStateFromErrorCode(response.error, now);
      if response.error != NoError {
        SessionTokenFailed(response, oldCredentials, state, changeCount, now);
      } else {
        SessionTokenObtained(response, oldCredentials, state, changeCount);
      }
    }

    /** Bad credentials: CredentialsFailure, unless the request was an old one. */
    method CredentialsFailed(response: TokenResponse, oldCredentials: Credentials, state: SessionState,
                             changeCount: nat, now: Time)
      requires Valid() && state == locker.sessionState && changeCount == locker.changeCount
      modifies this, locker
      ensures View() == old(View()).(failureTimer := Arm(old(failureTimer), now + CREDENTIAL_FAILURE_WAIT),
                                     locker := CredentialsRefused(old(View().locker), oldCredentials, response))
    {
      failureTimer := Arm(failureTimer, now + CREDENTIAL_FAILURE_WAIT);
      if !state.Uninitialized? && !state.CredentialsFailure? {
        if locker.credentials.Some? && locker.credentials.value == oldCredentials {
          var pkey := if response.pkey == "" then None else Some(response.pkey);
          var _ := locker.SetSessionStateSafe(CredentialsFailure(pkey, response.error), changeCount);
        }
      }
    }

    /** Any other failure: ProlongedError once it has lasted. */
    method OtherwiseFailed(e: ErrorCode, state: SessionState, changeCount: nat, now: Time)
      requires Valid() && state == locker.sessionState && changeCount == locker.changeCount
      modifies this, locker
      ensures View() == old(View()).(failureTimer := Arm(old(failureTimer), now + FailureWait(e)),
                                     locker := FailureProlonged(old(View().locker), e))
    {
      var accountIsLocked := e == AccountTemporarilyLocked;
      failureTimer := Arm(failureTimer, now + if accountIsLocked then ACCOUNT_LOCKED_WAIT else FAILURE_WAIT);
      if locker.failureCount >= PROLONGED_FAILURE_THRESHOLD || accountIsLocked {
        if state.Initialized? || state.ProlongedError? {
          var _ := locker.SetSessionStateSafe(ProlongedError(e), changeCount);
        }
      }
    }

    /** The error branch; the caller read `state` and `changeCount` in this same step. */
    method SessionTokenFailed(response: TokenResponse, oldCredentials: Credentials,
                              state: SessionState, changeCount: nat, now: Time)
      requires Valid() && response.error != NoError
      requires state == locker.sessionState && changeCount == locker.changeCount
      modifies this, locker.Repr
      ensures View() == TokenFailure(old(View()), oldCredentials, response, now)
    {
      locker.IncrementFailureCount();
      assert View() == old(View()).(locker := locker.View());
      if IsInvalidCredentialsError(response.error) {
        CredentialsFailed(response, oldCredentials, state, changeCount, now);
      } else {
        OtherwiseFailed(response.error, state, changeCount, now);
      }
    }

    /** The success branch. */
    method SessionTokenObtained(response: TokenResponse, oldCredentials: Credentials,
                                state: SessionState, changeCount: nat)
      requires Valid() && response.error == NoError
      requires state == locker.sessionState && changeCount == locker.changeCount
      modifies this, locker.Repr
      ensures View() == TokenSuccess(old(View()), oldCredentials, response)
    {
      locker.ResetFailureCount();
      var added := locker.AddSessionToken(response.token, oldCredentials);
      if added && !state.Uninitialized? && !state.Running? {
        var _ := locker.SetSessionStateSafe(
          SessionState.Running(response.token.id, response.token.pkey), changeCount);
      }
      AttemptRequests();
    }

    method HandleSessionTokenFailureTimeout()
      requires Valid() && failureTimer.ready > 0
      modifies this, locker.Repr
      ensures View() == HandleFailureTimeout(old(View()))
    {
      failureTimer := failureTimer.(ready := failureTimer.ready - 1);
      AttemptRequests();
      RequestNeededSessionTokens(true);
    }

    method HandleConnectionStateRecheckTimeout()
      requires Valid() && recheckTimer.ready > 0
      modifies this, locker.Repr
      ensures View() == HandleRecheckTimeout(old(View()))
    {
      recheckTimer := recheckTimer.(ready := recheckTimer.ready - 1);
      AttemptRequests();
    }

    /** One turn of the loop of the timeouts queue's ResetTimer. */
    method ProcessNextTimeout() returns (more: bool)
      requires Valid() && locker.timeouts.pass.Some?
      modifies this, locker.Repr
      ensures more <==> EventQueue.CanDeliver(old(View().locker.timeouts))
      ensures more ==> View() == DeliverTimeout(old(View()))
      ensures !more ==> View() == old(View()).(locker := old(View().locker).(
                          timeouts := EventQueue.EndPass(old(View().locker.timeouts))))
    {
      var front := locker.timeouts.TakeDue();
      more := front.Some?;
      if more {
        var _ := locker.HandleTimedOutRequest(front.value);
      }
    }

    /** One turn of the loop of the delayed queue's ResetTimer. */
    method ProcessNextDelayed(now: Time) returns (more: bool)
      requires Valid() && locker.delayed.pass.Some?
      modifies this, locker.Repr
      ensures more <==> EventQueue.CanDeliver(old(View().locker.delayed))
      ensures more ==> View() == DeliverDelayed(old(View()), now)
      ensures !more ==> View() == old(View()).(locker := old(View().locker).(
                          delayed := EventQueue.EndPass(old(View().locker.delayed))))
    {
      var front := locker.delayed.TakeDue();
      more := front.Some?;
      if more {
        AddWaitingRequest(front.value, now);
      }
    }
  }
}
