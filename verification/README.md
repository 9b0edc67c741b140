# Session tokens, signing and HTTP requests of the MediaFire SDK, modelled in Dafny

This project models the parts of the MediaFire C++ SDK that schedule API requests over a bounded pool
of session tokens, sign and encode them, and carry them over HTTP, and proves what those parts are for.
`dafny verify dfyconfig.toml` checks all of it.

## How it is built

A component that updates its fields in place is a class, and each of its methods is proved to leave
exactly the value that a function of a specification module gives. Protocols are those functions run
over all sequences of steps; the results are about every such sequence.

| source component | class or methods | specification | runs and results |
|---|---|---|---|
| TimedEvents | TimedEvents | EventQueue | EventQueueRuns |
| SessionMaintainerLocker | SessionLocker | SessionPool | SessionHistory, WrapAround |
| SessionMaintainer, SessionMaintainerRequest | SessionMaintainer | Scheduler | SchedulerRuns, RequestConservation, TokenPool, DistinctTokens, WakeUps, Dispatch, Progress, Retrying, Backoff, Throttling, BoundedWait, TimedOut, ProlongedErrors, Answers |
| both sides of the secret key | SessionLocker, Signature | SecretKey | KeyAgreement, TokenProtocol |
| encoders, printers, parsers, signatures | UrlEncode, Base64, ApiQuery, Signature | the same modules | the same modules |
| Url | Url | Url | Url, UrlConformance |
| RepartitionIntersection | ContainerAlgorithms | ContainerAlgorithms | ContainerAlgorithms |
| HTTP request state machine | HttpRequestMachine | HttpRequest | HttpRequestRuns, RedirectRuns |

One step of the scheduler is one handler or public call run to its end on one thread, with one monotone
clock in milliseconds; HTTP answers, timer expiries and the single deliveries of the two event queues
are steps of their own, so anything can happen between them. A timer is its pending wait together with
the number of handlers already queued, because re-arming cannot recall those. SessionHistory is finer:
one step is one call made under the locker's mutex, and response handlers interleave freely.

What one handler reads from the clock is a parameter of its method. The hash of a signature, the scanner
behind "%hx" and the iteration order of a std::map are parameters too: the hash is any function with
unreserved output, the scanner any function that reads two hexadecimal digits correctly, and a
parameter map is the sequence of its pairs.

## Where the code does not do what it says

- session_maintainer.cpp:353-354 says that a credentials failure is always retried. It is not: a late
  success for credentials that were replaced since can use up the last wake-up. `RetryingCanStop` is
  such a run, `RetryingStopsOnlyOneWay` says it is the only way, and `RetryingNeverStops` says when the
  comment holds.
- session_maintainer.hpp:67-72 wants no token request for ten minutes after the account was locked, and
  lines 61-65 want one a minute at most with bad credentials. Nothing but the timer looks at these waits:
  the next request, answer or delayed delivery asks for a token at once (`AsksWhileLocked`), exactly as
  `AsksExactly` says. With bad credentials only the timer asks (`OnlyTimerAsks`), after the wait of a
  failure of its own (`RefusedAsksAreSpaced`), but a later failure of another kind cuts the minute to 2.5
  seconds (`MinuteCutShort`).
- A server that looks for the first "signature=" hashes too little if and only if the token, or a
  parameter's name with its equals sign, contains it (`ServerTextExact`); among unreserved names and tokens
  that is a name ending in "signature" (`PlainlyMarked`). Parameters named xsignature and signature=a are
  inputs (`SuffixCutsText`, `EqualsCutsText`).
- A redirect that starts with one slash keeps its origin if and only if it has no "://" anywhere in it and
  the URL has a login or no at sign in its host and port (`RedirectKeepsOrigin`). From http://a@b@c/ the
  path /x goes to another host (`RedirectLeavesOrigin`), and from http://good/ the path
  /login?next=http://evil/ goes to evil (`QueryNamesHost`). A redirect that starts with two slashes goes
  where it says if and only if it has no "://" (`SchemeRelativeKeepsScheme`, `QueryNamesScheme`).
- The parser loses a login without a colon, a login that is just a colon, and a colon without a port
  behind the host; these are the only losses (`AuthorityPrintsBack`, with the inputs of `LostParts` and
  `UserForgotten`).
- A hash sign in front of the first question mark stays in the path, where section 3 of RFC 3986 starts
  the fragment; the two readings differ exactly then (`PathAsInRfc`, `QueryInsideFragment`). A question
  mark or hash sign in front of the first slash stays in the authority, which section 3.2 ends there
  (`AuthorityAsInRfc`, `QueryInsideAuthority`).
- The secret keys 0 and 2^31-1, which the test server can draw, lead to 0 and stay there
  (`BothLeadToZero`), and only they do (`DiesOut`).
- SetSessionStateSafe accepts if and only if the number of changes since the read is a multiple of 2^32
  (`AcceptedMeansUnchanged`). After 2^32 of them the state may be any other, and a transition that is
  otherwise ruled out happens, such as Running to ProlongedError (`WrapForcesForbidden`).

## Model

| member | source | states |
|---|---|---|
| `EventQueueRuns.EachEventExactlyOnce` | `src/mediafire_sdk/utils/timed_events.hpp:85-141` | in every run of Add, ResetTimer, expiry and cancel steps in any order, each added event is pending, delivered or cancelled, exactly once in all |
| `EventQueueRuns.NothingEarly` | `src/mediafire_sdk/utils/timed_events.hpp:181-200` | no event is processed without error before its time |
| `EventQueueRuns.EarliestFirst` | `src/mediafire_sdk/utils/timed_events.hpp:187-200` | a delivery hands over the entry that comes before all that stay pending: by due time, ties by insertion |
| `EventQueueRuns.IdleLeavesNothingDue` | `src/mediafire_sdk/utils/timed_events.hpp:181-227` | no lost wake-up: when nothing is posted, running or elapsed, every pending event is in the future and the timer is armed no later than the first |
| `EventQueueRuns.InternalActionsRunOut` | `src/mediafire_sdk/utils/timed_events.hpp:181-227` | with the clock still and no caller, every internal action that does anything uses up work, and the queue is idle exactly when none does anything |
| `EventQueueRuns.GoesIdle` | `src/mediafire_sdk/utils/timed_events.hpp:181-227` | from every reachable state the queue goes idle after no more internal actions than its work |
| `EventQueueRuns.NothingAfterStop` | `src/mediafire_sdk/utils/timed_events.hpp:73-80` | Stop cancels all that is pending, and nothing is delivered after it, whatever is added later |
| `EventQueueRuns.RunsUntilStopped` | `src/mediafire_sdk/utils/timed_events.hpp:73-80` | a queue runs if and only if it was never stopped |
| `EventQueueRuns.RunKeepsInv` | `src/mediafire_sdk/utils/timed_events.hpp:85-227` | order, wake-up, accounting and never-early hold after every run |
| `EventQueue.InsertAtUpperBound` | `src/mediafire_sdk/utils/timed_events.hpp:136-136` | multimap insertion puts an entry behind all entries with the same key |
| `EventQueue.InsertAddsOne` | `src/mediafire_sdk/utils/timed_events.hpp:136-136` | insertion adds exactly the entry |
| `EventQueue.InsertKeepsOrder` | `src/mediafire_sdk/utils/timed_events.hpp:136-136` | insertion keeps the key order |
| `EventQueue.UpperBound` | `src/mediafire_sdk/utils/timed_events.hpp:136-136` | splits ordered entries into those due by a time and those after it |
| `EventQueue.AddKeepsValid` | `src/mediafire_sdk/utils/timed_events.hpp:130-141` | Add keeps the order and, by posting a ResetTimer, the wake-up |
| `TimedEvents.TimedEvents.constructor` | `src/mediafire_sdk/utils/timed_events.hpp:169-178` | a new queue is running and empty |
| `TimedEvents.TimedEvents.Add` | `src/mediafire_sdk/utils/timed_events.hpp:130-141` | inserts the entry and posts one ResetTimer |
| `TimedEvents.TimedEvents.Size` | `src/mediafire_sdk/utils/timed_events.hpp:148-152` | the number of pending entries |
| `TimedEvents.TimedEvents.BeginReset` | `src/mediafire_sdk/utils/timed_events.hpp:181-185` | one posted ResetTimer starts with the clock as it reads it |
| `TimedEvents.TimedEvents.TakeDue` | `src/mediafire_sdk/utils/timed_events.hpp:187-215` | one turn of the loop: hands over the front entry if it is due, otherwise re-arms the timer for it |
| `TimedEvents.TimedEvents.ResetTimer` | `src/mediafire_sdk/utils/timed_events.hpp:181-216` | an undisturbed pass processes exactly the entries due, in order, and arms the timer for the first that remains |
| `TimedEvents.TimedEvents.CancelAll` | `src/mediafire_sdk/utils/timed_events.hpp:85-106` | hands every pending event over with an error and disarms the timer |
| `TimedEvents.TimedEvents.Stop` | `src/mediafire_sdk/utils/timed_events.hpp:73-80` | stops the queue and cancels everything |
| `SessionLocker.SessionMaintainerLocker.constructor` | `src/mediafire_sdk/api/detail/session_maintainer_locker.cpp:25-40` | a locker starts uninitialised and empty |
| `SessionLocker.SessionMaintainerLocker.ChangeSessionState` | `src/mediafire_sdk/api/detail/session_maintainer_locker.cpp:403-464` | a real change counts (modulo 2^32) and clears what the entered state says; an equal state changes nothing |
| `SessionLocker.SessionMaintainerLocker.SetCredentials` | `src/mediafire_sdk/api/detail/session_maintainer_locker.cpp:81-95` | new credentials lead to Initialized; equal ones change nothing |
| `SessionLocker.SessionMaintainerLocker.SetSessionStateSafe` | `src/mediafire_sdk/api/detail/session_maintainer_locker.cpp:366-378` | changes the state exactly if the change count is the one passed in |
| `SessionLocker.SessionMaintainerLocker.SetConnectionState` | `src/mediafire_sdk/api/detail/session_maintainer_locker.cpp:358-364` | replaces the connection state |
| `SessionLocker.SessionMaintainerLocker.AddWaitingRequest` | `src/mediafire_sdk/api/detail/session_maintainer_locker.cpp:97-114` | adds a timeout entry and queues the request by kind |
| `SessionLocker.SessionMaintainerLocker.PushWaiting` | `src/mediafire_sdk/api/detail/session_maintainer_locker.cpp:127-135` | queues a request at the back of the queue of its kind |
| `SessionLocker.SessionMaintainerLocker.RemoveInProgressRequest` | `src/mediafire_sdk/api/detail/session_maintainer_locker.cpp:116-120` | takes the request out of progress |
| `SessionLocker.SessionMaintainerLocker.MoveInProgressToWaiting` | `src/mediafire_sdk/api/detail/session_maintainer_locker.cpp:122-136` | requeues the request without a new timeout entry |
| `SessionLocker.SessionMaintainerLocker.MoveInProgressToDelayed` | `src/mediafire_sdk/api/detail/session_maintainer_locker.cpp:149-157` | schedules the request for later |
| `SessionLocker.SessionMaintainerLocker.DeleteCheckedOutToken` | `src/mediafire_sdk/api/detail/session_maintainer_locker.cpp:138-147` | drops the token the request holds |
| `SessionLocker.SessionMaintainerLocker.NextWaitingNonSessionTokenRequest` | `src/mediafire_sdk/api/detail/session_maintainer_locker.cpp:159-172` | pops the oldest waiting request without a token, if any |
| `SessionLocker.SessionMaintainerLocker.NextWaitingSessionTokenRequest` | `src/mediafire_sdk/api/detail/session_maintainer_locker.cpp:174-199` | pops the oldest waiting request and the newest token, if there are both |
| `SessionLocker.SessionMaintainerLocker.AddInProgressRequest` | `src/mediafire_sdk/api/detail/session_maintainer_locker.cpp:201-205` | puts the request in progress |
| `SessionLocker.SessionMaintainerLocker.AddInProgressRequestWithToken` | `src/mediafire_sdk/api/detail/session_maintainer_locker.cpp:207-217` | puts the request in progress and checks its token out |
| `SessionLocker.SessionMaintainerLocker.StartRequestSessionToken` | `src/mediafire_sdk/api/detail/session_maintainer_locker.cpp:219-248` | grants a token request exactly under the three-part budget test, and counts it |
| `SessionLocker.SessionMaintainerLocker.DecrementSessionTokenInProgressCount` | `src/mediafire_sdk/api/detail/session_maintainer_locker.cpp:250-255` | takes one token request off the count |
| `SessionLocker.SessionMaintainerLocker.AddSessionToken` | `src/mediafire_sdk/api/detail/session_maintainer_locker.cpp:257-284` | stores the token exactly if it was obtained with the current credentials |
| `SessionLocker.SessionMaintainerLocker.ReuseToken` | `src/mediafire_sdk/api/detail/session_maintainer_locker.cpp:286-328` | gives a checked-out token back, its key renewed if the response says so |
| `SessionLocker.SessionMaintainerLocker.TotalRequests` | `src/mediafire_sdk/api/detail/session_maintainer_locker.cpp:330-337` | waiting, in-progress and delayed requests together |
| `SessionLocker.SessionMaintainerLocker.HandleTimedOutRequest` | `src/mediafire_sdk/api/detail/session_maintainer_locker.cpp:481-534` | removes a request that still waits and reports it; one that does not is left alone |
| `SessionLocker.SessionMaintainerLocker.IncrementFailureCount` | `src/mediafire_sdk/api/detail/session_maintainer_locker.cpp:536-539` | counts a failure modulo 2^32 |
| `SessionLocker.SessionMaintainerLocker.ResetFailureCount` | `src/mediafire_sdk/api/detail/session_maintainer_locker.cpp:546-549` | forgets the failures |
| `SessionLocker.Find` | `src/mediafire_sdk/api/detail/session_maintainer_locker.cpp:490-492` | std::find in a queue |
| `SessionMaintainer.SessionMaintainer.constructor` | `src/mediafire_sdk/api/session_maintainer.cpp:100-133` | a maintainer starts with a new locker and no timer armed |
| `SessionMaintainer.SessionMaintainer.SetLoginCredentials` | `src/mediafire_sdk/api/session_maintainer.cpp:141-147` | sets the credentials, then attempts requests |
| `SessionMaintainer.SessionMaintainer.HandleCompletion` | `src/mediafire_sdk/api/session_maintainer.cpp:149-162` | takes the request out, drops or reuses its token, then attempts requests |
| `SessionMaintainer.SessionMaintainer.HandleRetryRequest` | `src/mediafire_sdk/api/session_maintainer.cpp:164-183` | requeues at once without the token, or delays by a second and reuses it, then attempts requests |
| `SessionMaintainer.SessionMaintainer.UpdateConnectionStateFromErrorCode` | `src/mediafire_sdk/api/session_maintainer.cpp:191-224` | a connection error disconnects and arms the recheck timer; anything else connects |
| `SessionMaintainer.SessionMaintainer.AttemptRequests` | `src/mediafire_sdk/api/session_maintainer.cpp:233-280` | reconnects, or drains both queues as far as tokens go and requests tokens as needed; terminates |
| `SessionMaintainer.SessionMaintainer.SendTokenless` | `src/mediafire_sdk/api/session_maintainer.cpp:244-253` | the first loop: every waiting request without a token is sent |
| `SessionMaintainer.SessionMaintainer.SendWithTokens` | `src/mediafire_sdk/api/session_maintainer.cpp:255-273` | the second loop: requests and tokens are paired while running, until either runs out |
| `SessionMaintainer.SessionMaintainer.SendNextWithToken` | `src/mediafire_sdk/api/session_maintainer.cpp:261-273` | one turn of that loop |
| `SessionMaintainer.SessionMaintainer.RequestNeededSessionTokens` | `src/mediafire_sdk/api/session_maintainer.cpp:319-355` | no request on bad credentials unless forced, then one; otherwise as many as are granted |
| `SessionMaintainer.SessionMaintainer.TryRequestSessionToken` | `src/mediafire_sdk/api/session_maintainer.cpp:357-397` | one more token request outstanding if it was granted |
| `SessionMaintainer.SessionMaintainer.HandleCheckConnectionStatusResponse` | `src/mediafire_sdk/api/session_maintainer.cpp:303-316` | updates the connection and attempts requests if connected |
| `SessionMaintainer.SessionMaintainer.HandleSessionTokenResponse` | `src/mediafire_sdk/api/session_maintainer.cpp:399-538` | the whole effect of a token response |
| `SessionMaintainer.SessionMaintainer.SessionTokenFailed` | `src/mediafire_sdk/api/session_maintainer.cpp:413-498` | counts the failure, arms the timer for the right wait, and moves to CredentialsFailure or ProlongedError under the source's tests |
| `SessionMaintainer.SessionMaintainer.CredentialsFailed` | `src/mediafire_sdk/api/session_maintainer.cpp:431-456` | moves to CredentialsFailure unless the request was an old one |
| `SessionMaintainer.SessionMaintainer.OtherwiseFailed` | `src/mediafire_sdk/api/session_maintainer.cpp:472-492` | moves to ProlongedError after the threshold or on a locked account |
| `SessionMaintainer.SessionMaintainer.SessionTokenObtained` | `src/mediafire_sdk/api/session_maintainer.cpp:499-534` | stores the token, moves to Running under the source's tests, and attempts requests |
| `SessionMaintainer.SessionMaintainer.HandleSessionTokenFailureTimeout` | `src/mediafire_sdk/api/session_maintainer.cpp:540-548` | attempts requests, then forces a token request |
| `SessionMaintainer.SessionMaintainer.HandleConnectionStateRecheckTimeout` | `src/mediafire_sdk/api/session_maintainer.cpp:550-557` | attempts requests |
| `SessionMaintainer.SessionMaintainer.AddWaitingRequest` | `src/mediafire_sdk/api/session_maintainer.cpp:559-563` | queues the request, then attempts requests |
| `SessionMaintainer.SessionMaintainer.Call` | `src/mediafire_sdk/api/detail/session_maintainer_request.hpp:142-165` | a new request's retry deadline is its creation second plus its timeout |
| `SessionMaintainer.SessionMaintainer.CallbackProxy` | `src/mediafire_sdk/api/detail/session_maintainer_request.hpp:250-293` | finishes a response, or retries it if the error allows and the deadline has not come |
| `SessionMaintainer.SessionMaintainer.ProcessNextTimeout` | `src/mediafire_sdk/api/detail/session_maintainer_locker.cpp:61-73` | one turn of the timeouts queue hands its front request to HandleTimedOutRequest |
| `SessionMaintainer.SessionMaintainer.ProcessNextDelayed` | `src/mediafire_sdk/api/session_maintainer.cpp:559-563` | one turn of the delayed queue adds its front request as waiting again |
| `RequestConservation.ExactlyOnePlace` | `src/mediafire_sdk/api/detail/session_maintainer_locker.cpp:97-217` | after every run, an unfinished request is in exactly one of the four places, once; a finished one is in none |
| `RequestConservation.NothingElseIsPlaced` | `src/mediafire_sdk/api/detail/session_maintainer_locker.cpp:97-217` | whatever is in a place was submitted and is unfinished |
| `RequestConservation.TotalIsUnfinished` | `src/mediafire_sdk/api/detail/session_maintainer_locker.cpp:330-337` | TotalRequests is submitted minus finished |
| `RequestConservation.RunKeepsInv` | `src/mediafire_sdk/api/detail/session_maintainer_locker.cpp:97-217` | the places partition the unfinished requests, each queue holds its kind, and token holders are in progress |
| `RequestConservation.StepKeepsInv` | `src/mediafire_sdk/api/session_maintainer.cpp:149-183` | every handler keeps that invariant |
| `RequestConservation.AttemptKeepsPlaced` | `src/mediafire_sdk/api/session_maintainer.cpp:233-280` | AttemptRequests moves requests without losing or doubling one |
| `TokenPool.TokenBudget` | `src/mediafire_sdk/api/detail/session_maintainer_locker.cpp:219-248` | outstanding requests, stored and checked-out tokens never exceed 10 together, outstanding requests never 4, and the counter is their number |
| `TokenPool.TokensAreCurrent` | `src/mediafire_sdk/api/detail/session_maintainer_locker.cpp:257-284` | every stored or checked-out token was issued for the current credentials |
| `TokenPool.IssuedWasAnswered` | `src/mediafire_sdk/api/session_maintainer.cpp:399-403` | a token was issued only by an earlier answer to a token request made with those credentials |
| `TokenPool.RunKeepsPool` | `src/mediafire_sdk/api/detail/session_maintainer_locker.cpp:403-464` | the strengthening: the pool is empty unless the state is Running |
| `TokenPool.StepKeepsPool` | `src/mediafire_sdk/api/session_maintainer.cpp:399-538` | every handler keeps it, whatever credential changes and late responses come |
| `DistinctTokens.HeldOnce` | `src/mediafire_sdk/api/detail/session_maintainer_locker.cpp:207-217` | with a server that never repeats a token, no token is held by two requests, or stored and held at once |
| `DistinctTokens.CheckOutTakesNothing` | `src/mediafire_sdk/api/detail/session_maintainer_locker.cpp:207-217` | checking a token out takes none from a request that already holds one |
| `DistinctTokens.StoreAssertsHold` | `src/mediafire_sdk/api/detail/session_maintainer_locker.cpp:267-323` | the asserts in AddSessionToken and ReuseToken never fire |
| `TokenPool.CounterAssertHolds` | `src/mediafire_sdk/api/detail/session_maintainer_locker.cpp:250-255` | nor does the one on the counter: every unanswered token request finds it positive |
| `DistinctTokens.RunKeepsDistinct` | `src/mediafire_sdk/api/detail/session_maintainer_locker.cpp:257-328` | the pool holds no duplicate after any such run |
| `WakeUps.NoStrandedWork` | `src/mediafire_sdk/api/session_maintainer.cpp:233-355` | in every reachable state, waiting token requests with usable credentials have a wake-up pending |
| `WakeUps.NoStrandedTokenless` | `src/mediafire_sdk/api/session_maintainer.cpp:233-253` | a request without a token waits only while the connection is being watched |
| `WakeUps.AttemptSettles` | `src/mediafire_sdk/api/session_maintainer.cpp:233-280` | AttemptRequests leaves its loops exhausted: no idle token beside a waiting request while running, and no further token request granted |
| `WakeUps.SettledIsAwake` | `src/mediafire_sdk/api/detail/session_maintainer_locker.cpp:219-248` | with the loops exhausted, a waiting request implies an outstanding token request or a held token |
| `WakeUps.StepSettles` | `src/mediafire_sdk/api/session_maintainer.cpp:141-563` | every handler settles, or leaves the waiting queues and the wake-ups alone |
| `Progress.AllWaitingServed` | `src/mediafire_sdk/api/session_maintainer.cpp:141-563` | from every reachable state with usable credentials a run goes on, by successful answers and the passing of time alone, to a state in which no request waits |
| `Progress.AnswersServe` | `src/mediafire_sdk/api/session_maintainer.cpp:233-355` | once attempted, successful answers to token requests and token holders are enough, and each brings fewer waiting requests or fewer outdated token requests |
| `Progress.FirstAttempt` | `src/mediafire_sdk/api/session_maintainer.cpp:233-355` | a waiting request always has an answer, or a timer and then an answer, that leads to an attempt with the connection up |
| `Answers.AnswerFinishes` | `src/mediafire_sdk/api/detail/session_maintainer_request.hpp:250-293` | in every run, an answer finishes its request unless it is one with a token, the error is a refused token, a refused signature or an operation still in progress, and the deadline has not come |
| `Answers.ProgressDelays` | `src/mediafire_sdk/api/session_maintainer.cpp:173-177` | an operation still in progress is asked for again one second later |
| `Answers.RefusedWaitsAgain` | `src/mediafire_sdk/api/session_maintainer.cpp:164-172` | a request whose token was refused waits again, or is already under way |
| `Answers.RefusedTokenLeaves` | `src/mediafire_sdk/api/detail/session_maintainer_locker.cpp:138-147` | a token that the server refused is neither stored nor held afterwards |
| `Answers.OtherTokenStays` | `src/mediafire_sdk/api/detail/session_maintainer_locker.cpp:286-328` | after any other answer the token is stored or held again, with its key renewed just if the answer says so |
| `Answers.EachWasMade` | `src/mediafire_sdk/api/detail/session_maintainer_request.hpp:142-165` | every request was made by a call, and its deadline is the second of that call and its timeout |
| `Answers.AnswerConnects` | `src/mediafire_sdk/api/session_maintainer.cpp:191-224` | any answer disconnects if and only if its error is one of the eight connection errors, with a recheck five seconds later; otherwise it connects and leaves the timer alone |
| `Answers.OnlyAnswersConnect` | `src/mediafire_sdk/api/session_maintainer.cpp:191-224` | nothing but an answer changes the connection state |
| `Answers.ChecksStarted` | `src/mediafire_sdk/api/session_maintainer.cpp:303-316` | a status check is started exactly by a handler that attempts requests with the connection down, and never by the failure of another check |
| `Answers.StateFollows` | `src/mediafire_sdk/api/session_maintainer.cpp:399-538` | the session state that each action leads to in each reachable state, with its payload |
| `Answers.EnteringClears` | `src/mediafire_sdk/api/detail/session_maintainer_locker.cpp:403-464` | entering a state takes the tokens away exactly for the three states without any, and the credentials exactly for Uninitialized |
| `Dispatch.HandlersSendInOrder` | `src/mediafire_sdk/api/session_maintainer.cpp:141-563` | first in, first out: in every reachable state each handler adds at the back of the queue only, and then, while connected, all requests without a token are sent, the oldest others in queue order while tokens last, each with the newest token left, and exactly as many token requests follow as the rest needs and the limits leave |
| `Dispatch.NothingElseSends` | `src/mediafire_sdk/api/session_maintainer.cpp:141-563` | no request is sent in any other way: while disconnected, or by a handler that does not attempt |
| `Dispatch.AttemptSends` | `src/mediafire_sdk/api/session_maintainer.cpp:233-280` | the same of AttemptRequests by itself, for every connected state without duplicates |
| `Dispatch.PreparedQueue` | `src/mediafire_sdk/api/detail/session_maintainer_locker.cpp:97-157` | what a handler does before it attempts lets nothing overtake |
| `Dispatch.PreparedTokens` | `src/mediafire_sdk/api/detail/session_maintainer_locker.cpp:257-328` | the pool grows at its back only, by the token just obtained or given back, unless new credentials empty it |
| `Dispatch.EffectIsAttempt` | `src/mediafire_sdk/api/session_maintainer.cpp:141-563` | the handlers end by calling AttemptRequests in the state they have prepared |
| `Dispatch.LoopsKeepAsked` | `src/mediafire_sdk/api/session_maintainer.cpp:244-273` | pairing requests with tokens leaves as much to ask for as there was |
| `Dispatch.TokenlessAllSent` | `src/mediafire_sdk/api/session_maintainer.cpp:244-253` | the first loop sends all and nothing else |
| `Dispatch.PairedAreSent` | `src/mediafire_sdk/api/session_maintainer.cpp:255-273` | the second loop pairs the first n requests with the last n tokens, in opposite order |
| `Dispatch.GrantedAreRequested` | `src/mediafire_sdk/api/detail/session_maintainer_locker.cpp:219-248` | the number of token requests that are granted in a row, in closed form |
| `Backoff.WaitsForLastFailure` | `src/mediafire_sdk/api/session_maintainer.cpp:411-498` | in every run, a pending failure timer expires exactly 2.5 seconds, one minute or ten minutes after the last failed token request, as that failure asks for |
| `Backoff.OthersKeepWait` | `src/mediafire_sdk/api/session_maintainer.cpp:141-563` | nothing but a failed token request arms the failure timer |
| `Throttling.TokenRequestsStarted` | `src/mediafire_sdk/api/session_maintainer.cpp:319-397` | how many token requests each action starts in each reachable state, and with which credentials, whether the failure timer is armed or not |
| `Throttling.AsksExactly` | `src/mediafire_sdk/api/session_maintainer.hpp:61-72` | a token request is started if and only if the handler attempts requests, the connection is up or the failure timer fired, credentials are set and not known to be bad (or the timer fired), and the budget allows one |
| `Throttling.AsksWhileLocked` | `src/mediafire_sdk/api/session_maintainer.hpp:67-72` | a concrete run: the account is locked, ten minutes of waiting are to come, and a new request makes the next token request at once |
| `Throttling.OnlyTimerAsks` | `src/mediafire_sdk/api/session_maintainer.hpp:61-65` | after a credentials failure nothing but the failure timer asks for a token, one at a time, until new credentials or a late success end the failure |
| `Throttling.RefusedAsksAreSpaced` | `src/mediafire_sdk/api/session_maintainer.hpp:61-65` | the k-th firing of the failure timer comes no earlier than the end of the k-th wait that ran out, and each such wait is that of another failed token request |
| `Throttling.EachWaitOnce` | `src/mediafire_sdk/api/session_maintainer.cpp:540-548` | the timer has fired, or is about to, exactly once for each wait that ran out |
| `Throttling.WaitsAreOver` | `src/mediafire_sdk/api/session_maintainer.cpp:424-497` | in every run the waits that ran out belong to different failures that did happen, and an armed timer to a later one |
| `Throttling.MinuteCutShort` | `src/mediafire_sdk/api/session_maintainer.hpp:61-65` | a concrete run: after a refusal a failure of another kind brings the next token request 2.5 seconds later |
| `Retrying.RetryingStopsOnlyOneWay` | `src/mediafire_sdk/api/session_maintainer.cpp:353-354` | from any reachable state that keeps retrying, an action stops it if and only if it is a success for superseded credentials that was the last wake-up |
| `Retrying.RetryingNeverStops` | `src/mediafire_sdk/api/session_maintainer.cpp:353-354` | retrying never stops in runs that replace credentials only while no token request for the old ones is unanswered |
| `Retrying.RetryingCanStop` | `src/mediafire_sdk/api/session_maintainer.cpp:353-354` | a concrete run in which it does stop |
| `Retrying.TokenAnswerRetry` | `src/mediafire_sdk/api/session_maintainer.cpp:424-497` | a token answer keeps a wake-up exactly unless it is that late success |
| `BoundedWait.NoUnboundedWait` | `src/mediafire_sdk/api/detail/session_maintainer_locker.cpp:97-136` | a waiting request always has a timeout entry due within its timeout, and the queue looks at it in time |
| `TimedOut.LeavesTheQueue` | `src/mediafire_sdk/api/detail/session_maintainer_locker.cpp:481-534` | over every run: once its timeout has passed and the timeouts queue is idle, a request waits no longer, unless a delayed delivery queued it anew; it is finished, under way or delayed |
| `TimedOut.StepDueBy` | `src/mediafire_sdk/api/detail/session_maintainer_locker.cpp:97-157` | no other step puts off the last timeout of a request |
| `BoundedWait.RunKeepsBounded` | `src/mediafire_sdk/api/detail/session_maintainer_locker.cpp:97-136` | the strengthening: every submitted request has an entry that outlives its retry deadline, or the deadline has passed |
| `BoundedWait.NewIsCovered` | `src/mediafire_sdk/api/detail/session_maintainer_request.hpp:157-159` | the retry deadline of a new request is never later than its timeout entry |
| `BoundedWait.RetryHasEntry` | `src/mediafire_sdk/api/detail/session_maintainer_request.hpp:270-280` | a retry that is allowed still finds an entry |
| `BoundedWait.TimeoutBounded` | `src/mediafire_sdk/api/detail/session_maintainer_locker.cpp:481-534` | a delivered timeout leaves no waiting request without an entry |
| `KeyAgreement.PooledKeysAgree` | `src/mediafire_sdk/api/detail/session_maintainer_locker.cpp:286-328` | if every response is delivered, a stored token's key is the server's: the issued key times 16807^n modulo 2^31-1, and never 0 if it did not start so |
| `KeyAgreement.SignedWithServerKey` | `src/mediafire_sdk/api/session_maintainer.cpp:261-273` | a request that holds its token was signed with the key the server has when it looks |
| `KeyAgreement.OnlyDeliveryKeepsStep` | `src/mediafire_sdk/api/detail/session_maintainer_locker.cpp:302-312` | an answer keeps the key in step if and only if it tells the client what the server did |
| `KeyAgreement.PlayKeepsInv` | `src/mediafire_sdk/api/detail/session_maintainer_locker.cpp:286-328` | client and server stay in sync over all runs, whenever the server renews between request and answer |
| `KeyAgreement.HeldFits` | `src/mediafire_sdk/api/session_maintainer.cpp:261-273` | a request in flight holds the token it was signed with, in step with the server but for an answer still on its way |
| `TokenProtocol.InFlightIsAccepted` | `src/mediafire_sdk/api/unit_tests/ut_session_maintainer.cpp:259-348` | in every play, a signable request whose token is checked out and not yet renewed is accepted against the keys the wallet then holds |
| `TokenProtocol.WalletMirrors` | `src/mediafire_sdk/api/unit_tests/ut_session_maintainer.cpp:339-438` | the wallet's keys and times follow the tokens handed out and the renewals of every play |
| `SecretKey.StepIsInvertible` | `src/mediafire_sdk/api/unit_tests/ut_session_maintainer.cpp:339-348` | a renewal is undone by multiplying by 1407677000 |
| `SecretKey.StepStaysInCycle` | `src/mediafire_sdk/api/unit_tests/ut_session_maintainer.cpp:339-348` | a renewal keeps 1 to 2^31-2 and, of the two other keys a server can draw, leads to 0 |
| `SecretKey.DiesOut` | `src/mediafire_sdk/api/unit_tests/ut_session_maintainer.cpp:339-348` | among the keys a server can draw, the keys become 0 at some renewal if and only if the first one is 0 or 2^31-1, and then at once and for good |
| `SecretKey.BothLeadToZero` | `src/mediafire_sdk/api/unit_tests/ut_session_maintainer.cpp:339-348` | the renewals of 0 and of 2^31-1 are 0 |
| `SecretKey.KeyAfterIsPower` | `src/mediafire_sdk/api/detail/session_maintainer_locker.cpp:304-312` | n renewals multiply by 16807^n modulo 2^31-1 |
| `SecretKey.StepIsInjective` | `src/mediafire_sdk/api/detail/session_maintainer_locker.cpp:309-311` | two keys out of step stay out of step |
| `SecretKey.StepMoves` | `src/mediafire_sdk/api/detail/session_maintainer_locker.cpp:309-311` | a renewal changes every key but 0 |
| `SessionHistory.CountIsChanges` | `src/mediafire_sdk/api/detail/session_maintainer_locker.cpp:445-464` | under any interleaving of locker calls, the change count is the number of real changes (modulo 2^32), and adjacent states differ however many there are |
| `SessionHistory.OnlyAllowedTransitions` | `src/mediafire_sdk/api/session_maintainer.cpp:405-534` | no run has Running to ProlongedError, CredentialsFailure to ProlongedError or Running to Running |
| `SessionHistory.ActsOnWhatWasRead` | `src/mediafire_sdk/api/detail/session_maintainer_locker.cpp:366-378` | with fewer than 2^32 changes, a successful SetSessionStateSafe acts on the state its caller read |
| `SessionHistory.AcceptedMeansUnchanged` | `src/mediafire_sdk/api/detail/session_maintainer_locker.cpp:366-378` | it is accepted if and only if the changes since the read are a multiple of 2^32 |
| `WrapAround.WrapForcesForbidden` | `src/mediafire_sdk/api/detail/session_maintainer_locker.cpp:366-378` | a concrete run: after exactly 2^32 changes a late handler enters ProlongedError out of Running |
| `SessionHistory.RunKeepsInv` | `src/mediafire_sdk/api/detail/session_maintainer_locker.cpp:339-378` | what a handler remembers is what the history had when it read |
| `SessionHistory.HandledInOnePiece` | `src/mediafire_sdk/api/session_maintainer.cpp:399-534` | the calls of one handler without interleaving leave the locker as the handler of the scheduler's runs does |
| `ProlongedErrors.ProlongedErrorEntered` | `src/mediafire_sdk/api/session_maintainer.cpp:458-493` | a step enters ProlongedError if and only if a token request fails otherwise than by credentials, in Initialized or ProlongedError, after at least 10 failures since the last success or on a locked account |
| `ProlongedErrors.CountIsFailures` | `src/mediafire_sdk/api/session_maintainer.cpp:421-422` | the failure count is the failures since the last success (modulo 2^32) |
| `UrlEncode.UrlEncodeBase` | `src/mediafire_sdk/utils/url_encode.cpp:41-79` | encodes byte by byte as sections 2.1 and 2.3 of RFC 3986 say |
| `UrlEncode.MeasureDecoded` | `src/mediafire_sdk/utils/url_encode.cpp:87-112` | the first decoding pass: the decoded length, or failure on a percent sign cut short |
| `UrlEncode.UrlUnencodeBase` | `src/mediafire_sdk/utils/url_encode.cpp:80-149` | both passes; the look-aheads of the second stay in range, and its output has the length of the first |
| `UrlEncode.DecodeInvertsEncode` | `src/mediafire_sdk/utils/url_encode.cpp:26-149` | decoding inverts both encoders for every byte string |
| `UrlEncode.EncodeInvertsDecode` | `src/mediafire_sdk/utils/url_encode.cpp:26-149` | for every text that decodes, encoding gives the text back if and only if its escapes have upper-case digits and are needed, and its plus signs are those of a form |
| `UrlEncode.OtherWritings` | `src/mediafire_sdk/utils/url_encode.cpp:114-149` | %2f and %41 decode to characters that are written otherwise |
| `UrlEncode.EncodedCharacters` | `src/mediafire_sdk/utils/url_encode.cpp:41-79` | an encoding consists of unreserved characters, percent signs and plus signs |
| `UrlEncode.EachByte` | `src/mediafire_sdk/utils/url_encode.cpp:28-60` | a byte encodes to itself if and only if it is one of the 66 unreserved characters of section 2.3 of RFC 3986, and otherwise to its upper-case escape, or a plus sign for a space in a form; read plainly, just those and the plus sign decode |
| `UrlEncode.EncodedJoins` | `src/mediafire_sdk/utils/url_encode.cpp:41-79` | each byte is encoded by itself |
| `UrlEncode.UnreservedDecodes` | `src/mediafire_sdk/utils/url_encode.cpp:80-149` | unreserved text decodes to itself |
| `ApiQuery.MakePathAndQuery` | `src/mediafire_sdk/api/detail/tokenless_api_base_static.cpp:19-37` | the path and the encoded pairs, joined by a question mark and ampersands |
| `ApiQuery.MakePost` | `src/mediafire_sdk/api/detail/tokenless_api_base_static.cpp:39-55` | the form-encoded pairs, joined by ampersands |
| `ApiQuery.SplitText` | `src/mediafire_sdk/api/unit_tests/session_token_test_connection.cpp:219-223` | boost::split: one piece more than there are separators |
| `ApiQuery.ParsePair` | `src/mediafire_sdk/api/unit_tests/session_token_test_connection.cpp:227-256` | one piece gives a decoded key and a decoded or empty value, or a bad request |
| `ApiQuery.ParseParts` | `src/mediafire_sdk/api/unit_tests/session_token_test_connection.cpp:217-258` | the loop that fills query_parts or post_parts |
| `ApiQuery.ParseTarget` | `src/mediafire_sdk/api/unit_tests/session_token_test_connection.cpp:190-258` | path and query of the request line |
| `ApiQuery.QueryReadsBack` | `src/mediafire_sdk/api/unit_tests/session_token_test_connection.cpp:190-258` | the server reads back every map with unreserved keys from the printed query, the empty map and empty values included |
| `ApiQuery.PostReadsBack` | `src/mediafire_sdk/api/unit_tests/session_token_test_connection.cpp:307-359` | the same for a POST body |
| `ApiQuery.OddPieces` | `src/mediafire_sdk/api/unit_tests/session_token_test_connection.cpp:227-256` | a piece without an equals sign is a key with an empty value, and behind a second equals sign nothing counts |
| `ApiQuery.FirstLineCounts` | `src/mediafire_sdk/api/unit_tests/session_token_test_connection.cpp:307-359` | of a body only the first line counts, without the white space at its end |
| `ApiQuery.TwoQuestionMarks` | `src/mediafire_sdk/api/unit_tests/session_token_test_connection.cpp:190-215` | a target with a second question mark is a bad request |
| `Signature.SessionTokenApi.SetSessionToken` | `src/mediafire_sdk/api/detail/session_token_api_base_static.cpp:22-31` | sets the three fields |
| `Signature.SessionTokenApi.MakePost` | `src/mediafire_sdk/api/detail/session_token_api_base_static.cpp:77-106` | signs the key's low byte, the time, the path and the printed form, and appends the signature |
| `Signature.SessionTokenWallet.PostValidates` | `src/mediafire_sdk/api/unit_tests/ut_session_maintainer.cpp:259-329` | what the server checks, and the renewal on success |
| `Signature.SessionTokenWallet.GenerateNextSecretKey` | `src/mediafire_sdk/api/unit_tests/ut_session_maintainer.cpp:339-348` | renews the key of a known token |
| `Signature.SessionTokenWallet.AddValidToken` | `src/mediafire_sdk/api/unit_tests/ut_session_maintainer.cpp:414-432` | stores the token under its name |
| `Signature.SessionTokenWallet.InvalidateToken` | `src/mediafire_sdk/api/unit_tests/ut_session_maintainer.cpp:434-438` | forgets the token |
| `Signature.Find` | `src/mediafire_sdk/api/unit_tests/ut_session_maintainer.cpp:309-314` | std::string::find: the first occurrence |
| `Signature.QueryMarked` | `src/mediafire_sdk/api/unit_tests/ut_session_maintainer.cpp:309-314` | for all names, values and tokens, "signature=" is in the signed text if and only if it is in the token or in a name with its equals sign |
| `Signature.PlainlyMarked` | `src/mediafire_sdk/api/unit_tests/ut_session_maintainer.cpp:309-314` | for unreserved names and tokens that means: if and only if a name ends in signature |
| `Signature.ServerTextExact` | `src/mediafire_sdk/api/unit_tests/ut_session_maintainer.cpp:308-318` | for all names, values, tokens and signatures, the server hashes exactly what was signed if and only if neither the token nor a name with its equals sign contains "signature="; otherwise a proper beginning of it |
| `Signature.SuffixCutsText` | `src/mediafire_sdk/api/unit_tests/ut_session_maintainer.cpp:308-318` | for a parameter named xsignature the server hashes a proper beginning of what was signed |
| `Signature.EqualsCutsText` | `src/mediafire_sdk/api/unit_tests/ut_session_maintainer.cpp:308-318` | the same for one named signature=a |
| `Signature.DigitsAreNumeral` | `src/mediafire_sdk/api/detail/session_token_api_base_static.cpp:95-101` | the digits printed for a number are its decimal numeral |
| `Signature.OneNumeral` | `src/mediafire_sdk/api/detail/session_token_api_base_static.cpp:95-101` | a number has one decimal numeral without leading zeros |
| `Signature.SignsRemainder` | `src/mediafire_sdk/api/detail/session_token_api_base_static.cpp:95-101` | what is signed is the numeral of the key's remainder by 256, signed as in C++, then time, path, a question mark and the query |
| `Signature.SignedAlike` | `src/mediafire_sdk/api/detail/session_token_api_base_static.cpp:95-101` | two keys that are not negative sign the same text if and only if they agree modulo 256 |
| `Signature.OnePost` | `src/mediafire_sdk/api/detail/session_token_api_base_static.cpp:77-106` | one post as it is sent and as it is hashed |
| `Signature.AcceptedExactly` | `src/mediafire_sdk/api/unit_tests/ut_session_maintainer.cpp:259-329` | a well-named request is accepted if and only if the server's key and time give the same hash, for any hash |
| `Signature.LockStepIsAccepted` | `src/mediafire_sdk/api/unit_tests/ut_session_maintainer.cpp:259-348` | client and server starting from the same key accept each other for any number of requests |
| `Base64.WriteQuantum` | `src/mediafire_sdk/utils/base64.cpp:26-32` | three octets become four characters through the 24-bit accumulator |
| `Base64.WriteTail` | `src/mediafire_sdk/utils/base64.cpp:34-50` | one or two left-over bytes are padded |
| `Base64.Base64Encode` | `src/mediafire_sdk/utils/base64.cpp:18-52` | the encoding of section 4 of RFC 4648, 4 * ceil(n / 3) characters long |
| `Base64.ReadQuantum` | `src/mediafire_sdk/utils/base64.cpp:74-114` | one quantum is decoded correctly whatever the accumulator held before |
| `Base64.Base64Decode` | `src/mediafire_sdk/utils/base64.cpp:54-117` | decodes with one accumulator that is never reset |
| `Base64.DecodeInvertsEncode` | `src/mediafire_sdk/utils/base64.cpp:18-117` | decoding inverts encoding for every byte sequence |
| `Base64.EncodeInvertsDecode` | `src/mediafire_sdk/utils/base64.cpp:54-117` | for every text that decodes, encoding gives the text back if and only if its padding is whole and leaves no bits over (section 3.5 of RFC 4648) |
| `Base64.OtherWritings` | `src/mediafire_sdk/utils/base64.cpp:87-104` | AB== and AA=X decode to a single 0, whose encoding is neither |
| `Base64.ShiftKeepsLowBits` | `src/mediafire_sdk/utils/base64.cpp:70-86` | stale high bits never reach the digits being read |
| `Base64.PaddingMet` | `src/mediafire_sdk/utils/base64.cpp:87-104` | padding yields one or two bytes in the last quantum and fails elsewhere |
| `Base64.UsesAlphabet` | `src/mediafire_sdk/utils/base64.cpp:13-14` | the encoder writes, and the decoder reads, the alphabet of section 4 of RFC 4648 and no other character |
| `Url.Create` | `src/mediafire_sdk/http/url.cpp:30-107` | splits a URL at the first separators, or fails without a scheme separator |
| `Url.ParseAuthority` | `src/mediafire_sdk/http/url.cpp:55-101` | login before the first at sign, dropped without a colon; host and port at the first colon |
| `Url.ParsePath` | `src/mediafire_sdk/http/url.cpp:109-159` | query from the first question mark, fragment from the first hash behind it |
| `Url.FromRedirect` | `src/mediafire_sdk/http/url.cpp:161-198` | builds and parses the text of the redirect |
| `Url.PathRejoins` | `src/mediafire_sdk/http/url.cpp:109-159` | path, query and fragment rejoin with their separators to the full path, for every URL |
| `Url.UrlRejoins` | `src/mediafire_sdk/http/url.cpp:30-107` | scheme, authority and full path are the URL; only a missing path is made up |
| `UrlConformance.PathAsInRfc` | `src/mediafire_sdk/http/url.cpp:109-159` | path, query and fragment are those of section 3 of RFC 3986 if and only if no hash sign comes before the first question mark |
| `UrlConformance.QueryInsideFragment` | `src/mediafire_sdk/http/url.cpp:109-159` | /a#b?c is read otherwise |
| `UrlConformance.AuthorityAsInRfc` | `src/mediafire_sdk/http/url.cpp:51-53` | the authority ends as in section 3.2 of RFC 3986 if and only if no question mark or hash sign comes before the first slash |
| `UrlConformance.QueryInsideAuthority` | `src/mediafire_sdk/http/url.cpp:51-53` | for http://host?q the query becomes part of the host |
| `UrlConformance.AuthorityPrintsBack` | `src/mediafire_sdk/http/url.cpp:55-101` | the parsed parts still print the authority if and only if its login, if any, has a colon and is more than that, and a colon of its host is followed by a port |
| `Url.BuildRedirect` | `src/mediafire_sdk/http/url.cpp:173-194` | what FromRedirect puts together: scheme and redirect, or scheme, printed authority and redirect |
| `UrlConformance.LostParts` | `src/mediafire_sdk/http/url.cpp:55-101` | joe@host, :@host and host: each lose something |
| `UrlConformance.UserForgotten` | `src/mediafire_sdk/http/url.cpp:66-86` | http://joe@host/ has no user |
| `UrlConformance.RedirectLeavesOrigin` | `src/mediafire_sdk/http/url.cpp:161-198` | a redirect to /x from http://a@b@c/ goes to another host |
| `UrlConformance.EachPart` | `src/mediafire_sdk/http/url.cpp:30-159` | a URL with all its parts: each part is read as what it is |
| `UrlConformance.HostAlone` | `src/mediafire_sdk/http/url.cpp:30-107` | a scheme and a host alone: the path is a slash and all else is empty |
| `UrlConformance.QueryNamesHost` | `src/mediafire_sdk/http/url.cpp:161-172` | a redirect from http://good/ to /login?next=http://evil/ goes to the host evil, by the scheme /login?next=http |
| `UrlConformance.QueryNamesScheme` | `src/mediafire_sdk/http/url.cpp:161-172` | a redirect from http://good/ to //host/?u=http://x/ goes to the host x, by the scheme //host/?u=http |
| `Url.LoginReadsBack` | `src/mediafire_sdk/http/url.cpp:55-101` | a printed login, host and port of the parser's shape are read back |
| `Url.HostReadsBack` | `src/mediafire_sdk/http/url.cpp:88-101` | so are a printed host and port |
| `Url.ParsesParts` | `src/mediafire_sdk/http/url.cpp:30-107` | a scheme, an authority and a path put together are taken apart again |
| `Url.ParsedIsWellShaped` | `src/mediafire_sdk/http/url.cpp:30-107` | what the parser leaves in the parts of an authority |
| `Url.RedirectKeepsOrigin` | `src/mediafire_sdk/http/url.cpp:161-198` | every redirect: it keeps scheme, login, host and port and asks for itself if and only if it starts with one slash, has no scheme separator anywhere, and the URL has a login or no at sign in host and port |
| `Url.OneAtKeepsOrigin` | `src/mediafire_sdk/http/url.cpp:161-198` | from a URL with at most one at sign in its authority: if and only if it starts with one slash and has no scheme separator |
| `Url.SchemeRelativeKeepsScheme` | `src/mediafire_sdk/http/url.cpp:161-180` | every redirect that starts with two slashes: it keeps the scheme and goes to the host and path behind them if and only if it has no scheme separator |
| `ContainerAlgorithms.Container.Unique` | `src/mediafire_sdk/utils/container_algorithms.hpp:31-35` | std::unique in place: one of each run of equal items |
| `ContainerAlgorithms.Merge` | `src/mediafire_sdk/utils/container_algorithms.hpp:44-63` | the two-iterator loop |
| `ContainerAlgorithms.CopyRest` | `src/mediafire_sdk/utils/container_algorithms.hpp:65-70` | what is left over is copied |
| `ContainerAlgorithms.Distribute` | `src/mediafire_sdk/utils/container_algorithms.hpp:44-70` | all three loops together |
| `ContainerAlgorithms.RepartitionIntersection` | `src/mediafire_sdk/utils/container_algorithms.hpp:26-75` | for any inputs and any comparison, each container keeps its own part and the shared items are appended to the third |
| `ContainerAlgorithms.DividedKeepsAll` | `src/mediafire_sdk/utils/container_algorithms.hpp:43-70` | whatever the comparison, no item is lost or made up |
| `ContainerAlgorithms.DividedIsExact` | `src/mediafire_sdk/utils/container_algorithms.hpp:43-70` | in a strict total order the parts are the differences and the intersection |
| `ContainerAlgorithms.Repartitioned` | `src/mediafire_sdk/utils/container_algorithms.hpp:17-75` | the three results are strictly sorted, are exactly the two differences and the intersection, and so are disjoint and hold every element |
| `HttpRequestMachine.HttpRequestMachine.constructor` | `src/mediafire_sdk/http/detail/http_request_state_machine.hpp:187-225` | a new request is unstarted |
| `HttpRequestMachine.HttpRequestMachine.Lookup` | `src/mediafire_sdk/http/detail/http_request_state_machine.hpp:481-530` | the row of the transition table, with its guards |
| `HttpRequestMachine.HttpRequestMachine.AfterConnect` | `src/mediafire_sdk/http/detail/http_request_state_machine.hpp:142-166` | the guards ProxyConnectRequired and IsSsl |
| `HttpRequestMachine.HttpRequestMachine.LookupError` | `src/mediafire_sdk/http/detail/http_request_state_machine.hpp:481-530` | the rows of an error event |
| `HttpRequestMachine.HttpRequestMachine.ParseUrl` | `src/mediafire_sdk/http/detail/state_initialize.hpp:38-60` | parses the URL unless a redirect passed one in |
| `HttpRequestMachine.HttpRequestMachine.DoInit` | `src/mediafire_sdk/http/detail/state_initialize.hpp:25-92` | the scheme decides about SSL; a bad URL or scheme is an error |
| `HttpRequestMachine.HttpRequestMachine.OpenSocket` | `src/mediafire_sdk/http/detail/state_initialize.hpp:62-82` | sets is_ssl and the socket and goes on |
| `HttpRequestMachine.HttpRequestMachine.EnterParseHeaders` | `src/mediafire_sdk/http/detail/state_parse_headers.hpp:26-113` | a redirect status needs a location that is a URL |
| `HttpRequestMachine.HttpRequestMachine.EnterRedirect` | `src/mediafire_sdk/http/detail/state_redirect.hpp:26-90` | the policy allows or denies a redirect |
| `HttpRequestMachine.HttpRequestMachine.Allowed` | `src/mediafire_sdk/http/detail/state_redirect.hpp:52-79` | what the policy says about a redirect to that scheme |
| `HttpRequestMachine.HttpRequestMachine.EnterError` | `src/mediafire_sdk/http/detail/state_error.hpp:24-44` | restarts on an I/O timeout before the deadline, passes anything else on |
| `HttpRequestMachine.HttpRequestMachine.EnterFinal` | `src/mediafire_sdk/http/detail/http_request_state_machine.hpp:294-338` | disconnects and makes the terminal call |
| `HttpRequestMachine.HttpRequestMachine.Configure` | `src/mediafire_sdk/http/detail/transition_config.hpp:19-74` | sets what is configured |
| `HttpRequestMachine.HttpRequestMachine.ProcessEvent` | `src/mediafire_sdk/http/detail/http_request_state_machine.hpp:256-270` | an event posted inside a transition waits for its end |
| `HttpRequestMachine.HttpRequestMachine.EnterState` | `src/mediafire_sdk/http/detail/http_request_state_machine.hpp:294-338` | the entry action of the state entered |
| `HttpRequestMachine.HttpRequestMachine.HandleEvent` | `src/mediafire_sdk/http/detail/http_request_state_machine.hpp:481-530` | one event from the strand, with the entry action it leads to |
| `HttpRequestRuns.SentAfterHandshakes` | `src/mediafire_sdk/http/detail/http_request_state_machine.hpp:142-176` | after any redirects and restarts, an https request is sent only after ProxyConnect, if there is a proxy, and SSLHandshake; an http request only over its own way |
| `HttpRequestRuns.NoLateRestart` | `src/mediafire_sdk/http/detail/state_error.hpp:31-43` | no RestartEvent is issued at or after the deadline, nor for another error |
| `HttpRequestRuns.ErrorRestartsExactly` | `src/mediafire_sdk/http/detail/state_error.hpp:24-44` | an error in a working state restarts the request if and only if it is an I/O timeout before the deadline; otherwise the request ends with that error |
| `HttpRequestRuns.OneTerminalCall` | `src/mediafire_sdk/http/detail/http_request_state_machine.hpp:294-338` | at most one terminal call is made, exactly on the way into a terminal state |
| `HttpRequestRuns.TerminalIsForever` | `src/mediafire_sdk/http/detail/http_request_state_machine.hpp:294-338` | a terminal state is never left |
| `HttpRequestRuns.OwnEventsHaveRows` | `src/mediafire_sdk/http/detail/http_request_state_machine.hpp:481-530` | an event that the machine posts to itself always has a row |
| `HttpRequestRuns.OwnEventsRunOut` | `src/mediafire_sdk/http/detail/http_request_state_machine.hpp:481-530` | handling its own events always comes to an end |
| `HttpRequestRuns.NeverDowngraded` | `src/mediafire_sdk/http/detail/state_redirect.hpp:66-79` | under DenyDowngrade a request that went over SSL never goes without it |
| `RedirectRuns.ResponseLeads` | `src/mediafire_sdk/http/detail/state_redirect.hpp:26-90` | in every run, the headers of a response lead to the URL of the location if and only if the status is 301 or 302, the location is a URL and the policy allows it; to the content for any other status; otherwise to the error that says why |
| `RedirectRuns.FollowsOrNot` | `src/mediafire_sdk/http/detail/state_redirect.hpp:49-83` | a redirect sets the URL and the parsed URL and closes the socket, or is denied |
| `RedirectRuns.Opens` | `src/mediafire_sdk/http/detail/state_initialize.hpp:25-92` | what a followed redirect opens: its URL, over SSL just for https |
| `HttpRequestRuns.RunKeepsInv` | `src/mediafire_sdk/http/detail/http_request_state_machine.hpp:481-530` | queue, socket, route and calls fit the state after every run |
| `HttpRequestRuns.LastConfigCounts` | `src/mediafire_sdk/http/detail/transition_config.hpp:19-74` | what is configured last before the start counts, for each kind by itself |
| `HttpRequestRuns.ConfigStays` | `src/mediafire_sdk/http/detail/transition_config.hpp:19-74` | once the request has started, nothing changes its configuration |

## Left out

- Sockets, TLS, asio, the strand and the mutex themselves: HTTP answers in a later step, never from
  inside `Init`, and the requests whose HTTP request is under way are those in progress.
- How often a user's callback runs: Cancel leaves a waiting request queued, and Fail on a requeued
  request reaches an HTTP request that is already finished, so the code does not give exactly once.
- StopTimeouts and destructors in runs of the scheduler: they drop delayed requests and serve shutdown.
- Callbacks that tell of state changes; a callback that calls back in is a later step here.
- Requests are values with an identity, so a timeout entry never outlives its request (the source holds
  it weakly); that only adds deliveries without effect.
- JSON and property trees, MD5, error categories and debug text: enumerations and parameters stand for
  them. Error codes that the scheduler treats alike are one code with a number.
- GET signatures: the client signs unencoded text and the test server hashes encoded text.
- The handlers of the test server and what it does before and after its parsers.
- Shifting the 32-bit accumulators of base64 beyond their sign bit, which C++ leaves undefined, drops the
  high bits.
- What sscanf makes of anything but two hexadecimal digits: the scanner parameter may do as it likes.
- ContainerAlgorithms.RepartitionIntersection: does not model aliased containers, because then the
  source walks items that std::unique leaves unspecified or iterators that push_back ends.
- Url objects are built as values, by methods that walk the text as the constructor does.
- HTTP states that only run I/O (resolve, connect, handshake, send, read) are their rows in the
  transition table; stale completions arrive as events without a row. RacePreventer, the I/O timers,
  bandwidth delay, request headers and the two header callbacks are not part of this model.
- Events that arrive from outside while the machine still has its own to handle: the strand makes them
  wait, and so does the model.
- HttpRequestMachine.HttpRequestMachine.Configure: does not model the request method and the headers it
  sets, because no transition or entry action depends on them.
- ConfigEvent after the start throws in the source and changes nothing here.
- Coroutine actions, WorkManager, generated API classes, the uploader, file and thread helpers.
- HttpConfig and bandwidth analysis: they would only add simple members.
