/** Every run of one HTTP request: events from outside arrive whenever the machine has none of its own
    left to handle; redirects and timeout restarts may happen any number of times. */
module HttpRequestRuns {
  import opened Basics
  import opened HttpRequest
  import Url

  datatype World = World(m: Machine, now: Time)

  datatype Input = Arrives(e: Event) | Drains | Elapses(time: Time)

  /** What a new machine looks like; is_ssl_ has whatever value it happens to have. */
  ghost predicate Fresh(m: Machine) {
    && m.state == Unstarted && m.parsedUrl.None? && !m.hasSocket
    && m.queue == [] && m.callbacks == [] && m.trail == [] && m.restarts == []
  }

  /** The events that only the machine itself posts. */
  predicate FromOutside(e: Event) {
    && e != RestartEvent && e != InitializedEvent && e != RedirectedEvent && e != HeadersParsedEvent
    && !e.RedirectEvent?
  }

  function Step(w: World, input: Input): World {
    match input
    case Arrives(e) =>
      if w.m.queue == [] && FromOutside(e) then w.(m := Handle(w.m, e, w.now)) else w
    case Drains =>
      if w.m.queue != [] then w.(m := Handle(w.m.(queue := w.m.queue[1..]), w.m.queue[0], w.now)) else w
    case Elapses(time) => w.(now := w.now + time)
  }

  function Run(start: Machine, inputs: seq<Input>): World {
    if inputs == [] then World(start, start.created)
    else Step(Run(start, inputs[..|inputs| - 1]), inputs[|inputs| - 1])
  }

  // ---- the invariant

  /** The states whose entry action posts an event, and the events they post. */
  predicate Posts(s: State, e: Event) {
    match s
    case Initializing => e == InitializedEvent || e == ErrorEvent(InvalidUrl)
    case ParseHeaders => e == HeadersParsedEvent || e.RedirectEvent? || e == ErrorEvent(InvalidRedirectUrl)
    case Redirect =>
      e == RedirectedEvent || e == ErrorEvent(InvalidRedirectUrl) || e == ErrorEvent(RedirectPermissionDenied)
    case Error => e == RestartEvent || e.ErrorEvent?
    case _ => false
  }

  predicate Passing(s: State) { s in {Initializing, ParseHeaders, Redirect, Error} }

  ghost predicate QueueFits(m: Machine) {
    if Passing(m.state) then |m.queue| == 1 && Posts(m.state, m.queue[0]) else m.queue == []
  }

  /** The URL's scheme is one of the two, and SSL is chosen by it. */
  predicate SchemeChosen(m: Machine) {
    m.parsedUrl.Some? && m.parsedUrl.value.scheme == if m.isSsl then "https" else "http"
  }

  /** The states between Initializing and the end of a response. */
  predicate Working(s: State) {
    s in {Resolve, Connect, ProxyConnect, SSLHandshake, SendHeader, SendPost, ReadHeaders, ParseHeaders, ReadContent}
  }

  ghost predicate SocketFits(m: Machine) {
    && (Working(m.state) || m.queue == [InitializedEvent] ==> SchemeChosen(m) && m.hasSocket)
    && (m.state == Complete ==> SchemeChosen(m))
    && (Terminal(m.state) ==> !m.hasSocket)
  }

  /** The way from Connect to the first byte of the request. */
  function Handshakes(m: Machine): seq<State> {
    (if ProxyConnectRequired(m) then [ProxyConnect] else []) + (if m.isSsl then [SSLHandshake] else [])
  }

  function BeforeSend(m: Machine): seq<State> { [Initializing, Resolve, Connect] + Handshakes(m) }

  /** The states that lead to `s` on the only way there is. */
  function Route(m: Machine, s: State): seq<State> {
    var sent := BeforeSend(m) + [SendHeader];
    var answered := sent + (if m.hasPost then [SendPost] else []) + [ReadHeaders, ParseHeaders];
    match s
    case Initializing => [Initializing]
    case Resolve => [Initializing, Resolve]
    case Connect => [Initializing, Resolve, Connect]
    case ProxyConnect => [Initializing, Resolve, Connect, ProxyConnect]
    case SSLHandshake => BeforeSend(m)
    case SendHeader => sent
    case SendPost => sent + [SendPost]
    case ReadHeaders => sent + (if m.hasPost then [SendPost] else []) + [ReadHeaders]
    case ParseHeaders => answered
    case Redirect => answered + [Redirect]
    case ReadContent => answered + [ReadContent]
    case Complete => answered + [ReadContent, Complete]
    case _ => []
  }

  ghost predicate OnRoute(m: Machine) {
    && (m.state == ProxyConnect ==> ProxyConnectRequired(m))
    && (m.state == SSLHandshake ==> m.isSsl)
    && (m.state == SendPost ==> m.hasPost)
    && (m.state in {Unstarted, Error, FinalError} || m.trail == Route(m, m.state))
  }

  ghost predicate CallsFit(m: Machine) {
    && |m.callbacks| == (if Terminal(m.state) then 1 else 0)
    && (m.state == Complete ==> m.callbacks == [CompleteCallback])
    && (m.state == FinalError ==> m.callbacks[0].ErrorCallback?)
  }

  ghost predicate RestartsFit(m: Machine, now: Time) {
    && (forall r | r in m.restarts :: r.code == IoTimeout && r.at < m.created + 1000 * m.timeoutSeconds && r.at <= now)
    && (m.state == Unstarted ==> m.restarts == [])
  }

  ghost predicate Inv(m: Machine) { QueueFits(m) && SocketFits(m) && OnRoute(m) && CallsFit(m) }

  /** The machine between taking an event and handling it. */
  ghost predicate Ready(m: Machine) {
    && m.queue == [] && !Terminal(m.state) && m.callbacks == [] && OnRoute(m)
    && (Working(m.state) ==> SchemeChosen(m) && m.hasSocket)
  }

  lemma RouteToSendGrows(m: Machine, e: Event)
    requires OnRoute(m) && m.state in {Initializing, Resolve, Connect, ProxyConnect, SSLHandshake}
    requires Next(m, e).Some? && Working(Next(m, e).value)
    ensures Route(m, Next(m, e).value) == Route(m, m.state) + [Next(m, e).value]
  {
  }

  lemma RouteFromSendGrows(m: Machine, e: Event)
    requires OnRoute(m) && m.state in {SendHeader, SendPost, ReadHeaders, ParseHeaders, ReadContent}
    requires Next(m, e).Some? && Next(m, e).value != Error
    ensures Route(m, Next(m, e).value) == Route(m, m.state) + [Next(m, e).value]
  {
  }

  /** Two machines that agree on the guards have the same routes. */
  lemma SameRoute(m: Machine, m': Machine, s: State)
    requires m'.isSsl == m.isSsl && m'.hasPost == m.hasPost
    requires m'.httpProxy == m.httpProxy && m'.httpsProxy == m.httpsProxy
    ensures Route(m', s) == Route(m, s)
  {
  }

  /** Initializing posts one event and touches nothing but what it is there to set. */
  lemma InitializePosts(m: Machine)
    requires m.queue == []
    ensures var m' := Initialize(m);
      && m' == m.(isSsl := m'.isSsl, parsedUrl := m'.parsedUrl, hasSocket := m'.hasSocket, queue := m'.queue)
      && |m'.queue| == 1 && Posts(Initializing, m'.queue[0])
      && (m'.queue == [InitializedEvent] ==> SchemeChosen(m') && m'.hasSocket)
  {
  }

  lemma InitializeKeepsInv(m: Machine, e: Event, now: Time)
    requires Ready(m)
    ensures Inv(Enter(m, Initializing, e, now))
  {
    InitializePosts(Move(m, Initializing));
  }

  lemma ParseHeadersKeepsInv(m: Machine, e: Event, now: Time)
    requires Ready(m) && m.state == ReadHeaders && e.HeadersReadEvent?
    ensures Inv(Enter(m, ParseHeaders, e, now))
  {
    var m' := Enter(m, ParseHeaders, e, now);
    assert m' == m.(state := ParseHeaders, trail := m.trail + [ParseHeaders], queue := m'.queue);
    RouteFromSendGrows(m, e);
    SameRoute(m, m', ParseHeaders);
  }

  lemma FollowedPosts(m: Machine, target: string, parsed: Url.Result)
    requires m.queue == []
    ensures var m' := Followed(m, target, parsed);
      && m' == m.(parsedUrl := m'.parsedUrl, url := m'.url, hasSocket := m'.hasSocket, queue := m'.queue)
      && |m'.queue| == 1 && Posts(Redirect, m'.queue[0])
  {
  }

  lemma FollowRedirectPosts(m: Machine, target: string)
    requires m.queue == []
    ensures var m' := FollowRedirect(m, target);
      && m' == m.(parsedUrl := m'.parsedUrl, url := m'.url, hasSocket := m'.hasSocket, queue := m'.queue)
      && |m'.queue| == 1 && Posts(Redirect, m'.queue[0])
  {
    FollowedPosts(m, target, Url.Parsed(target));
  }

  lemma RedirectKeepsInv(m: Machine, e: Event, now: Time)
    requires Ready(m) && m.state == ParseHeaders && e.RedirectEvent?
    ensures Inv(Enter(m, Redirect, e, now))
  {
    var m' := FollowRedirect(Move(m, Redirect), e.redirectUrl);
    FollowRedirectPosts(Move(m, Redirect), e.redirectUrl);
    assert m'.state == Redirect && m'.trail == m.trail + [Redirect] && m'.callbacks == [];
    RouteFromSendGrows(m, e);
    SameRoute(m, m', Redirect);
    assert Enter(m, Redirect, e, now) == m';
  }

  lemma ErrorKeepsInv(m: Machine, e: Event, now: Time)
    requires Ready(m) && e.ErrorEvent?
    ensures Inv(Enter(m, Error, e, now))
  {
  }

  lemma FinalErrorKeepsInv(m: Machine, e: Event, now: Time)
    requires Ready(m) && e.ErrorEvent?
    ensures Inv(Enter(m, FinalError, e, now))
  {
  }

  lemma CompleteKeepsInv(m: Machine, e: Event, now: Time)
    requires Ready(m) && m.state == ReadContent && e == ContentReadEvent
    ensures Inv(Enter(m, Complete, e, now))
  {
    RouteFromSendGrows(m, e);
    SameRoute(m, Enter(m, Complete, e, now), Complete);
  }

  lemma MovedFits(m: Machine, s: State)
    requires Ready(m) && SchemeChosen(m) && m.hasSocket && Working(s) && s != ParseHeaders
    requires s == ProxyConnect ==> ProxyConnectRequired(m)
    requires s == SSLHandshake ==> m.isSsl
    requires s == SendPost ==> m.hasPost
    requires m.trail + [s] == Route(m, s)
    ensures Inv(Move(m, s))
  {
    SameRoute(m, Move(m, s), s);
  }

  /** The rows between working states. */
  lemma WorkKeepsInv(m: Machine, e: Event, now: Time)
    requires Ready(m) && (Working(m.state) || m.state == Initializing)
    requires m.state == Initializing ==> SchemeChosen(m) && m.hasSocket
    requires Next(m, e).Some? && Working(Next(m, e).value) && Next(m, e).value != ParseHeaders
    ensures Inv(Enter(m, Next(m, e).value, e, now))
  {
    RouteGrows(m, e);
    GuardsHold(m, e);
    MovedFits(m, Next(m, e).value);
    EnterIsMove(m, Next(m, e).value, e, now);
  }

  lemma RouteGrows(m: Machine, e: Event)
    requires OnRoute(m) && (Working(m.state) || m.state == Initializing)
    requires Next(m, e).Some? && Working(Next(m, e).value)
    ensures m.trail + [Next(m, e).value] == Route(m, Next(m, e).value)
  {
    if m.state in {Initializing, Resolve, Connect, ProxyConnect, SSLHandshake} { RouteToSendGrows(m, e); }
    else { RouteFromSendGrows(m, e); }
  }

  lemma EnterIsMove(m: Machine, s: State, e: Event, now: Time)
    requires Working(s) && s != ParseHeaders
    ensures Enter(m, s, e, now) == Move(m, s)
  {
  }

  /** The guarded states are entered only where their guard holds. */
  lemma GuardsHold(m: Machine, e: Event)
    requires OnRoute(m) && Next(m, e).Some?
    ensures Next(m, e).value == ProxyConnect ==> ProxyConnectRequired(m)
    ensures Next(m, e).value == SSLHandshake ==> m.isSsl
    ensures Next(m, e).value == SendPost ==> m.hasPost
  {
    GuardedFrom(m, e);
  }

  /** Where the guarded states are entered from. */
  lemma GuardedFrom(m: Machine, e: Event)
    requires Next(m, e).Some?
    ensures Next(m, e).value == ProxyConnect ==> m.state == Connect
    ensures Next(m, e).value == SSLHandshake ==> m.state in {Connect, ProxyConnect}
    ensures Next(m, e).value == SendPost ==> m.state == SendHeader
  {
  }

  lemma HandleIsEnter(m: Machine, e: Event, now: Time)
    requires m.state != Unstarted && Next(m, e).Some?
    ensures Handle(m, e, now) == Enter(m, Next(m, e).value, e, now)
  {
  }

  lemma WorkingHandles(m: Machine, e: Event, now: Time)
    requires Ready(m) && Working(m.state) && Next(m, e).Some?
    ensures Inv(Handle(m, e, now))
  {
    HandleIsEnter(m, e, now);
    if Next(m, e).value == Error { ErrorKeepsInv(m, e, now); }
    else if Next(m, e).value == ParseHeaders { ParseHeadersKeepsInv(m, e, now); }
    else if Next(m, e).value == Redirect { RedirectKeepsInv(m, e, now); }
    else if Next(m, e).value == Complete { CompleteKeepsInv(m, e, now); }
    else { WorkKeepsInv(m, e, now); }
  }

  /** A machine that handles what it posted itself. */
  lemma PassingHandles(m: Machine, e: Event, now: Time)
    requires Ready(m) && m.state in {Initializing, Redirect, Error} && Posts(m.state, e)
    requires m.state == Initializing && e == InitializedEvent ==> SchemeChosen(m) && m.hasSocket
    ensures Next(m, e).Some? && Inv(Handle(m, e, now))
  {
    if e.ErrorEvent? && m.state == Error { FinalErrorKeepsInv(m, e, now); }
    else if e.ErrorEvent? { ErrorKeepsInv(m, e, now); }
    else if m.state == Initializing { WorkKeepsInv(m, e, now); }
    else { InitializeKeepsInv(m, e, now); }
  }

  /** Nothing but ParseHeaders both works and posts. */
  lemma ParseHeadersPosts(m: Machine, e: Event)
    requires m.state == ParseHeaders && Posts(ParseHeaders, e)
    ensures Next(m, e).Some?
  {
  }

  lemma PoppedIsReady(m: Machine)
    requires Inv(m) && !Terminal(m.state)
    ensures Ready(m.(queue := []))
  {
    SameRoute(m, m.(queue := []), m.state);
  }

  lemma DrainKeepsInv(m: Machine, now: Time)
    requires Inv(m) && m.queue != []
    ensures Inv(Handle(m.(queue := m.queue[1..]), m.queue[0], now))
    ensures Next(m.(queue := []), m.queue[0]).Some?
  {
    var popped, e := m.(queue := []), m.queue[0];
    assert m.queue[1..] == [] && m.queue == [e];
    PoppedIsReady(m);
    if m.state == ParseHeaders {
      ParseHeadersPosts(popped, e);
      WorkingHandles(popped, e, now);
    } else {
      PassingHandles(popped, e, now);
    }
  }

  lemma ArrivalKeepsInv(m: Machine, e: Event, now: Time)
    requires Inv(m) && m.queue == []
    ensures Inv(Handle(m, e, now))
  {
    if Next(m, e).Some? {
      PoppedIsReady(m);
      assert m.(queue := []) == m;
      if m.state == Unstarted {
        if !e.ConfigEvent? { InitializeKeepsInv(m, e, now); }
      } else {
        WorkingHandles(m, e, now);
      }
    }
  }

  lemma StepKeepsInv(w: World, input: Input)
    requires Inv(w.m)
    ensures Inv(Step(w, input).m)
  {
    match input
    case Arrives(e) => if w.m.queue == [] { ArrivalKeepsInv(w.m, e, w.now); }
    case Drains => if w.m.queue != [] { DrainKeepsInv(w.m, w.now); }
    case Elapses(_) =>
  }

  lemma {:induction false} RunKeepsInv(start: Machine, inputs: seq<Input>)
    requires Fresh(start)
    ensures Inv(Run(start, inputs).m)
  {
    if inputs != [] {
      RunKeepsInv(start, inputs[..|inputs| - 1]);
      StepKeepsInv(Run(start, inputs[..|inputs| - 1]), inputs[|inputs| - 1]);
    }
  }

  // ---- results

  /** Whatever redirects and restarts came before: a request is sent over the one way that fits it.
      With https that way ends in the SSL handshake, which a proxy, if there is one, has been asked to
      connect for; with http there is no handshake, and a proxy is asked only if it wants a login. */
  lemma SentAfterHandshakes(start: Machine, inputs: seq<Input>)
    requires Fresh(start) && Run(start, inputs).m.state == SendHeader
    ensures var m := Run(start, inputs).m;
      && m.parsedUrl.Some?
      && (m.parsedUrl.value.scheme == "https" ==>
            m.trail == [Initializing, Resolve, Connect]
                       + (if m.httpsProxy.Some? then [ProxyConnect] else []) + [SSLHandshake, SendHeader])
      && (m.parsedUrl.value.scheme == "http" ==>
            m.trail == [Initializing, Resolve, Connect]
                       + (if m.httpProxy.Some? && m.httpProxy.value.username != "" then [ProxyConnect] else [])
                       + [SendHeader])
      && (m.parsedUrl.value.scheme == "https" || m.parsedUrl.value.scheme == "http")
  {
    RunKeepsInv(start, inputs);
  }

  /** Every event that the machine posts to itself has a row in the state where it is handled. */
  lemma OwnEventsHaveRows(start: Machine, inputs: seq<Input>)
    requires Fresh(start) && Run(start, inputs).m.queue != []
    ensures var m := Run(start, inputs).m; |m.queue| == 1 && Next(m.(queue := []), m.queue[0]).Some?
  {
    RunKeepsInv(start, inputs);
    DrainKeepsInv(Run(start, inputs).m, 0);
  }

  /** How many events the machine may still post to itself before it waits for the next one. */
  function Rank(m: Machine): nat {
    if m.queue == [] then 0
    else if m.queue[0] == RestartEvent || m.queue[0] == RedirectedEvent then 3
    else if m.queue[0].RedirectEvent? then 4
    else if m.queue[0].ErrorEvent? && m.state != Error then 2
    else 1
  }

  /** Handling its own events comes to an end: none of them restarts a request for ever. */
  lemma OwnEventsRunOut(start: Machine, inputs: seq<Input>)
    requires Fresh(start) && Run(start, inputs).m.queue != []
    ensures Rank(Step(Run(start, inputs), Drains).m) < Rank(Run(start, inputs).m)
  {
    RunKeepsInv(start, inputs);
    var w := Run(start, inputs);
    assert w.m.queue == [w.m.queue[0]] && w.m.queue[1..] == [];
    DrainLowersRank(w.m, w.now);
  }

  lemma DrainLowersRank(m: Machine, now: Time)
    requires QueueFits(m) && m.queue != []
    ensures Rank(Handle(m.(queue := []), m.queue[0], now)) < Rank(m)
  {
    var popped, e := m.(queue := []), m.queue[0];
    match m.state
    case Initializing => ErrorOrWork(popped, e, now);
    case ParseHeaders => if e.RedirectEvent? { FollowRedirectPosts(Move(popped, Redirect), e.redirectUrl); }
                         else { ErrorOrWork(popped, e, now); }
    case Redirect => if e == RedirectedEvent { InitializePosts(Move(popped, Initializing)); }
                     else { ErrorOrWork(popped, e, now); }
    case Error => if e == RestartEvent { InitializePosts(Move(popped, Initializing)); }
    case _ =>
  }

  /** An error that is no timeout is passed on once; a working state posts nothing. */
  lemma ErrorOrWork(m: Machine, e: Event, now: Time)
    requires m.queue == [] && m.state != Error && (m.state == Initializing || m.state == ParseHeaders || e.ErrorEvent?)
    requires Posts(m.state, e) && !e.RedirectEvent?
    ensures Rank(Handle(m, e, now)) <= if e.ErrorEvent? then 1 else 0
  {
  }

  /** One terminal call at most, and it is made on the way into a terminal state. */
  lemma OneTerminalCall(start: Machine, inputs: seq<Input>)
    requires Fresh(start)
    ensures var m := Run(start, inputs).m;
      && |m.callbacks| <= 1 && (|m.callbacks| == 1 <==> Terminal(m.state))
      && (m.callbacks == [CompleteCallback] <==> m.state == Complete)
  {
    RunKeepsInv(start, inputs);
  }

  lemma LastOfJoined<T>(s: seq<T>, t: seq<T>)
    requires t != []
    ensures (s + t)[..|s + t| - 1] == s + t[..|t| - 1] && (s + t)[|s + t| - 1] == t[|t| - 1]
  {
  }

  lemma RunGrows(start: Machine, inputs: seq<Input>, more: seq<Input>)
    requires more != []
    ensures var n := |more| - 1; Run(start, inputs + more) == Step(Run(start, inputs + more[..n]), more[n])
  {
    LastOfJoined(inputs, more);
    assert inputs + more != [];
  }

  lemma TerminalStays(w: World, input: Input)
    requires Inv(w.m) && Terminal(w.m.state)
    ensures Step(w, input).m == w.m
  {
  }

  /** A terminal state is never left, and nothing is called or queued in it any more. */
  lemma {:induction false} TerminalIsForever(start: Machine, inputs: seq<Input>, more: seq<Input>)
    requires Fresh(start) && Terminal(Run(start, inputs).m.state)
    ensures Run(start, inputs + more).m == Run(start, inputs).m
  {
    if more == [] {
      assert inputs + more == inputs;
    } else {
      var n := |more| - 1;
      TerminalIsForever(start, inputs, more[..n]);
      RunKeepsInv(start, inputs);
      RunGrows(start, inputs, more);
      TerminalStays(Run(start, inputs + more[..n]), more[n]);
    }
  }

  /** An error ends the request, unless it is an I/O timeout before the deadline, which starts it anew
      at once: there is no third way, and no restart once the deadline has passed. */
  lemma ErrorRestartsExactly(start: Machine, inputs: seq<Input>, code: Code)
    requires Fresh(start) && Working(Run(start, inputs).m.state) && Run(start, inputs).m.queue == []
    ensures var w := Run(start, inputs);
      var after := Step(Step(w, Arrives(ErrorEvent(code))), Drains).m;
      && (after.state == Initializing <==> code == IoTimeout && w.now < w.m.created + 1000 * w.m.timeoutSeconds)
      && (after.state == FinalError <==> !(code == IoTimeout && w.now < w.m.created + 1000 * w.m.timeoutSeconds))
      && (after.state == FinalError ==> after.callbacks == [ErrorCallback(code)])
  {
    RunKeepsInv(start, inputs);
    ErrorTakesItsCourse(Run(start, inputs), code);
  }

  lemma ErrorTakesItsCourse(w: World, code: Code)
    requires w.m.queue == [] && w.m.callbacks == [] && Working(w.m.state)
    ensures var after := Step(Step(w, Arrives(ErrorEvent(code))), Drains).m;
      && (after.state == Initializing <==> code == IoTimeout && w.now < w.m.created + 1000 * w.m.timeoutSeconds)
      && (after.state == FinalError <==> !(code == IoTimeout && w.now < w.m.created + 1000 * w.m.timeoutSeconds))
      && (after.state == FinalError ==> after.callbacks == [ErrorCallback(code)])
  {
    assert Step(w, Arrives(ErrorEvent(code))) == World(Handle(w.m, ErrorEvent(code), w.now), w.now);
    ErrorIsAnswered(w.m, code, w.now);
    AnswerIsFollowed(Handle(w.m, ErrorEvent(code), w.now), code, w.now);
  }

  lemma ErrorIsAnswered(m: Machine, code: Code, now: Time)
    requires m.queue == [] && m.callbacks == [] && Working(m.state)
    ensures var m' := Handle(m, ErrorEvent(code), now);
      && m' == RestartOrFail(Move(m, Error), code, now) && m'.state == Error && m'.callbacks == []
      && m'.queue == [if code == IoTimeout && now < Deadline(m) then RestartEvent else ErrorEvent(code)]
  {
    assert Next(m, ErrorEvent(code)) == Some(Error);
  }

  lemma AnswerIsFollowed(m: Machine, code: Code, now: Time)
    requires m.state == Error && m.callbacks == [] && m.queue in {[RestartEvent], [ErrorEvent(code)]}
    ensures var m' := Step(World(m, now), Drains).m;
      && (m.queue == [RestartEvent] ==> m'.state == Initializing)
      && (m.queue == [ErrorEvent(code)] ==> m'.state == FinalError && m'.callbacks == [ErrorCallback(code)])
  {
    var popped := m.(queue := []);
    assert m.queue[1..] == [];
    if m.queue == [RestartEvent] { InitializePosts(Move(popped, Initializing)); }
  }

  /** Once started, a request keeps its policy, its post and its timeout. */
  ghost predicate SameConfig(m: Machine, m': Machine) {
    && m'.policy == m.policy && m'.hasPost == m.hasPost && m'.timeoutSeconds == m.timeoutSeconds
    && m'.httpProxy == m.httpProxy && m'.httpsProxy == m.httpsProxy && m'.created == m.created
  }

  lemma InitializeKeepsConfig(m: Machine)
    ensures SameConfig(m, Initialize(m)) && Initialize(m).state == m.state && Initialize(m).restarts == m.restarts
  {
  }

  lemma RedirectKeepsConfig(m: Machine, target: string)
    ensures SameConfig(m, FollowRedirect(m, target)) && FollowRedirect(m, target).state == m.state
    ensures FollowRedirect(m, target).restarts == m.restarts
  {
  }

  lemma ParseKeepsConfig(m: Machine, status: nat, location: Option<string>)
    ensures SameConfig(m, ParseResponse(m, status, location)) && ParseResponse(m, status, location).state == m.state
    ensures ParseResponse(m, status, location).restarts == m.restarts
  {
  }

  lemma ErrorKeepsConfig(m: Machine, code: Code, now: Time)
    ensures SameConfig(m, RestartOrFail(m, code, now)) && RestartOrFail(m, code, now).state == m.state
  {
  }

  lemma EnterKeepsConfig(m: Machine, s: State, e: Event, now: Time)
    ensures SameConfig(m, Enter(m, s, e, now)) && Enter(m, s, e, now).state == s
  {
    var m' := Move(m, s);
    match s
    case Initializing => InitializeKeepsConfig(m');
    case Redirect => if e.RedirectEvent? { RedirectKeepsConfig(m', e.redirectUrl); }
    case ParseHeaders => if e.HeadersReadEvent? { ParseKeepsConfig(m', e.status, e.location); }
    case Error => if e.ErrorEvent? { ErrorKeepsConfig(m', e.code, now); }
    case _ =>
  }

  lemma HandleKeepsConfig(m: Machine, e: Event, now: Time)
    requires m.state != Unstarted
    ensures SameConfig(m, Handle(m, e, now)) && Handle(m, e, now).state != Unstarted
  {
    if Next(m, e).Some? {
      NeverBack(m, e);
      EnterKeepsConfig(m, Next(m, e).value, e, now);
    }
  }

  lemma NeverBack(m: Machine, e: Event)
    requires m.state != Unstarted && Next(m, e).Some?
    ensures Next(m, e).value != Unstarted && !e.ConfigEvent?
  {
  }

  lemma ErrorRestarts(m: Machine, code: Code, now: Time)
    ensures RestartOrFail(m, code, now).restarts
         == if code == IoTimeout && now < Deadline(m) then m.restarts + [Restart(now, IoTimeout)] else m.restarts
  {
  }

  /** The only place that issues a restart. */
  lemma EnterRestarts(m: Machine, s: State, e: Event, now: Time)
    ensures var m' := Enter(m, s, e, now);
      m'.restarts == m.restarts
      || (m'.restarts == m.restarts + [Restart(now, IoTimeout)] && now < Deadline(m) && s == Error)
  {
    var m' := Move(m, s);
    match s
    case Initializing => InitializeKeepsConfig(m');
    case Redirect => if e.RedirectEvent? { RedirectKeepsConfig(m', e.redirectUrl); }
    case ParseHeaders => if e.HeadersReadEvent? { ParseKeepsConfig(m', e.status, e.location); }
    case Error => if e.ErrorEvent? { ErrorRestarts(m', e.code, now); }
    case _ =>
  }

  lemma HandleRestarts(m: Machine, e: Event, now: Time)
    ensures var m' := Handle(m, e, now);
      m'.restarts == m.restarts
      || (m'.restarts == m.restarts + [Restart(now, IoTimeout)] && now < Deadline(m) && m.state != Unstarted)
  {
    if Next(m, e).Some? && !e.ConfigEvent? { EnterRestarts(m, Next(m, e).value, e, now); }
  }

  lemma HandleKeepsRestarts(m: Machine, e: Event, now: Time)
    requires RestartsFit(m, now)
    ensures RestartsFit(Handle(m, e, now), now)
  {
    HandleRestarts(m, e, now);
    if m.state != Unstarted { HandleKeepsConfig(m, e, now); }
  }

  lemma StepKeepsRestarts(w: World, input: Input)
    requires RestartsFit(w.m, w.now)
    ensures var w' := Step(w, input); RestartsFit(w'.m, w'.now)
  {
    match input
    case Arrives(e) => HandleKeepsRestarts(w.m, e, w.now);
    case Drains => if w.m.queue != [] { HandleKeepsRestarts(w.m.(queue := w.m.queue[1..]), w.m.queue[0], w.now); }
    case Elapses(_) =>
  }

  /** No RestartEvent is issued at or after the deadline, and none for anything but an I/O timeout. */
  lemma {:induction false} NoLateRestart(start: Machine, inputs: seq<Input>)
    requires Fresh(start)
    ensures var w := Run(start, inputs); RestartsFit(w.m, w.now)
  {
    if inputs != [] {
      NoLateRestart(start, inputs[..|inputs| - 1]);
      StepKeepsRestarts(Run(start, inputs[..|inputs| - 1]), inputs[|inputs| - 1]);
    }
  }

  // ---- redirects do not drop SSL against the policy

  /** A started request that uses SSL is not about to open a plain URL. */
  ghost predicate Encrypted(m: Machine) {
    m.state != Unstarted && m.isSsl && m.parsedUrl.Some? && m.parsedUrl.value.scheme != "http"
  }

  lemma InitializeKeepsEncrypted(m: Machine)
    requires Encrypted(m)
    ensures Encrypted(Initialize(m))
  {
  }

  lemma RedirectKeepsEncrypted(m: Machine, target: string)
    requires Encrypted(m) && m.policy == DenyDowngrade
    ensures Encrypted(FollowRedirect(m, target))
  {
  }

  lemma EnterKeepsEncrypted(m: Machine, s: State, e: Event, now: Time)
    requires Encrypted(m) && m.policy == DenyDowngrade && s != Unstarted
    ensures Encrypted(Enter(m, s, e, now))
  {
    var m' := Move(m, s);
    match s
    case Initializing => InitializeKeepsEncrypted(m');
    case Redirect => if e.RedirectEvent? { RedirectKeepsEncrypted(m', e.redirectUrl); }
    case _ =>
  }

  lemma HandleKeepsEncrypted(m: Machine, e: Event, now: Time)
    requires Encrypted(m) && m.policy == DenyDowngrade
    ensures Encrypted(Handle(m, e, now))
  {
    if Next(m, e).Some? {
      NeverBack(m, e);
      EnterKeepsEncrypted(m, Next(m, e).value, e, now);
    }
  }

  lemma StepKeepsEncrypted(w: World, input: Input)
    requires Encrypted(w.m) && w.m.policy == DenyDowngrade
    ensures Encrypted(Step(w, input).m) && Step(w, input).m.policy == DenyDowngrade
  {
    match input
    case Arrives(e) =>
      HandleKeepsEncrypted(w.m, e, w.now);
      HandleKeepsConfig(w.m, e, w.now);
    case Drains =>
      if w.m.queue != [] {
        var popped := w.m.(queue := w.m.queue[1..]);
        HandleKeepsEncrypted(popped, w.m.queue[0], w.now);
        HandleKeepsConfig(popped, w.m.queue[0], w.now);
      }
    case Elapses(_) =>
  }

  /** Under DenyDowngrade a request that has once gone over SSL never goes without it, through any
      number of redirects and restarts. */
  lemma {:induction false} NeverDowngraded(start: Machine, inputs: seq<Input>, more: seq<Input>)
    requires Fresh(start) && Run(start, inputs).m.policy == DenyDowngrade
    requires Working(Run(start, inputs).m.state) && Run(start, inputs).m.isSsl
    ensures var m := Run(start, inputs + more).m; Encrypted(m) && m.policy == DenyDowngrade
  {
    if more == [] {
      assert inputs + more == inputs;
      RunKeepsInv(start, inputs);
    } else {
      var n := |more| - 1;
      NeverDowngraded(start, inputs, more[..n]);
      RunGrows(start, inputs, more);
      StepKeepsEncrypted(Run(start, inputs + more[..n]), more[n]);
    }
  }

  // ---- configuration

  /** The last policy and the last timeout that were set, if any. */
  function LastPolicy(configs: seq<Config>, before: Policy): Policy {
    if configs == [] then before
    else
      var n := |configs| - 1;
      if configs[n].ConfigPolicy? then configs[n].policy else LastPolicy(configs[..n], before)
  }

  function LastTimeout(configs: seq<Config>, before: nat): nat {
    if configs == [] then before
    else
      var n := |configs| - 1;
      if configs[n].ConfigTimeout? then configs[n].seconds else LastTimeout(configs[..n], before)
  }

  function Configuring(configs: seq<Config>): seq<Input> {
    seq(|configs|, i requires 0 <= i < |configs| => Arrives(ConfigEvent(configs[i])))
  }

  /** What is set last counts, for each kind by itself. */
  lemma {:induction false} LastConfigCounts(start: Machine, configs: seq<Config>)
    requires Fresh(start)
    ensures var m := Run(start, Configuring(configs)).m;
      && m.state == Unstarted && m.queue == []
      && m.policy == LastPolicy(configs, start.policy)
      && m.timeoutSeconds == LastTimeout(configs, start.timeoutSeconds)
      && (m.hasPost <==> start.hasPost || ConfigPost in configs)
  {
    if configs != [] {
      var n := |configs| - 1;
      LastConfigCounts(start, configs[..n]);
      ConfiguringEnds(configs);
      var w := Run(start, Configuring(configs[..n]));
      assert Run(start, Configuring(configs)) == Step(w, Arrives(ConfigEvent(configs[n])));
      OneConfig(w, configs[n]);
      OneMore(configs);
    }
  }

  lemma ConfiguringEnds(configs: seq<Config>)
    requires configs != []
    ensures var n, inputs := |configs| - 1, Configuring(configs);
      inputs != [] && inputs[..|inputs| - 1] == Configuring(configs[..n])
      && inputs[|inputs| - 1] == Arrives(ConfigEvent(configs[n]))
  {
  }

  lemma OneConfig(w: World, config: Config)
    requires w.m.state == Unstarted && w.m.queue == []
    ensures var m, m' := w.m, Step(w, Arrives(ConfigEvent(config))).m;
      && m'.state == Unstarted && m'.queue == []
      && m'.policy == (if config.ConfigPolicy? then config.policy else m.policy)
      && m'.timeoutSeconds == (if config.ConfigTimeout? then config.seconds else m.timeoutSeconds)
      && m'.hasPost == (config.ConfigPost? || m.hasPost)
  {
    assert Next(w.m, ConfigEvent(config)) == Some(Unstarted);
    assert Step(w, Arrives(ConfigEvent(config))).m == Configured(w.m, config);
  }

  lemma OneMore(configs: seq<Config>)
    requires configs != []
    ensures var n := |configs| - 1; ConfigPost in configs <==> ConfigPost in configs[..n] || configs[n] == ConfigPost
  {
    assert configs == configs[..|configs| - 1] + [configs[|configs| - 1]];
  }

  lemma StepKeepsConfig(w: World, input: Input)
    requires w.m.state != Unstarted
    ensures SameConfig(w.m, Step(w, input).m) && Step(w, input).m.state != Unstarted
  {
    match input
    case Arrives(e) => HandleKeepsConfig(w.m, e, w.now);
    case Drains =>
      if w.m.queue != [] { HandleKeepsConfig(w.m.(queue := w.m.queue[1..]), w.m.queue[0], w.now); }
    case Elapses(_) =>
  }

  /** And once the request has started, nothing changes it. */
  lemma {:induction false} ConfigStays(start: Machine, inputs: seq<Input>, more: seq<Input>)
    requires Run(start, inputs).m.state != Unstarted
    ensures SameConfig(Run(start, inputs).m, Run(start, inputs + more).m)
    ensures Run(start, inputs + more).m.state != Unstarted
  {
    if more == [] {
      assert inputs + more == inputs;
    } else {
      var n := |more| - 1;
      ConfigStays(start, inputs, more[..n]);
      RunGrows(start, inputs, more);
      StepKeepsConfig(Run(start, inputs + more[..n]), more[n]);
    }
  }
}
