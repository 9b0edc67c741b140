/** The states, events and transition table of one HTTP request
    (src/mediafire_sdk/http/detail/http_request_state_machine.hpp), with the entry actions of its
    states that decide something. Entry actions that only start I/O leave no trace here: their
    completions arrive as events. */
module HttpRequest {
  import opened Basics
  import Url

  datatype State =
    | Unstarted | Initializing | Resolve | Connect | ProxyConnect | SSLHandshake | SendHeader | SendPost
    | ReadHeaders | ParseHeaders | Redirect | ReadContent | Error | FinalError | Complete

  datatype Code = IoTimeout | InvalidUrl | InvalidRedirectUrl | RedirectPermissionDenied | OtherCode(code: int)

  datatype Policy = Allow | DenyDowngrade | Deny

  datatype Config = ConfigPolicy(policy: Policy) | ConfigPost | ConfigTimeout(seconds: nat)

  datatype Event =
    | ConfigEvent(config: Config)
    | StartEvent
    | ErrorEvent(code: Code)
    | RestartEvent
    | InitializedEvent
    | ResolvedEvent
    | ConnectedEvent
    | HandshakeEvent
    | HeadersWrittenEvent
    | PostSent
    | HeadersReadEvent(status: nat, location: Option<string>)
    | RedirectEvent(redirectUrl: string)
    | RedirectedEvent
    | HeadersParsedEvent
    | ContentReadEvent

  datatype Proxy = Proxy(host: string, username: string)

  datatype Callback = ErrorCallback(code: Code) | CompleteCallback

  datatype Restart = Restart(at: Time, code: Code)

  /** `queue` holds the events the machine has posted to itself and not handled yet. `callbacks` are
      the terminal calls made. `trail` and `restarts` are history: the states since the last time
      Initializing was entered, and every RestartEvent that was issued. */
  datatype Machine = Machine(
    state: State,
    isSsl: bool,
    url: string,
    parsedUrl: Option<Url.Url>,
    hasSocket: bool,
    policy: Policy,
    hasPost: bool,
    timeoutSeconds: nat,
    httpProxy: Option<Proxy>,
    httpsProxy: Option<Proxy>,
    created: Time,
    queue: seq<Event>,
    callbacks: seq<Callback>,
    trail: seq<State>,
    restarts: seq<Restart>)

  predicate Terminal(s: State) { s == FinalError || s == Complete }

  function CurrentProxy(m: Machine): Option<Proxy> { if m.isSsl then m.httpsProxy else m.httpProxy }

  /** A proxy is asked to connect if it wants a login, and always for SSL. */
  predicate ProxyConnectRequired(m: Machine) {
    CurrentProxy(m).Some? && (CurrentProxy(m).value.username != "" || m.isSsl)
  }

  /** The transition table; None where it has no row. */
  function Next(m: Machine, e: Event): Option<State> {
    match m.state
    case Unstarted =>
      if e.ConfigEvent? then Some(Unstarted) else if e == StartEvent then Some(Initializing) else None
    case Initializing => OnSuccess(e, InitializedEvent, Resolve)
    case Resolve => OnSuccess(e, ResolvedEvent, Connect)
    case Connect =>
      OnSuccess(e, ConnectedEvent,
                if ProxyConnectRequired(m) then ProxyConnect else if m.isSsl then SSLHandshake else SendHeader)
    case ProxyConnect => OnSuccess(e, ConnectedEvent, if m.isSsl then SSLHandshake else SendHeader)
    case SSLHandshake => OnSuccess(e, HandshakeEvent, SendHeader)
    case SendHeader => OnSuccess(e, HeadersWrittenEvent, if m.hasPost then SendPost else ReadHeaders)
    case SendPost => OnSuccess(e, PostSent, ReadHeaders)
    case ReadHeaders =>
      if e.HeadersReadEvent? then Some(ParseHeaders) else if e.ErrorEvent? then Some(Error) else None
    case ParseHeaders =>
      if e.RedirectEvent? then Some(Redirect) else OnSuccess(e, HeadersParsedEvent, ReadContent)
    case Redirect => OnSuccess(e, RedirectedEvent, Initializing)
    case ReadContent => OnSuccess(e, ContentReadEvent, Complete)
    case Error =>
      if e == RestartEvent then Some(Initializing) else if e.ErrorEvent? then Some(FinalError) else None
    case FinalError => None
    case Complete => None
  }

  /** The shape of most rows: one event leads on, an error leads to Error. */
  function OnSuccess(e: Event, success: Event, next: State): Option<State> {
    if e == success then Some(next) else if e.ErrorEvent? then Some(Error) else None
  }

  function Post(m: Machine, e: Event): Machine { m.(queue := m.queue + [e]) }

  /** The URL is parsed unless a redirect brought one. */
  function UrlToOpen(m: Machine): Option<Url.Url> {
    if m.parsedUrl.Some? then m.parsedUrl
    else if Url.Parsed(m.url).Invalid? then None
    else Some(Url.Parsed(m.url).url)
  }

  /** Initializing: the scheme decides about SSL. */
  function Initialize(m: Machine): Machine {
    var m' := m.(hasSocket := false, parsedUrl := UrlToOpen(m));
    if m'.parsedUrl.None? then Post(m', ErrorEvent(InvalidUrl))
    else if m'.parsedUrl.value.scheme == "http" then Post(m'.(isSsl := false, hasSocket := true), InitializedEvent)
    else if m'.parsedUrl.value.scheme == "https" then Post(m'.(isSsl := true, hasSocket := true), InitializedEvent)
    else Post(m', ErrorEvent(InvalidUrl))
  }

  /** ParseHeaders: the two redirect status codes need a location that is a URL. */
  function ParseResponse(m: Machine, status: nat, location: Option<string>): Machine {
    if status != 301 && status != 302 then Post(m, HeadersParsedEvent)
    else if location.None? || Url.Parsed(location.value).Invalid? then Post(m, ErrorEvent(InvalidRedirectUrl))
    else Post(m, RedirectEvent(location.value))
  }

  predicate RedirectAllowed(m: Machine, scheme: string) {
    m.policy != Deny && !(m.policy == DenyDowngrade && m.isSsl && scheme == "http")
  }

  /** What becomes of a redirect that parses like this: the policy may forbid it. */
  function Followed(m: Machine, target: string, parsed: Url.Result): Machine {
    if parsed.Invalid? then Post(m, ErrorEvent(InvalidRedirectUrl))
    else if !RedirectAllowed(m, parsed.url.scheme) then Post(m, ErrorEvent(RedirectPermissionDenied))
    else Post(m.(parsedUrl := Some(parsed.url), url := target, hasSocket := false), RedirectedEvent)
  }

  function FollowRedirect(m: Machine, target: string): Machine { Followed(m, target, Url.Parsed(target)) }

  function Deadline(m: Machine): Time { m.created + 1000 * m.timeoutSeconds }

  /** Error: an I/O timeout before the deadline restarts everything, any other error is passed on. */
  function RestartOrFail(m: Machine, code: Code, now: Time): Machine {
    var m' := m.(hasSocket := false);
    if code == IoTimeout && now < Deadline(m)
    then Post(m', RestartEvent).(restarts := m.restarts + [Restart(now, code)])
    else Post(m', ErrorEvent(code))
  }

  function Finish(m: Machine, callback: Callback): Machine {
    m.(hasSocket := false, callbacks := m.callbacks + [callback])
  }

  function Move(m: Machine, s: State): Machine {
    m.(state := s, trail := if s == Initializing then [s] else m.trail + [s])
  }

  function Configured(m: Machine, config: Config): Machine {
    match config
    case ConfigPolicy(policy) => m.(policy := policy)
    case ConfigPost => m.(hasPost := true)
    case ConfigTimeout(seconds) => m.(timeoutSeconds := seconds)
  }

  /** Entering `s` because of `e`. */
  function Enter(m: Machine, s: State, e: Event, now: Time): Machine {
    var m' := Move(m, s);
    match s
    case Initializing => Initialize(m')
    case ParseHeaders => if e.HeadersReadEvent? then ParseResponse(m', e.status, e.location) else m'
    case Redirect => if e.RedirectEvent? then FollowRedirect(m', e.redirectUrl) else m'
    case Error => if e.ErrorEvent? then RestartOrFail(m', e.code, now) else m'
    case FinalError => if e.ErrorEvent? then Finish(m', ErrorCallback(e.code)) else m'
    case Complete => Finish(m', CompleteCallback)
    case _ => m'
  }

  /** One event, handled to the end of the entry action it leads to. An event without a row changes
      nothing. */
  function Handle(m: Machine, e: Event, now: Time): Machine {
    var next := Next(m, e);
    if next.None? then m
    else if e.ConfigEvent? then Configured(m, e.config)
    else Enter(m, next.value, e, now)
  }
}
