/** The class behind module HttpRequest: HttpRequestMachine_ and the entry actions of its states. */
module HttpRequestMachine {
  import opened Basics
  import opened HttpRequest
  import Url

  class HttpRequestMachine {
    var state: State
    var isSsl: bool
    var url: string
    var parsedUrl: Option<Url.Url>
    var hasSocket: bool
    var policy: Policy
    var hasPost: bool
    var timeoutSeconds: nat
    const httpProxy: Option<Proxy>
    const httpsProxy: Option<Proxy>
    const created: Time
    var queue: seq<Event>
    var callbacks: seq<Callback>
    ghost var trail: seq<State>
    ghost var restarts: seq<Restart>

    ghost function View(): Machine
      reads this
    {
      Machine(state, isSsl, url, parsedUrl, hasSocket, policy, hasPost, timeoutSeconds,
              httpProxy, httpsProxy, created, queue, callbacks, trail, restarts)
    }

    /** The source leaves is_ssl_ without a value until Initializing sets it. */
    constructor (url: string, policy: Policy, httpProxy: Option<Proxy>, httpsProxy: Option<Proxy>,
                 isSsl: bool, now: Time)
      ensures View() == Machine(Unstarted, isSsl, url, None, false, policy, false, 60,
                                httpProxy, httpsProxy, now, [], [], [], [])
    {
      this.state, this.isSsl, this.url, this.parsedUrl := Unstarted, isSsl, url, None;
      this.hasSocket, this.policy, this.hasPost, this.timeoutSeconds := false, policy, false, 60;
      this.httpProxy, this.httpsProxy, this.created := httpProxy, httpsProxy, now;
      this.queue, this.callbacks, this.trail, this.restarts := [], [], [], [];
    }

    /** ProcessEvent from inside a transition: the event waits until the transition is over. */
    method ProcessEvent(e: Event)
      modifies this`queue
      ensures queue == old(queue) + [e]
    {
      queue := queue + [e];
    }

    method Disconnect()
      modifies this`hasSocket
      ensures !hasSocket
    {
      hasSocket := false;
    }

    method OpenSocket(ssl: bool)
      modifies this
      ensures View() == Post(old(View()).(isSsl := ssl, hasSocket := true), InitializedEvent)
    {
      isSsl := ssl;
      hasSocket := true;
      ProcessEvent(InitializedEvent);
    }

    /** Parse the URL unless a redirect passed one in. */
    method ParseUrl() returns (valid: bool)
      modifies this`parsedUrl
      ensures parsedUrl == UrlToOpen(old(View())) && valid == parsedUrl.Some?
    {
      if parsedUrl.None? {
        var parsed := Url.Create(url);
        if parsed.Invalid? {
          return false;
        }
        parsedUrl := Some(parsed.url);
      }
      return true;
    }

    method DoInit()
      modifies this
      ensures View() == Initialize(old(View()))
    {
      Disconnect();
      var valid := ParseUrl();
      if !valid {
        ProcessEvent(ErrorEvent(InvalidUrl));
      } else if parsedUrl.value.scheme == "http" {
        OpenSocket(false);
      } else if parsedUrl.value.scheme == "https" {
        OpenSocket(true);
      } else {
        ProcessEvent(ErrorEvent(InvalidUrl));
      }
    }

    method EnterParseHeaders(status: nat, location: Option<string>)
      modifies this`queue
      ensures View() == ParseResponse(old(View()), status, location)
    {
      if status == 301 || status == 302 {
        if location.None? {
          ProcessEvent(ErrorEvent(InvalidRedirectUrl));
        } else {
          var parsed := Url.Create(location.value);
          if parsed.Invalid? {
            ProcessEvent(ErrorEvent(InvalidRedirectUrl));
          } else {
            ProcessEvent(RedirectEvent(location.value));
          }
        }
      } else {
        ProcessEvent(HeadersParsedEvent);
      }
    }

    /** Whether the policy lets a redirect go on to a URL with this scheme. */
    method Allowed(scheme: string) returns (allowed: bool)
      ensures allowed == RedirectAllowed(View(), scheme)
    {
      if policy == Deny {
        return false;
      }
      return !(policy == DenyDowngrade && isSsl && scheme == "http");
    }

    method Follow(target: string, redirectUrl: Url.Result)
      modifies this
      ensures View() == Followed(old(View()), target, redirectUrl)
    {
      if redirectUrl.Invalid? {
        ProcessEvent(ErrorEvent(InvalidRedirectUrl));
        return;
      }
      var allowed := Allowed(redirectUrl.url.scheme);
      if !allowed {
        ProcessEvent(ErrorEvent(RedirectPermissionDenied));
      } else {
        parsedUrl := Some(redirectUrl.url);
        url := target;
        Disconnect();
        ProcessEvent(RedirectedEvent);
      }
    }

    method EnterRedirect(target: string)
      modifies this
      ensures View() == FollowRedirect(old(View()), target)
    {
      var redirectUrl := Url.Create(target);
      Follow(target, redirectUrl);
    }

    method EnterError(code: Code, now: Time)
      modifies this
      ensures View() == RestartOrFail(old(View()), code, now)
    {
      Disconnect();
      var timeout := created + 1000 * timeoutSeconds;
      if code == IoTimeout && now < timeout {
        ProcessEvent(RestartEvent);
        restarts := restarts + [Restart(now, code)];
      } else {
        ProcessEvent(ErrorEvent(code));
      }
    }

    method EnterFinal(callback: Callback)
      modifies this
      ensures View() == Finish(old(View()), callback)
    {
      Disconnect();
      callbacks := callbacks + [callback];
    }

    method Configure(config: Config)
      modifies this
      ensures View() == Configured(old(View()), config)
    {
      match config {
        case ConfigPolicy(p) => policy := p;
        case ConfigPost => hasPost := true;
        case ConfigTimeout(seconds) => timeoutSeconds := seconds;
      }
    }

    function UsingProxy(): bool
      reads this
    {
      (isSsl && httpsProxy.Some?) || (!isSsl && httpProxy.Some?)
    }

    /** The guards ProxyConnectRequired and IsSsl, for the rows that leave Connect. */
    method AfterConnect() returns (next: State)
      ensures Next(View().(state := Connect), ConnectedEvent) == Some(next)
    {
      if UsingProxy() {
        var proxy := if isSsl then httpsProxy.value else httpProxy.value;
        if proxy.username != "" || isSsl {
          return ProxyConnect;
        }
      }
      next := if isSsl then SSLHandshake else SendHeader;
    }

    /** The rows for an ErrorEvent. */
    method LookupError() returns (next: Option<State>)
      ensures forall code :: next == Next(View(), ErrorEvent(code))
    {
      match state {
        case Unstarted => next := None;
        case FinalError => next := None;
        case Complete => next := None;
        case Error => next := Some(FinalError);
        case _ => next := Some(State.Error);
      }
    }

    /** The rows for a ConnectedEvent. */
    method LookupConnected() returns (next: Option<State>)
      ensures next == Next(View(), ConnectedEvent)
    {
      next := None;
      if state == Connect {
        var after := AfterConnect();
        next := Some(after);
      } else if state == ProxyConnect {
        next := Some(if isSsl then SSLHandshake else SendHeader);
      }
    }

    /** The row of the transition table for `e`, with its guards. */
    method Lookup(e: Event) returns (next: Option<State>)
      ensures next == Next(View(), e)
    {
      next := None;
      match e {
        case ErrorEvent(_) => next := LookupError();
        case ConfigEvent(_) => if state == Unstarted { next := Some(Unstarted); }
        case StartEvent => if state == Unstarted { next := Some(Initializing); }
        case InitializedEvent => if state == Initializing { next := Some(Resolve); }
        case ResolvedEvent => if state == Resolve { next := Some(Connect); }
        case ConnectedEvent => next := LookupConnected();
        case HandshakeEvent => if state == SSLHandshake { next := Some(SendHeader); }
        case HeadersWrittenEvent => if state == SendHeader { next := Some(if hasPost then SendPost else ReadHeaders); }
        case PostSent => if state == SendPost { next := Some(ReadHeaders); }
        case HeadersReadEvent(_, _) => if state == ReadHeaders { next := Some(ParseHeaders); }
        case HeadersParsedEvent => if state == ParseHeaders { next := Some(ReadContent); }
        case RedirectEvent(_) => if state == ParseHeaders { next := Some(Redirect); }
        case RedirectedEvent => if state == Redirect { next := Some(Initializing); }
        case ContentReadEvent => if state == ReadContent { next := Some(Complete); }
        case RestartEvent => if state == Error { next := Some(Initializing); }
      }
    }

    /** The entry action of the state that `e` leads to. */
    method EnterState(next: State, e: Event, now: Time)
      modifies this
      ensures View() == Enter(old(View()), next, e, now)
    {
      state := next;
      trail := if state == Initializing then [state] else trail + [state];
      match state {
        case Initializing => DoInit();
        case ParseHeaders => if e.HeadersReadEvent? { EnterParseHeaders(e.status, e.location); }
        case Redirect => if e.RedirectEvent? { EnterRedirect(e.redirectUrl); }
        case Error => if e.ErrorEvent? { EnterError(e.code, now); }
        case FinalError => if e.ErrorEvent? { EnterFinal(ErrorCallback(e.code)); }
        case Complete => EnterFinal(CompleteCallback);
        case _ =>
      }
    }

    /** One event from the strand. */
    method HandleEvent(e: Event, now: Time)
      modifies this
      ensures View() == Handle(old(View()), e, now)
    {
      var next := Lookup(e);
      if next.Some? {
        if e.ConfigEvent? {
          Configure(e.config);
        } else {
          EnterState(next.value, e, now);
        }
      }
    }
  }
}
