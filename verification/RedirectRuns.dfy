/** Where a response leads: state_parse_headers.hpp and state_redirect.hpp together, over the runs of one
    request. */
module RedirectRuns {
  import opened Basics
  import opened HttpRequest
  import opened HttpRequestRuns
  import Url

  /** The response names a URL to go to. */
  predicate NamesUrl(status: nat, location: Option<string>) {
    (status == 301 || status == 302) && location.Some? && Url.Parsed(location.value).Valid?
  }

  /** The policy lets the request go there. */
  predicate MayGo(m: Machine, scheme: string) {
    m.policy == Allow || (m.policy == DenyDowngrade && !(m.isSsl && scheme == "http"))
  }

  /** The machine after the headers and `n` events of its own. */
  function Drained(w: World, status: nat, location: Option<string>, n: nat): Machine {
    if n == 0 then Step(w, Arrives(HeadersReadEvent(status, location))).m
    else Step(World(Drained(w, status, location, n - 1), w.now), Drains).m
  }

  /** Waiting in ReadHeaders with nothing of its own to handle. */
  predicate Reading(m: Machine) { m.state == ReadHeaders && m.queue == [] && m.callbacks == [] }

  /** The machine with the headers read, but for the event it posts then. */
  function AtHeaders(m: Machine): Machine { m.(state := ParseHeaders, trail := m.trail + [ParseHeaders]) }

  function AtRedirect(m: Machine): Machine { Move(AtHeaders(m), Redirect) }

  lemma Parses(w: World, status: nat, location: Option<string>)
    requires Reading(w.m)
    ensures Drained(w, status, location, 0) == AtHeaders(w.m).(
      queue := [if status != 301 && status != 302 then HeadersParsedEvent
                else if NamesUrl(status, location) then RedirectEvent(location.value)
                else ErrorEvent(InvalidRedirectUrl)])
  {
  }

  lemma DrainsOne(m: Machine, e: Event, now: Time)
    requires m.queue == [e]
    ensures Step(World(m, now), Drains).m == Handle(m.(queue := []), e, now)
  {
    assert m.queue[1..] == [];
  }

  lemma HeadersHandled(m: Machine, target: string, now: Time)
    requires m.state == ParseHeaders && m.queue == []
    ensures Handle(m, HeadersParsedEvent, now) == Move(m, ReadContent)
    ensures Handle(m, RedirectEvent(target), now) == FollowRedirect(Move(m, Redirect), target)
  {
  }

  lemma GoesOn(w: World, status: nat, location: Option<string>)
    requires Reading(w.m) && status != 301 && status != 302
    ensures Drained(w, status, location, 1).state == ReadContent && Drained(w, status, location, 1).queue == []
  {
    Parses(w, status, location);
    DrainsOne(Drained(w, status, location, 0), HeadersParsedEvent, w.now);
    HeadersHandled(AtHeaders(w.m), "", w.now);
  }

  lemma ErrorPassedOn(m: Machine, code: Code, now: Time)
    requires m.queue == [ErrorEvent(code)] && code != IoTimeout && (Working(m.state) || m.state == Redirect)
    ensures var m' := Step(World(m, now), Drains).m;
      m'.state == Error && m'.queue == [ErrorEvent(code)] && m'.callbacks == m.callbacks
  {
    DrainsOne(m, ErrorEvent(code), now);
    assert Step(World(m, now), Drains).m == RestartOrFail(Move(m.(queue := []), Error), code, now);
  }

  lemma ErrorCalledBack(m: Machine, code: Code, now: Time)
    requires m.state == Error && m.queue == [ErrorEvent(code)] && m.callbacks == []
    ensures var m' := Step(World(m, now), Drains).m;
      m'.state == FinalError && m'.callbacks == [ErrorCallback(code)] && m'.queue == []
  {
    DrainsOne(m, ErrorEvent(code), now);
  }

  /** Any error but an I/O timeout ends the request with that error. */
  lemma ErrorEnds(m: Machine, code: Code, now: Time)
    requires m.queue == [ErrorEvent(code)] && m.callbacks == [] && code != IoTimeout
    requires Working(m.state) || m.state == Redirect
    ensures var m' := Step(World(m, now), Drains).m;
      var m'' := Step(World(m', now), Drains).m;
      m'.state == Error && m''.state == FinalError && m''.callbacks == [ErrorCallback(code)] && m''.queue == []
  {
    ErrorPassedOn(m, code, now);
    ErrorCalledBack(Step(World(m, now), Drains).m, code, now);
  }

  lemma NoUrlEnds(w: World, status: nat, location: Option<string>)
    requires Reading(w.m) && (status == 301 || status == 302) && !NamesUrl(status, location)
    ensures var m := Drained(w, status, location, 2);
      m.state == FinalError && m.callbacks == [ErrorCallback(InvalidRedirectUrl)] && m.queue == []
  {
    Parses(w, status, location);
    ErrorEnds(Drained(w, status, location, 0), InvalidRedirectUrl, w.now);
  }

  lemma FollowsOrNot(m: Machine, target: string)
    requires m.queue == [] && Url.Parsed(target).Valid?
    ensures var url := Url.Parsed(target).url;
      FollowRedirect(m, target)
      == if MayGo(m, url.scheme)
         then m.(parsedUrl := Some(url), url := target, hasSocket := false, queue := [RedirectedEvent])
         else m.(queue := [ErrorEvent(RedirectPermissionDenied)])
  {
  }

  lemma FollowsUrl(w: World, status: nat, location: Option<string>)
    requires Reading(w.m) && NamesUrl(status, location)
    ensures Drained(w, status, location, 1) == FollowRedirect(AtRedirect(w.m), location.value)
  {
    Parses(w, status, location);
    var m := Drained(w, status, location, 0);
    DrainsOne(m, RedirectEvent(location.value), w.now);
    assert m.(queue := []) == AtHeaders(w.m);
    HeadersHandled(AtHeaders(w.m), location.value, w.now);
  }

  /** The scheme decides about SSL, and any other scheme is an error. */
  predicate Opening(m: Machine) {
    m.parsedUrl.Some?
    && if m.parsedUrl.value.scheme in {"http", "https"}
       then m.queue == [InitializedEvent] && m.hasSocket && m.isSsl == (m.parsedUrl.value.scheme == "https")
       else m.queue == [ErrorEvent(InvalidUrl)]
  }

  lemma Opens(m: Machine, now: Time)
    requires m.state == Redirect && m.queue == [RedirectedEvent] && m.parsedUrl.Some?
    ensures var m' := Step(World(m, now), Drains).m;
      && m'.state == Initializing && m'.url == m.url && m'.parsedUrl == m.parsedUrl && m'.callbacks == m.callbacks
      && Opening(m')
  {
    DrainsOne(m, RedirectedEvent, now);
    assert Step(World(m, now), Drains).m == Initialize(Move(m.(queue := []), Initializing));
  }

  lemma RunIsReading(start: Machine, inputs: seq<Input>)
    requires Fresh(start) && Run(start, inputs).m.state == ReadHeaders
    ensures Reading(Run(start, inputs).m)
  {
    RunKeepsInv(start, inputs);
  }

  /** In every run, with the headers of a response read: the request goes to another URL if and only if the
      status is 301 or 302, the location is a URL, and the policy lets it go there; then that URL is what it
      opens. Any other status leads on to the content, and what remains ends the request with the error
      that says why. */
  lemma ResponseLeads(start: Machine, inputs: seq<Input>, status: nat, location: Option<string>)
    requires Fresh(start) && Run(start, inputs).m.state == ReadHeaders
    ensures var w := Run(start, inputs);
      var m := Drained(w, status, location, 2);
      && (m.state == Initializing
          <==> NamesUrl(status, location) && MayGo(w.m, Url.Parsed(location.value).url.scheme))
      && (m.state == Initializing ==>
            m.url == location.value && m.parsedUrl == Some(Url.Parsed(location.value).url) && Opening(m))
      && (m.state == ReadContent <==> status != 301 && status != 302)
      && (m.state !in {Initializing, ReadContent} ==>
            Drained(w, status, location, 3).state == FinalError
            && Drained(w, status, location, 3).callbacks
               == [ErrorCallback(if NamesUrl(status, location) then RedirectPermissionDenied else InvalidRedirectUrl)])
  {
    var w := Run(start, inputs);
    RunIsReading(start, inputs);
    if status != 301 && status != 302 {
      GoesOn(w, status, location);
    } else if !NamesUrl(status, location) {
      NoUrlEnds(w, status, location);
    } else {
      FollowsUrl(w, status, location);
      FollowsOrNot(AtRedirect(w.m), location.value);
      if MayGo(w.m, Url.Parsed(location.value).url.scheme) { Opens(Drained(w, status, location, 1), w.now); }
      else { ErrorEnds(Drained(w, status, location, 1), RedirectPermissionDenied, w.now); }
    }
  }
}
