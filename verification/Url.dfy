/** src/mediafire_sdk/http/url.cpp: taking a URL apart, and resolving a redirect against it
    (section 4.2 of RFC 3986). */
module Url {
  import opened Basics

  datatype Url = Url(
    fullUrl: string, scheme: string, user: string, pass: string, host: string, port: string,
    path: string, fullPath: string, query: string, fragment: string)

  /** InvalidUrl is thrown as Invalid. */
  datatype Result = Valid(url: Url) | Invalid

  /** std::search for one character: where it first is, or the end. */
  function Find(s: string, ch: char): (at: nat)
    ensures at <= |s| && ch !in s[..at]
    ensures at < |s| ==> s[at] == ch
  {
    if s == [] || s[0] == ch then 0 else 1 + Find(s[1..], ch)
  }

  function Before(s: string, ch: char): string {
    if s == [] || s[0] == ch then [] else [s[0]] + Before(s[1..], ch)
  }

  /** What follows the first `ch`; nothing if there is none. */
  function Behind(s: string, ch: char): string {
    if s == [] then [] else if s[0] == ch then s[1..] else Behind(s[1..], ch)
  }

  lemma {:induction false} Splits(s: string, ch: char)
    ensures Before(s, ch) == s[..Find(s, ch)] && (Find(s, ch) < |s| <==> ch in s)
    ensures Behind(s, ch) == if Find(s, ch) < |s| then s[Find(s, ch) + 1..] else []
  {
    if s != [] && s[0] != ch {
      Splits(s[1..], ch);
      assert s == [s[0]] + s[1..];
    }
  }

  predicate SeparatorAt(s: string, at: nat) {
    at + 3 <= |s| && s[at] == ':' && s[at + 1] == '/' && s[at + 2] == '/'
  }

  /** std::search for "://". */
  function FindSeparator(s: string): (at: nat)
    ensures at <= |s| && (at < |s| ==> SeparatorAt(s, at))
    ensures forall i | 0 <= i < at :: !SeparatorAt(s, i)
  {
    SearchFrom(s, 0)
  }

  function SearchFrom(s: string, from: nat): (at: nat)
    requires from <= |s|
    ensures from <= at <= |s| && (at < |s| ==> SeparatorAt(s, at))
    ensures forall i | from <= i < at :: !SeparatorAt(s, i)
    decreases |s| - from
  {
    if from == |s| || SeparatorAt(s, from) then from else SearchFrom(s, from + 1)
  }

  datatype Login = Login(user: string, pass: string)

  datatype HostPort = HostPort(host: string, port: string)

  /** Without a ':' the login is dropped. */
  function ParsedLogin(s: string): Login {
    Login(if ':' in s then Before(s, ':') else [], Behind(s, ':'))
  }

  function ParsedHostPort(s: string): HostPort { HostPort(Before(s, ':'), Behind(s, ':')) }

  datatype Authority = Authority(login: Login, hostPort: HostPort)

  function ParsedAuthority(s: string): Authority {
    if '@' in s
    then Authority(ParsedLogin(Before(s, '@')), ParsedHostPort(Behind(s, '@')))
    else Authority(Login([], []), ParsedHostPort(s))
  }

  datatype Path = Path(path: string, query: string, fragment: string)

  function ParsedPath(s: string): Path {
    if '?' in s
    then Path(Before(s, '?'), Before(Behind(s, '?'), '#'), Behind(Behind(s, '?'), '#'))
    else Path(Before(s, '#'), [], Behind(s, '#'))
  }

  /** What follows the scheme and its separator. */
  function Chunk(url: string): string
    requires FindSeparator(url) < |url|
  {
    url[FindSeparator(url) + 3..]
  }

  function AuthorityText(url: string): string
    requires FindSeparator(url) < |url|
  {
    Before(Chunk(url), '/')
  }

  /** The URL from the first '/' of the chunk on. */
  function PathText(url: string): string
    requires FindSeparator(url) < |url|
  {
    Chunk(url)[Find(Chunk(url), '/')..]
  }

  function Built(url: string, scheme: string, a: Authority, p: Path, fullPath: string): Url {
    Url(url, scheme, a.login.user, a.login.pass, a.hostPort.host, a.hostPort.port,
        p.path, fullPath, p.query, p.fragment)
  }

  function Parsed(url: string): Result {
    if FindSeparator(url) == |url| then Invalid
    else
      var scheme, a, text := url[..FindSeparator(url)], ParsedAuthority(AuthorityText(url)), PathText(url);
      Valid(if text == [] then Built(url, scheme, a, Path("/", [], []), "/")
            else Built(url, scheme, a, ParsedPath(text), text))
  }

  // ---- the parser with its iterators

  /** std::search for one character between two positions. */
  function Search(s: string, from: nat, to: nat, ch: char): (at: nat)
    requires from <= to <= |s|
    ensures from <= at <= to && (at < to ==> s[at] == ch)
  {
    from + Find(s[from..to], ch)
  }

  function Tail(s: string, from: nat): string
    requires from <= |s| + 1
  {
    if from <= |s| then s[from..] else []
  }

  lemma SplitsTail(s: string, from: nat, ch: char)
    requires from <= |s|
    ensures var at, t := Search(s, from, |s|, ch), s[from..];
      Before(t, ch) == s[from..at] && (at < |s| <==> ch in t) && Behind(t, ch) == Tail(s, at + 1)
  {
    assert s[from..|s|] == s[from..];
    SearchSplits(s, from, |s|, ch);
  }

  /** The fragment is looked for only behind the first '?', if there is one. */
  lemma PathSplits(url: string, start: nat)
    requires start < |url|
    ensures var end := |url|;
      var query, hash := Search(url, start, end, '?'), Search(url, start, end, '#');
      ParsedPath(url[start..])
      == if query < end
         then Path(url[start..query], Before(url[query + 1..], '#'), Behind(url[query + 1..], '#'))
         else Path(url[start..hash], [], Tail(url, hash + 1))
  {
    SplitsTail(url, start, '?');
    SplitsTail(url, start, '#');
  }

  lemma QuerySplits(url: string, query: nat)
    requires query < |url| && url[query] == '?'
    ensures var hash := Search(url, query, |url|, '#');
      && query < hash
      && Before(url[query + 1..], '#') == url[query + 1..hash] && Behind(url[query + 1..], '#') == Tail(url, hash + 1)
  {
    NotTheFirst(url, query, |url|, '#');
    SplitsTail(url, query + 1, '#');
  }

  method ParsePath(url: string, start: nat) returns (p: Path, fullPath: string)
    requires start < |url|
    ensures p == ParsedPath(url[start..]) && fullPath == url[start..]
  {
    var end := |url|;
    PathSplits(url, start);
    var query := Search(url, start, end, '?');
    var hash, pathEnd, queryText, fragment := end, end, [], [];
    if query != end {
      QuerySplits(url, query);
      hash := Search(url, query, end, '#');
      pathEnd := query;
      query := query + 1;
      queryText := url[query..hash];
    } else {
      hash := Search(url, start, end, '#');
      pathEnd := hash;
    }
    if hash != end {
      fragment := url[hash + 1..];
    }
    p := Path(url[start..pathEnd], queryText, fragment);
    fullPath := url[start..];
  }

  lemma SearchSplits(s: string, from: nat, to: nat, ch: char)
    requires from <= to <= |s|
    ensures var at, t := Search(s, from, to, ch), s[from..to];
      && Before(t, ch) == s[from..at] && (at < to <==> ch in t)
      && Behind(t, ch) == if at < to then s[at + 1..to] else []
  {
    Splits(s[from..to], ch);
  }

  lemma NotTheFirst(s: string, from: nat, to: nat, ch: char)
    requires from < to <= |s| && s[from] != ch
    ensures Search(s, from, to, ch) == Search(s, from + 1, to, ch)
  {
    assert s[from..to][1..] == s[from + 1..to];
  }

  method ParseLogin(url: string, begin: nat, end: nat) returns (login: Login)
    requires begin <= end <= |url|
    ensures login == ParsedLogin(url[begin..end])
  {
    var user, pass := [], [];
    var it := Search(url, begin, end, ':');
    SearchSplits(url, begin, end, ':');
    if it != end {
      user := url[begin..it];
      pass := url[it + 1..end];
    }
    login := Login(user, pass);
  }

  method ParseHostPort(url: string, begin: nat, end: nat) returns (hostPort: HostPort)
    requires begin <= end <= |url|
    ensures hostPort == ParsedHostPort(url[begin..end])
  {
    var it := Search(url, begin, end, ':');
    SearchSplits(url, begin, end, ':');
    var port := [];
    if it != end {
      port := url[it + 1..end];
    }
    hostPort := HostPort(url[begin..it], port);
  }

  method ParseAuthority(url: string, begin: nat, end: nat) returns (a: Authority)
    requires begin <= end <= |url|
    ensures a == ParsedAuthority(url[begin..end])
  {
    var it := Search(url, begin, end, '@');
    SearchSplits(url, begin, end, '@');
    var login, hostBegin := Login([], []), begin;
    if it != end {
      hostBegin := it + 1;
      login := ParseLogin(url, begin, it);
    }
    var hostPort := ParseHostPort(url, hostBegin, end);
    a := Authority(login, hostPort);
  }

  /** The constructor. */
  method Create(url: string) returns (r: Result)
    ensures r == Parsed(url)
  {
    var it := FindSeparator(url);
    if it == |url| {
      return Invalid;
    }
    var chunkBegin := it + 3;
    var chunkEnd := Search(url, chunkBegin, |url|, '/');
    ParsedFrom(url, chunkBegin, chunkEnd);
    var a := ParseAuthority(url, chunkBegin, chunkEnd);
    var p, fullPath := Path("/", [], []), "/";
    if chunkEnd != |url| {
      p, fullPath := ParsePath(url, chunkEnd);
    }
    return Valid(Built(url, url[..it], a, p, fullPath));
  }

  lemma DropTwice(s: string, a: nat, b: nat)
    requires a + b <= |s|
    ensures s[a..][b..] == s[a + b..]
  {
  }

  lemma ChunkSplits(url: string)
    requires FindSeparator(url) < |url|
    ensures var begin := FindSeparator(url) + 3;
      var end := Search(url, begin, |url|, '/');
      AuthorityText(url) == url[begin..end] && PathText(url) == url[end..]
  {
    var begin := FindSeparator(url) + 3;
    SplitsTail(url, begin, '/');
    assert url[begin..|url|] == Chunk(url);
    DropTwice(url, begin, Find(Chunk(url), '/'));
  }

  lemma ParsedFrom(url: string, begin: nat, end: nat)
    requires FindSeparator(url) < |url| && begin == FindSeparator(url) + 3
    requires end == Search(url, begin, |url|, '/')
    ensures Parsed(url) == Valid(
      if end == |url| then Built(url, url[..begin - 3], ParsedAuthority(url[begin..end]), Path("/", [], []), "/")
      else Built(url, url[..begin - 3], ParsedAuthority(url[begin..end]), ParsedPath(url[end..]), url[end..]))
  {
    ChunkSplits(url);
  }

  // ---- redirects

  predicate SchemeRelative(redirect: string) { |redirect| >= 2 && redirect[..2] == "//" }

  function AuthorityOf(u: Url): Authority { Authority(Login(u.user, u.pass), HostPort(u.host, u.port)) }

  function LoginText(l: Login): string {
    if l.user != [] || l.pass != [] then l.user + ":" + l.pass + "@" else []
  }

  function PortText(port: string): string { if port != [] then ":" + port else [] }

  function HostText(h: HostPort): string { h.host + PortText(h.port) }

  function Printed(a: Authority): string { LoginText(a.login) + HostText(a.hostPort) }

  /** The text that FromRedirect builds and parses. */
  function RedirectText(u: Url, redirect: string): string {
    if FindSeparator(redirect) < |redirect| then redirect
    else if SchemeRelative(redirect) then u.scheme + (":" + redirect)
    else u.scheme + "://" + Printed(AuthorityOf(u)) + redirect
  }

  method BuildRedirect(u: Url, redirect: string) returns (url: string)
    requires FindSeparator(redirect) == |redirect|
    ensures url == RedirectText(u, redirect)
  {
    url := u.scheme;
    if SchemeRelative(redirect) {
      url := url + (":" + redirect);
    } else {
      url := url + "://";
      if u.user != [] || u.pass != [] {
        url := url + (u.user + ":" + u.pass + "@");
      } else {
        assert url + [] == url;
      }
      url := url + u.host;
      if u.port != [] {
        url := url + (":" + u.port);
      } else {
        assert url + [] == url;
      }
      url := url + redirect;
      Regroup(u.scheme + "://", LoginText(AuthorityOf(u).login), u.host, PortText(u.port), redirect);
    }
  }

  lemma Regroup(a: string, l: string, h: string, p: string, r: string)
    ensures a + l + h + p + r == a + (l + (h + p)) + r
  {
  }

  method FromRedirect(u: Url, redirect: string) returns (r: Result)
    ensures r == Parsed(RedirectText(u, redirect))
  {
    var it := FindSeparator(redirect);
    var url := redirect;
    if it == |redirect| {
      url := BuildRedirect(u, redirect);
    }
    r := Create(url);
  }

  // ---- what the parts mean

  lemma {:induction false} JoinsBack(s: string, ch: char)
    ensures ch !in Before(s, ch) && (forall c | c in Before(s, ch) || c in Behind(s, ch) :: c in s)
    ensures s == if ch in s then Before(s, ch) + [ch] + Behind(s, ch) else Before(s, ch)
    ensures ch !in s ==> Behind(s, ch) == []
  {
    if s != [] && s[0] != ch {
      JoinsBack(s[1..], ch);
      assert s == [s[0]] + s[1..];
    }
  }

  lemma {:induction false} SplitsHere(a: string, ch: char, b: string)
    requires ch !in a
    ensures Before(a + [ch] + b, ch) == a && Behind(a + [ch] + b, ch) == b
    ensures Before(a, ch) == a && Behind(a, ch) == []
  {
    if a == [] {
      assert (a + [ch] + b)[1..] == b;
    } else {
      SplitsHere(a[1..], ch, b);
      assert (a + [ch] + b)[1..] == a[1..] + [ch] + b;
    }
  }

  /** Path, query and fragment, rejoined with the separators that were there, are the path text. A
      '#' in front of the first '?' belongs to the path. */
  lemma PathRejoins(s: string)
    ensures var p, q := ParsedPath(s), '?' in s;
      var f := '#' in (if q then Behind(s, '?') else s);
      && s == p.path + (if q then "?" + p.query else []) + (if f then "#" + p.fragment else [])
      && '?' !in p.path && '#' !in p.query && (!q ==> '#' !in p.path && p.query == []) && (!f ==> p.fragment == [])
  {
    JoinsBack(s, '?');
    if '?' in s { QueryRejoins(Before(s, '?'), Behind(s, '?')); } else { JoinsBack(s, '#'); }
  }

  lemma QueryRejoins(path: string, s: string)
    ensures path + "?" + s
         == path + ("?" + Before(s, '#')) + (if '#' in s then "#" + Behind(s, '#') else [])
    ensures '#' !in Before(s, '#') && ('#' !in s ==> Behind(s, '#') == [])
  {
    JoinsBack(s, '#');
  }

  lemma ChunkRejoins(url: string)
    requires FindSeparator(url) < |url|
    ensures Chunk(url) == AuthorityText(url) + PathText(url)
    ensures PathText(url) != [] ==> PathText(url)[0] == '/'
  {
    Splits(Chunk(url), '/');
  }

  lemma SchemeRejoins(url: string)
    requires FindSeparator(url) < |url|
    ensures url == url[..FindSeparator(url)] + "://" + Chunk(url)
  {
  }

  /** The scheme, the authority and the full path are the URL; only a missing path is made up. */
  lemma UrlRejoins(url: string)
    requires Parsed(url).Valid?
    ensures var u := Parsed(url).url;
      && url == u.scheme + "://" + (AuthorityText(url) + PathText(url))
      && u.fullPath == (if PathText(url) == [] then "/" else PathText(url)) && u.fullPath[0] == '/'
  {
    ChunkRejoins(url);
    SchemeRejoins(url);
  }

  /** What the parser leaves in the parts of the authority. */
  ghost predicate WellShaped(u: Url) {
    && '/' !in u.user && '/' !in u.pass && '/' !in u.host && '/' !in u.port
    && ':' !in u.user && ':' !in u.host && '@' !in u.user && '@' !in u.pass
  }

  lemma AuthorityParts(s: string)
    requires '/' !in s
    ensures var a := ParsedAuthority(s);
      && '/' !in a.login.user && '/' !in a.login.pass && '/' !in a.hostPort.host && '/' !in a.hostPort.port
      && ':' !in a.login.user && ':' !in a.hostPort.host && '@' !in a.login.user && '@' !in a.login.pass
  {
    JoinsBack(s, '@');
    var hostPort := if '@' in s then Behind(s, '@') else s;
    JoinsBack(Before(s, '@'), ':');
    JoinsBack(hostPort, ':');
  }

  lemma ParsedIsWellShaped(url: string)
    requires Parsed(url).Valid?
    ensures WellShaped(Parsed(url).url)
  {
    JoinsBack(Chunk(url), '/');
    AuthorityParts(AuthorityText(url));
  }

  // ---- redirects keep the origin

  lemma SeparatorStays(url: string, rest: string)
    requires FindSeparator(url) < |url|
    ensures FindSeparator(url[..FindSeparator(url)] + "://" + rest) == FindSeparator(url)
  {
    var at, text := FindSeparator(url), url[..FindSeparator(url)] + "://" + rest;
    assert SeparatorAt(text, at);
    forall i | 0 <= i < at ensures !SeparatorAt(text, i) {
      assert !SeparatorAt(url, i);
      assert forall k | 0 <= k < at + 3 :: text[k] == url[k];
    }
  }

  /** A URL put together from a scheme that the parser found, an authority and a path. */
  lemma ParsesParts(scheme: string, authority: string, path: string)
    requires var url := scheme + "://" + authority + path; FindSeparator(url) == |scheme|
    requires '/' !in authority && path != [] && path[0] == '/'
    ensures var url := scheme + "://" + authority + path;
      Parsed(url) == Valid(Built(url, scheme, ParsedAuthority(authority), ParsedPath(path), path))
  {
    var url := scheme + "://" + authority + path;
    assert Chunk(url) == authority + ['/'] + path[1..] && url[..|scheme|] == scheme;
    SplitsHere(authority, '/', path[1..]);
    Splits(Chunk(url), '/');
    assert PathText(url) == path;
  }

  lemma HostReadsBack(h: HostPort)
    requires ':' !in h.host
    ensures ParsedHostPort(HostText(h)) == h
  {
    SplitsHere(h.host, ':', h.port);
    HostTextIs(h);
  }

  lemma HostTextIs(h: HostPort)
    ensures HostText(h) == if h.port != [] then h.host + [':'] + h.port else h.host
  {
    if h.port != [] { assert h.host + (":" + h.port) == h.host + [':'] + h.port; }
    else { assert h.host + [] == h.host; }
  }

  lemma LoginReadsBack(a: Authority)
    requires ':' !in a.hostPort.host && ':' !in a.login.user && '@' !in a.login.user && '@' !in a.login.pass
    requires a.login != Login([], [])
    ensures ParsedAuthority(Printed(a)) == a
  {
    var user, pass, rest := a.login.user, a.login.pass, HostText(a.hostPort);
    var login := user + ":" + pass;
    SplitsHere(user, ':', pass);
    SplitsHere(login, '@', rest);
    HostReadsBack(a.hostPort);
    assert Printed(a) == login + ['@'] + rest;
    assert login[|user|] == ':';
  }

  /** Without a login nothing hides an '@' of the host or the port from the parser. */
  predicate Exposed(a: Authority) { a.login == Login([], []) && '@' in HostText(a.hostPort) }

  lemma {:induction false} BehindShrinks(s: string, ch: char)
    ensures |Behind(s, ch)| <= |s| && (ch in s ==> |Behind(s, ch)| < |s|)
  {
    if s != [] && s[0] != ch { BehindShrinks(s[1..], ch); assert s == [s[0]] + s[1..]; }
  }

  lemma {:induction false} BehindJoin(a: string, b: string, ch: char)
    ensures Behind(a + b, ch) == if ch in a then Behind(a, ch) + b else Behind(b, ch)
  {
    if a == [] { assert a + b == b; }
    else {
      assert (a + b)[1..] == a[1..] + b && a == [a[0]] + a[1..];
      if a[0] != ch { BehindJoin(a[1..], b, ch); }
    }
  }

  lemma {:induction false} BeforeShort(s: string, ch: char, t: string)
    ensures |Before(s + [ch] + t, ch)| <= |s| && |Before(s, ch)| <= |s|
  {
    if s != [] && s[0] != ch {
      BeforeShort(s[1..], ch, t);
      assert (s + [ch] + t)[1..] == s[1..] + [ch] + t;
    }
  }

  /** Such an '@' moves the origin: the host gets shorter, or else the port. */
  lemma ExposedMoves(h: HostPort)
    requires '@' in HostText(h)
    ensures ParsedAuthority(HostText(h)).hostPort != h
  {
    var rest := Behind(HostText(h), '@');
    BehindJoin(h.host, PortText(h.port), '@');
    if '@' in h.host {
      BehindShrinks(h.host, '@');
      BeforeShort(Behind(h.host, '@'), ':', h.port);
      if h.port != [] { assert rest == Behind(h.host, '@') + [':'] + h.port; }
      else { assert rest == Behind(h.host, '@'); }
    } else {
      assert '@' in h.port;
      assert PortText(h.port) == ":" + h.port;
      BehindJoin(":", h.port, '@');
      BehindShrinks(h.port, '@');
      BehindShrinks(rest, ':');
    }
  }

  lemma AuthorityReadsBack(a: Authority)
    requires ':' !in a.hostPort.host && ':' !in a.login.user && '@' !in a.login.user && '@' !in a.login.pass
    ensures ParsedAuthority(Printed(a)) == a <==> !Exposed(a)
  {
    if a.login != Login([], []) { LoginReadsBack(a); }
    else {
      assert Printed(a) == HostText(a.hostPort);
      if Exposed(a) { ExposedMoves(a.hostPort); } else { HostReadsBack(a.hostPort); }
    }
  }

  /** The redirect stays at the origin it was sent from and asks for what it names. */
  predicate StaysAt(u: Url, r: Result, redirect: string) {
    r.Valid? && r.url.scheme == u.scheme && AuthorityOf(r.url) == AuthorityOf(u) && r.url.fullPath == redirect
  }

  /** What section 4.2 of RFC 3986 calls an absolute-path reference, as FromRedirect tells it: a "://"
      anywhere in it, be it in the query, makes it an absolute URL. */
  predicate NamesPath(redirect: string) {
    redirect != [] && redirect[0] == '/' && !SchemeRelative(redirect) && FindSeparator(redirect) == |redirect|
  }

  lemma RedirectTextIs(u: Url, redirect: string)
    requires FindSeparator(redirect) == |redirect| && !SchemeRelative(redirect)
    ensures RedirectText(u, redirect) == u.scheme + "://" + (Printed(AuthorityOf(u)) + redirect)
  {
  }

  lemma AbsolutePathParses(base: string, redirect: string)
    requires Parsed(base).Valid? && NamesPath(redirect)
    ensures var u, text := Parsed(base).url, RedirectText(Parsed(base).url, redirect);
      && Parsed(text) == Valid(Built(text, u.scheme, ParsedAuthority(Printed(AuthorityOf(u))),
                                     ParsedPath(redirect), redirect))
  {
    var u := Parsed(base).url;
    var authority := Printed(AuthorityOf(u));
    ParsedIsWellShaped(base);
    SeparatorStays(base, authority + redirect);
    RedirectTextIs(u, redirect);
    ParsesParts(u.scheme, authority, redirect);
  }

  lemma FullPathIsAbsolute(text: string)
    requires Parsed(text).Valid?
    ensures Parsed(text).url.fullPath[..1] == "/"
  {
    UrlRejoins(text);
  }

  /** A text with a "://" is longer than the path the parser finds in it. */
  lemma AbsoluteUrlIsNotItsPath(text: string)
    requires Parsed(text).Valid?
    ensures |Parsed(text).url.fullPath| < |text|
  {
    UrlRejoins(text);
  }

  /** With a host in front, the path is not all of the redirect either. */
  lemma HostIsNotInPath(u: Url, redirect: string)
    requires FindSeparator(redirect) == |redirect| && SchemeRelative(redirect)
    requires FindSeparator(RedirectText(u, redirect)) == |u.scheme|
    ensures Parsed(RedirectText(u, redirect)).Valid?
    ensures |Parsed(RedirectText(u, redirect)).url.fullPath| < |redirect|
  {
    SchemeRelativeText(u, redirect);
    SchemeSplitsOff(u.scheme, redirect[2..]);
    UrlRejoins(RedirectText(u, redirect));
    ChunkRejoins(RedirectText(u, redirect));
  }

  /** For every redirect: it keeps the origin of a parsed URL and asks for itself if and only if it is a
      path, has no "://" in it, and the URL has no exposed '@'. */
  lemma RedirectKeepsOrigin(base: string, redirect: string)
    requires Parsed(base).Valid?
    ensures var u := Parsed(base).url;
      StaysAt(u, Parsed(RedirectText(u, redirect)), redirect) <==> NamesPath(redirect) && !Exposed(AuthorityOf(u))
  {
    var u := Parsed(base).url;
    if NamesPath(redirect) {
      ParsedIsWellShaped(base);
      AbsolutePathParses(base, redirect);
      AuthorityReadsBack(AuthorityOf(u));
    } else {
      LeavesUnlessPath(base, redirect);
    }
  }

  lemma LeavesUnlessPath(base: string, redirect: string)
    requires Parsed(base).Valid? && !NamesPath(redirect)
    ensures var u := Parsed(base).url; !StaysAt(u, Parsed(RedirectText(u, redirect)), redirect)
  {
    var u := Parsed(base).url;
    var text := RedirectText(u, redirect);
    if FindSeparator(redirect) < |redirect| {
      AbsoluteUrlIsNotItsPath(text);
    } else if SchemeRelative(redirect) {
      SeparatorStays(base, redirect[2..]);
      SchemeRelativeText(u, redirect);
      HostIsNotInPath(u, redirect);
    } else if Parsed(text).Valid? {
      FullPathIsAbsolute(text);
    }
  }

  /** In particular every path keeps it whenever the base has at most one '@' in its authority. */
  lemma OneAtKeepsOrigin(base: string, redirect: string)
    requires Parsed(base).Valid? && multiset(AuthorityText(base))['@'] <= 1
    ensures var u := Parsed(base).url; StaysAt(u, Parsed(RedirectText(u, redirect)), redirect) <==> NamesPath(redirect)
  {
    RedirectKeepsOrigin(base, redirect);
    OneAtIsNotExposed(base);
  }

  lemma OneAtIsFirst(s: string)
    requires multiset(s)['@'] <= 1
    ensures '@' !in (if '@' in s then Behind(s, '@') else s)
  {
    JoinsBack(s, '@');
    if '@' in s {
      var before, behind := Before(s, '@'), Behind(s, '@');
      assert multiset(s) == multiset(before) + multiset{'@'} + multiset(behind);
    }
  }

  lemma OneAtIsNotExposed(base: string)
    requires Parsed(base).Valid? && multiset(AuthorityText(base))['@'] <= 1
    ensures !Exposed(AuthorityOf(Parsed(base).url))
  {
    var s := AuthorityText(base);
    var rest := if '@' in s then Behind(s, '@') else s;
    OneAtIsFirst(s);
    JoinsBack(rest, ':');
  }

  lemma SchemeRelativeText(u: Url, redirect: string)
    requires FindSeparator(redirect) == |redirect| && SchemeRelative(redirect)
    ensures RedirectText(u, redirect) == u.scheme + "://" + redirect[2..]
  {
    assert redirect == "//" + redirect[2..];
    var s, rest := u.scheme, redirect[2..];
    assert s + (":" + ("//" + rest)) == s + "://" + rest;
  }

  /** The redirect keeps the scheme and goes, with host and path, where it says behind its "//". */
  predicate GoesToHost(u: Url, text: string, redirect: string)
    requires SchemeRelative(redirect)
  {
    Parsed(text).Valid? && Parsed(text).url.scheme == u.scheme && Chunk(text) == redirect[2..]
  }

  /** A redirect that names a host does so if and only if there is no "://" in it. */
  lemma SchemeRelativeKeepsScheme(base: string, redirect: string)
    requires Parsed(base).Valid? && SchemeRelative(redirect)
    ensures var u := Parsed(base).url;
      GoesToHost(u, RedirectText(u, redirect), redirect) <==> FindSeparator(redirect) == |redirect|
  {
    var u := Parsed(base).url;
    if FindSeparator(redirect) == |redirect| {
      SeparatorStays(base, redirect[2..]);
      SchemeRelativeText(u, redirect);
      SchemeSplitsOff(u.scheme, redirect[2..]);
    } else {
      assert redirect[..2][0] == '/';
      assert FindSeparator(redirect) > 0 && |Chunk(redirect)| < |redirect| - 2;
    }
  }

  lemma SchemeSplitsOff(scheme: string, chunk: string)
    requires FindSeparator(scheme + "://" + chunk) == |scheme|
    ensures var url := scheme + "://" + chunk;
      Chunk(url) == chunk && url[..|scheme|] == scheme && Parsed(url).Valid?
  {
  }
}
