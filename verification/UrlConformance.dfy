/** Where the parser of url.cpp agrees with RFC 3986, and when its parts still hold the whole text. */
module UrlConformance {
  import opened U = Url

  // ---- query and fragment

  /** Section 3 of RFC 3986: the first '#' starts the fragment, and the first '?' before it the query. */
  function RfcPath(s: string): Path {
    Path(Before(Before(s, '#'), '?'), Behind(Before(s, '#'), '?'), Behind(s, '#'))
  }

  lemma {:induction false} BeforeJoin(a: string, b: string, ch: char)
    requires ch !in a
    ensures Before(a + b, ch) == a + Before(b, ch)
  {
    if a == [] {
      assert a + b == b && a + Before(b, ch) == Before(b, ch);
    } else {
      var rest := a[1..];
      assert forall c | c in rest :: c in a;
      BeforeJoin(rest, b, ch);
      assert (a + b)[1..] == rest + b && a[0] in a;
      assert a + Before(b, ch) == [a[0]] + (rest + Before(b, ch));
    }
  }

  /** With the '?' first, both readings cut the text behind it the same way. */
  lemma QueryFirst(path: string, rest: string)
    requires '?' !in path && '#' !in path
    ensures RfcPath(path + ['?'] + rest) == Path(path, Before(rest, '#'), Behind(rest, '#'))
  {
    BeforeJoin(path + ['?'], rest, '#');
    BehindJoin(path + ['?'], rest, '#');
    SplitsHere(path, '?', Before(rest, '#'));
  }

  lemma FragmentFirst(s: string)
    requires '?' in s && '#' in Before(s, '?')
    ensures ParsedPath(s).path != RfcPath(s).path
  {
    JoinsBack(s, '#');
    JoinsBack(Before(s, '#'), '?');
    assert '#' in ParsedPath(s).path && '#' !in RfcPath(s).path;
  }

  /** The parser reads path, query and fragment as the RFC does if and only if no '#' comes before the
      first '?'. */
  lemma PathAsInRfc(s: string)
    ensures ParsedPath(s) == RfcPath(s) <==> !('?' in s && '#' in Before(s, '?'))
  {
    JoinsBack(s, '?');
    if '?' !in s {
      JoinsBack(s, '#');
      JoinsBack(Before(s, '#'), '?');
    } else if '#' in Before(s, '?') {
      FragmentFirst(s);
    } else {
      QueryFirst(Before(s, '?'), Behind(s, '?'));
    }
  }

  /** One input on which they differ. */
  lemma QueryInsideFragment()
    ensures ParsedPath("/a#b?c") == Path("/a#b", "c", "") && RfcPath("/a#b?c") == Path("/a", "", "b?c")
  {
    SplitsHere("/a#b", '?', "c");
    SplitsHere("/a", '#', "b?c");
    SplitsHere("/a", '?', "");
    SplitsHere("c", '#', "");
    assert "/a#b?c" == "/a#b" + ['?'] + "c" && "/a#b?c" == "/a" + ['#'] + "b?c";
  }

  // ---- the end of the authority

  /** Section 3.2 of RFC 3986: the authority ends at the first '/', '?' or '#'. */
  function RfcAuthority(chunk: string): string { Before(Before(Before(chunk, '/'), '?'), '#') }

  /** The parser ends it at the first '/' only, and so as the RFC does if and only if neither of the
      others comes first. */
  lemma AuthorityAsInRfc(url: string)
    requires Parsed(url).Valid?
    ensures AuthorityText(url) == RfcAuthority(Chunk(url))
       <==> '?' !in AuthorityText(url) && '#' !in AuthorityText(url)
  {
    var s := AuthorityText(url);
    JoinsBack(s, '?');
    JoinsBack(Before(s, '?'), '#');
  }

  lemma SeparatorIs(scheme: string, chunk: string)
    requires ':' !in scheme
    ensures FindSeparator(scheme + "://" + chunk) == |scheme|
    ensures Chunk(scheme + "://" + chunk) == chunk
  {
    var url := scheme + "://" + chunk;
    assert SeparatorAt(url, |scheme|);
    forall i | 0 <= i < |scheme| ensures !SeparatorAt(url, i) { assert url[i] == scheme[i] && scheme[i] in scheme; }
  }

  lemma NoPathParsed(scheme: string, authority: string)
    requires ':' !in scheme && '/' !in authority
    ensures var url := scheme + "://" + authority;
      && Parsed(url) == Valid(Built(url, scheme, ParsedAuthority(authority), Path("/", [], []), "/"))
      && Chunk(url) == authority
  {
    SeparatorIs(scheme, authority);
    SplitsHere(authority, '/', "");
    Splits(authority, '/');
    assert (scheme + "://" + authority)[..|scheme|] == scheme;
  }

  lemma RfcEndsAtQuery(host: string, rest: string)
    requires '/' !in host && '?' !in host && '#' !in host && '/' !in rest
    ensures RfcAuthority(host + "?" + rest) == host
  {
    var s := host + "?" + rest;
    assert '/' !in s && s == host + ['?'] + rest;
    SplitsHere(s, '/', "");
    SplitsHere(host, '?', rest);
    SplitsHere(host, '#', "");
  }

  /** Without a path, a query becomes part of the host. */
  lemma QueryGoesToHost(host: string, query: string)
    requires '/' !in host && '?' !in host && '#' !in host && '@' !in host && ':' !in host
    requires '/' !in query && '@' !in query && ':' !in query
    ensures var url := "http" + "://" + (host + "?" + query);
      && Parsed(url) == Valid(Built(url, "http", Authority(Login([], []), HostPort(host + "?" + query, [])),
                                    Path("/", [], []), "/"))
      && RfcAuthority(Chunk(url)) == host
  {
    NoPathParsed("http", host + "?" + query);
    HostOnly(host + "?" + query);
    RfcEndsAtQuery(host, query);
  }

  /** One input on which it does not end there. */
  lemma QueryInsideAuthority()
    ensures var url := "http" + "://" + ("host" + "?" + "q");
      && Parsed(url).Valid? && Parsed(url).url.host == "host" + "?" + "q" && Parsed(url).url.query == []
      && RfcAuthority(Chunk(url)) == "host"
  {
    QueryGoesToHost("host", "q");
  }

  lemma HostOnly(s: string)
    requires '@' !in s && ':' !in s
    ensures ParsedAuthority(s) == Authority(Login([], []), HostPort(s, []))
  {
    SplitsHere(s, ':', "");
  }

  // ---- what the parts of an authority keep of it

  /** A host and port are kept unless a ':' ends the text. */
  lemma HostPortKept(rest: string)
    ensures var t := HostText(ParsedHostPort(rest));
      |t| <= |rest| && (t == rest <==> (':' in rest ==> Behind(rest, ':') != []))
  {
    JoinsBack(rest, ':');
    HostTextIs(ParsedHostPort(rest));
  }

  predicate LoginKept(login: string) { ':' in login && login != ":" }

  /** A login is kept with its '@', or lost altogether. */
  lemma LoginKeptOrLost(login: string)
    ensures LoginText(ParsedLogin(login)) == if LoginKept(login) then login + "@" else []
  {
    JoinsBack(login, ':');
    var user, pass := Before(login, ':'), Behind(login, ':');
    if ':' in login { assert login == user + ":" + pass; }
  }

  /** The two sides of the first '@' of an authority. */
  function LoginSide(s: string): string { if '@' in s then Before(s, '@') else [] }

  function HostSide(s: string): string { if '@' in s then Behind(s, '@') else s }

  /** The parsed parts print the authority again if and only if its login, if it has one, has a ':' and
      is more than that, and a ':' of its host is followed by a port. */
  lemma AuthorityPrintsBack(s: string)
    ensures Printed(ParsedAuthority(s)) == s
       <==> ('@' in s ==> LoginKept(LoginSide(s))) && (':' in HostSide(s) ==> Behind(HostSide(s), ':') != [])
  {
    var login, rest := LoginSide(s), HostSide(s);
    JoinsBack(s, '@');
    HostPortKept(rest);
    if '@' in s {
      LoginKeptOrLost(login);
      var t := HostText(ParsedHostPort(rest));
      assert s == login + "@" + rest;
      if LoginKept(login) { SameTail(login + "@", t, rest); }
    } else {
      assert Printed(ParsedAuthority(s)) == HostText(ParsedHostPort(s));
    }
  }

  lemma SameTail(a: string, b: string, c: string)
    ensures a + b == a + c <==> b == c
  {
    assert (a + b)[|a|..] == b && (a + c)[|a|..] == c;
  }

  /** A login without ':' is lost. */
  lemma LoginDropped(login: string, rest: string)
    requires ':' !in login && '@' !in login
    ensures ParsedAuthority(login + "@" + rest) == Authority(Login([], []), ParsedHostPort(rest))
  {
    SplitsHere(login, '@', rest);
    SplitsHere(login, ':', "");
    assert login + "@" + rest == login + ['@'] + rest;
  }

  lemma PlainHost(host: string)
    requires ':' !in host
    ensures ParsedHostPort(host) == HostPort(host, []) && ParsedHostPort(host + ":") == HostPort(host, [])
    ensures HostText(HostPort(host, [])) == host
  {
    HostTextIs(HostPort(host, []));
    SplitsHere(host, ':', "");
    assert host + ":" == host + [':'] + "";
  }

  lemma Losses(login: string, host: string)
    requires ':' !in login && '@' !in login && ':' !in host && '@' !in host
    ensures Printed(ParsedAuthority(login + "@" + host)) == host
    ensures Printed(ParsedAuthority(":" + "@" + host)) == host
    ensures Printed(ParsedAuthority(host + ":")) == host
  {
    PlainHost(host);
    LoginDropped(login, host);
    BareColonDropped(host);
    assert [] + host == host;
  }

  /** One input of each kind that loses something: a login without ':', a login that is a ':', and a ':'
      without a port. */
  lemma LostParts()
    ensures Printed(ParsedAuthority("joe" + "@" + "host")) == "host"
    ensures Printed(ParsedAuthority(":" + "@" + "host")) == "host"
    ensures Printed(ParsedAuthority("host" + ":")) == "host"
  {
    Losses("joe", "host");
  }

  lemma BareColonDropped(rest: string)
    ensures ParsedAuthority(":" + "@" + rest) == Authority(Login([], []), ParsedHostPort(rest))
  {
    SplitsHere(":", '@', rest);
    SplitsHere("", ':', "");
    assert ":" + "@" + rest == ":" + ['@'] + rest && ":" == "" + [':'] + "";
  }

  /** A whole URL with such a login: nobody is left in it. */
  lemma UserlessUrl(login: string, host: string)
    requires ':' !in login && '@' !in login && '/' !in login && ':' !in host && '/' !in host
    ensures var url := "http" + "://" + (login + "@" + host) + "/";
      && Parsed(url).Valid? && Parsed(url).url.user == [] && Parsed(url).url.pass == []
      && Parsed(url).url.host == host && Parsed(url).url.port == []
  {
    var authority := login + "@" + host;
    SeparatorIs("http", authority + "/");
    assert "http" + "://" + authority + "/" == "http" + "://" + (authority + "/");
    ParsesParts("http", authority, "/");
    LoginDropped(login, host);
    PlainHost(host);
  }

  /** So this one forgets who is asking. */
  lemma UserForgotten()
    ensures var url := "http" + "://" + ("joe" + "@" + "host") + "/";
      Parsed(url).Valid? && Parsed(url).url.user == [] && Parsed(url).url.pass == [] && Parsed(url).url.host == "host"
  {
    UserlessUrl("joe", "host");
  }

  // ---- redirects that go elsewhere

  /** A base with two '@', and a redirect to a path that leaves its host. */
  lemma RedirectLeavesOrigin()
    ensures var u := Parsed("http" + "://" + ("a" + "@" + "b@c") + "/");
      u.Valid? && NamesPath("/x") && !StaysAt(u.url, Parsed(RedirectText(u.url, "/x")), "/x")
  {
    var base := "http" + "://" + ("a" + "@" + "b@c") + "/";
    UserlessUrl("a", "b@c");
    PlainHost("b@c");
    assert "b@c"[1] == '@';
    assert "/x"[..2][1] == 'x';
    RedirectKeepsOrigin(base, "/x");
  }

  /** Text with a "://" further on, whatever is in front of it, is taken for an absolute URL. */
  lemma TakenForUrl(u: Url, front: string, host: string)
    requires ':' !in front && '/' !in host && '@' !in host && ':' !in host
    ensures var redirect := front + "://" + host + "/";
      var r := Parsed(RedirectText(u, redirect));
      RedirectText(u, redirect) == redirect && r.Valid? && r.url.scheme == front && r.url.host == host
  {
    assert front + "://" + host + "/" == front + "://" + (host + "/");
    SeparatorIs(front, host + "/");
    ParsesParts(front, host, "/");
    HostOnly(host);
  }

  lemma HostUrl(host: string)
    requires '/' !in host && '@' !in host && ':' !in host
    ensures var r := Parsed("http" + "://" + host + "/"); r.Valid? && r.url.scheme == "http" && r.url.host == host
  {
    assert "http" + "://" + host + "/" == "http" + "://" + (host + "/");
    SeparatorIs("http", host + "/");
    ParsesParts("http", host, "/");
    HostOnly(host);
  }

  lemma GoesElsewhere(host: string, front: string, other: string)
    requires '/' !in host && '@' !in host && ':' !in host
    requires ':' !in front && |front| >= 2 && '/' !in other && '@' !in other && ':' !in other
    ensures var base, redirect := "http" + "://" + host + "/", front + "://" + other + "/";
      && Parsed(base).Valid? && Parsed(base).url.scheme == "http" && Parsed(base).url.host == host
      && redirect[0] == front[0] && (SchemeRelative(redirect) <==> SchemeRelative(front))
      && var r := Parsed(RedirectText(Parsed(base).url, redirect));
      r.Valid? && r.url.scheme == front && r.url.host == other
  {
    HostUrl(host);
    TakenForUrl(Parsed("http" + "://" + host + "/").url, front, other);
    assert (front + "://" + other + "/")[..2] == front[..2];
  }

  lemma Fronts()
    ensures ':' !in "/login?next=http" && !SchemeRelative("/login?next=http")
    ensures ':' !in "//host/?u=http" && SchemeRelative("//host/?u=http")
  {
    assert "/login?next=http"[..2][1] == 'l';
  }

  /** A redirect to a path leaves the host for one that its query names, under a scheme that nobody
      meant. */
  lemma QueryNamesHost()
    ensures var base, redirect := "http" + "://" + "good" + "/", "/login?next=http" + "://" + "evil" + "/";
      && redirect[0] == '/' && !SchemeRelative(redirect)
      && Parsed(base).Valid? && Parsed(base).url.scheme == "http" && Parsed(base).url.host == "good"
      && var r := Parsed(RedirectText(Parsed(base).url, redirect));
      r.Valid? && r.url.scheme == "/login?next=http" && r.url.host == "evil"
  {
    Fronts();
    GoesElsewhere("good", "/login?next=http", "evil");
  }

  /** The same for a redirect that names a host. */
  lemma QueryNamesScheme()
    ensures var base, redirect := "http" + "://" + "good" + "/", "//host/?u=http" + "://" + "x" + "/";
      && SchemeRelative(redirect) && Parsed(base).Valid? && Parsed(base).url.scheme == "http"
      && var r := Parsed(RedirectText(Parsed(base).url, redirect));
      r.Valid? && r.url.scheme == "//host/?u=http" && r.url.host == "x"
  {
    Fronts();
    GoesElsewhere("good", "//host/?u=http", "x");
  }

  // ---- each part by itself

  lemma PathParts(path: string, query: string, fragment: string)
    requires '?' !in path && '#' !in query
    ensures ParsedPath(path + "?" + query + "#" + fragment) == Path(path, query, fragment)
  {
    var rest := query + ['#'] + fragment;
    SplitsHere(path, '?', rest);
    SplitsHere(query, '#', fragment);
    assert path + "?" + query + "#" + fragment == path + ['?'] + rest;
  }

  lemma AuthorityParts(user: string, pass: string, host: string, port: string)
    requires ':' !in user && '@' !in user && '@' !in pass && ':' !in host
    ensures ParsedAuthority(user + ":" + pass + "@" + host + ":" + port)
         == Authority(Login(user, pass), HostPort(host, port))
  {
    var login, rest := user + [':'] + pass, host + [':'] + port;
    assert '@' !in login;
    SplitsHere(login, '@', rest);
    SplitsHere(user, ':', pass);
    SplitsHere(host, ':', port);
    assert user + ":" + pass + "@" + host + ":" + port == login + ['@'] + rest;
  }

  /** A URL with all its parts, each read as what it is. */
  lemma EachPart(scheme: string, user: string, pass: string, host: string, port: string,
                 path: string, query: string, fragment: string)
    requires ':' !in scheme && ':' !in user && '@' !in user && '@' !in pass && ':' !in host
    requires '/' !in user && '/' !in pass && '/' !in host && '/' !in port
    requires path != [] && path[0] == '/' && '?' !in path && '#' !in query
    ensures var authority := user + ":" + pass + "@" + host + ":" + port;
      var fullPath := path + "?" + query + "#" + fragment;
      var url := scheme + "://" + authority + fullPath;
      Parsed(url) == Valid(Url(url, scheme, user, pass, host, port, path, fullPath, query, fragment))
  {
    var authority, fullPath := user + ":" + pass + "@" + host + ":" + port, path + "?" + query + "#" + fragment;
    AuthorityParts(user, pass, host, port);
    PathParts(path, query, fragment);
    SeparatorIs(scheme, authority + fullPath);
    assert scheme + "://" + authority + fullPath == scheme + "://" + (authority + fullPath);
    assert '/' !in authority && fullPath[0] == '/';
    ParsesParts(scheme, authority, fullPath);
  }

  /** A scheme and a host alone: the path is made up, and all else is empty. */
  lemma HostAlone(scheme: string, host: string)
    requires ':' !in scheme && '/' !in host && '@' !in host && ':' !in host
    ensures var url := scheme + "://" + host;
      Parsed(url) == Valid(Url(url, scheme, [], [], host, [], "/", "/", [], []))
  {
    NoPathParsed(scheme, host);
    HostOnly(host);
  }
}
