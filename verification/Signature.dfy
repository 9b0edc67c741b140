/** Request signing: MakePost and GetSignature of session_token_api_base_static.cpp on the client,
    SessionTokenWallet of ut_session_maintainer.cpp on the server. The hash is a parameter. */
module Signature {
  import opened Basics
  import opened UrlEncode
  import opened ApiQuery
  import SecretKey

  type Hash = bytes -> bytes

  /** A hash is printed in hexadecimal. */
  ghost predicate PrintsPlain(hash: Hash) { forall text: bytes :: Unreserved(hash(text)) }

  const SESSION_TOKEN: bytes := "session_token"
  const SIGNATURE: bytes := "signature"

  function Digits(n: nat): bytes {
    if n < 10 then [(n + '0' as nat) as char] else Digits(n / 10) + [(n % 10 + '0' as nat) as char]
  }

  /** A stream's output of the int `key % 256`, where % truncates towards zero. */
  function LowByte(key: int): bytes {
    if key >= 0 then Digits(key % 256) else if -key % 256 == 0 then Digits(0) else "-" + Digits(-key % 256)
  }

  function SignedText(key: int, time: bytes, path: bytes, query: bytes): bytes {
    LowByte(key) + time + path + "?" + query
  }

  function Trailed(parts: Parts): bytes {
    if parts == [] then [] else Trailed(parts[..|parts| - 1]) + "&" + Pair(parts[|parts| - 1], false)
  }

  /** What MakePost signs and sends. The token itself is printed as it is. */
  function PostQuery(token: bytes, parts: Parts): bytes { SESSION_TOKEN + "=" + token + Trailed(parts) }

  function SignedPost(token: bytes, time: bytes, key: int, path: bytes, parts: Parts, hash: Hash): bytes {
    var query := PostQuery(token, parts);
    query + "&" + SIGNATURE + "=" + hash(SignedText(key, time, path, query))
  }

  lemma PostQueryGrows(token: bytes, parts: Parts, i: nat)
    requires i < |parts|
    ensures PostQuery(token, parts[..i + 1]) == PostQuery(token, parts[..i]) + ("&" + Pair(parts[i], false))
  {
    assert parts[..i + 1][..i] == parts[..i];
    var head, trailed, p := SESSION_TOKEN + "=" + token, Trailed(parts[..i]), Pair(parts[i], false);
    assert head + (trailed + "&" + p) == (head + trailed) + ("&" + p);
  }

  class SessionTokenApi {
    var sessionToken: bytes
    var time: bytes
    var secretKey: int

    constructor ()
      ensures sessionToken == [] && time == [] && secretKey == 0
    {
      sessionToken, time, secretKey := [], [], 0;
    }

    method SetSessionToken(token: bytes, issued: bytes, key: int)
      modifies this
      ensures sessionToken == token && time == issued && secretKey == key
    {
      sessionToken, time, secretKey := token, issued, key;
    }

    method MakePost(path: bytes, parts: Parts, hash: Hash) returns (post: bytes)
      ensures post == SignedPost(sessionToken, time, secretKey, path, parts, hash)
    {
      var query := SESSION_TOKEN + "=" + sessionToken;
      for i := 0 to |parts|
        invariant query == PostQuery(sessionToken, parts[..i])
      {
        PostQueryGrows(sessionToken, parts, i);
        var value := UrlEncodeBase(parts[i].1, false);
        query := query + ("&" + (parts[i].0 + "=" + value));
      }
      assert parts[..|parts|] == parts;
      var sig := hash(LowByte(secretKey) + time + path + "?" + query);
      post := query + "&" + SIGNATURE + "=" + sig;
    }
  }

  // ---- the server

  datatype Token = Token(token: bytes, pkey: bytes, ekey: bytes, time: bytes, secretKey: int)

  type Tokens = map<bytes, Token>

  /** std::string::find from a position on. */
  function Find(s: bytes, pattern: bytes, from: nat): (at: Option<nat>)
    ensures at.Some? ==> from <= at.value && Occurs(s, pattern, at.value)
    ensures forall i | from <= i && Occurs(s, pattern, i) :: at.Some? && at.value <= i
    decreases |s| - from
  {
    if from + |pattern| > |s| then None
    else if Occurs(s, pattern, from) then Some(from)
    else if from == |s| then None
    else Find(s, pattern, from + 1)
  }

  predicate Occurs(s: bytes, pattern: bytes, at: nat) {
    at + |pattern| <= |s| && s[at..at + |pattern|] == pattern
  }

  /** The part of the body the server hashes: up to one character before "signature=". */
  function BeforeSignature(post: bytes): Option<bytes> {
    var at := Find(post, SIGNATURE + "=", 0);
    if at.None? then None else Some(post[..if at.value > 0 then at.value - 1 else 0])
  }

  function PathOf(target: bytes): bytes {
    var at := Find(target, "?", 0);
    if at.None? then target else target[..at.value]
  }

  predicate Accepts(tokens: Tokens, target: bytes, post: bytes, parts: map<bytes, bytes>, hash: Hash) {
    && SESSION_TOKEN in parts && SIGNATURE in parts && parts[SESSION_TOKEN] in tokens
    && BeforeSignature(post).Some?
    && var t := tokens[parts[SESSION_TOKEN]];
      parts[SIGNATURE] == hash(SignedText(t.secretKey, t.time, PathOf(target), BeforeSignature(post).value))
  }

  function Renewed(tokens: Tokens, token: bytes): Tokens {
    if token in tokens
    then tokens[token := tokens[token].(secretKey := SecretKey.NextKey(tokens[token].secretKey))]
    else tokens
  }

  class SessionTokenWallet {
    var tokens: Tokens

    constructor ()
      ensures tokens == map[]
    {
      tokens := map[];
    }

    method AddValidToken(t: Token)
      modifies this
      ensures tokens == old(tokens)[t.token := t]
    {
      tokens := tokens[t.token := t];
    }

    method InvalidateToken(token: bytes)
      modifies this
      ensures tokens == old(tokens) - {token}
    {
      tokens := tokens - {token};
    }

    method GenerateNextSecretKey(token: bytes)
      modifies this
      ensures tokens == Renewed(old(tokens), token)
    {
      if token in tokens {
        var key := tokens[token].secretKey % 0x1_0000_0000_0000_0000;
        var next := (key * 16807) % 0x1_0000_0000_0000_0000 % 2147483647;
        tokens := tokens[token := tokens[token].(secretKey := next)];
      }
    }

    method PostValidates(target: bytes, post: bytes, parts: map<bytes, bytes>, regenerate: bool, hash: Hash)
      returns (valid: bool)
      modifies this
      ensures valid == Accepts(old(tokens), target, post, parts, hash)
      ensures tokens == if valid && regenerate then Renewed(old(tokens), parts[SESSION_TOKEN]) else old(tokens)
    {
      if SESSION_TOKEN !in parts || SIGNATURE !in parts || parts[SESSION_TOKEN] !in tokens {
        return false;
      }
      var t := tokens[parts[SESSION_TOKEN]];
      var text := LowByte(t.secretKey) + t.time;
      var question := Find(target, "?", 0);
      if question.None? {
        text := text + target;
      } else {
        text := text + target[..question.value];
      }
      text := text + "?";
      var sigpos := Find(post, SIGNATURE + "=", 0);
      if sigpos.None? {
        return false;
      }
      var cut := sigpos.value;
      if cut > 0 {
        cut := cut - 1;
      }
      text := text + post[..cut];
      if parts[SIGNATURE] != hash(text) {
        return false;
      }
      if regenerate {
        GenerateNextSecretKey(parts[SESSION_TOKEN]);
      }
      return true;
    }
  }

  // ---- where "signature=" can occur

  predicate EndsWith(key: bytes, name: bytes) {
    |key| >= |name| && key[|key| - |name|..] == name
  }

  ghost predicate Contains(s: bytes, pattern: bytes) { exists at: nat :: Occurs(s, pattern, at) }

  const MARK: bytes := SIGNATURE + "="

  lemma OccurrenceShifts(a: bytes, rest: bytes, pattern: bytes, at: nat)
    ensures Occurs(a + rest, pattern, |a| + at) <==> Occurs(rest, pattern, at)
  {
    var from, to := |a| + at, |a| + at + |pattern|;
    if to <= |a + rest| { assert (a + rest)[from..to] == rest[at..at + |pattern|]; }
  }

  lemma OccurrenceStays(a: bytes, rest: bytes, pattern: bytes, at: nat)
    requires at + |pattern| <= |a|
    ensures Occurs(a + rest, pattern, at) <==> Occurs(a, pattern, at)
  {
    assert (a + rest)[at..at + |pattern|] == a[at..at + |pattern|];
  }

  lemma InsideOccurrence(s: bytes, pattern: bytes, at: nat, x: nat)
    requires Occurs(s, pattern, at) && at <= x < at + |pattern|
    ensures s[x] == pattern[x - at]
  {
    assert s[x] == s[at..at + |pattern|][x - at];
  }

  /** No pattern reaches across a separator it does not have. */
  lemma OccursOnOneSide(a: bytes, ch: byte, b: bytes, pattern: bytes, at: nat)
    requires ch !in pattern && Occurs(a + [ch] + b, pattern, at)
    ensures if at + |pattern| <= |a| then Occurs(a, pattern, at) else at > |a| && Occurs(b, pattern, at - |a| - 1)
  {
    var s := a + [ch] + b;
    if at + |pattern| <= |a| {
      assert s == a + ([ch] + b);
      OccurrenceStays(a, [ch] + b, pattern, at);
    } else {
      if at <= |a| { InsideOccurrence(s, pattern, at, |a|); }
      OccurrenceShifts(a + [ch], b, pattern, at - |a| - 1);
    }
  }

  lemma ContainsJoined(a: bytes, ch: byte, b: bytes, pattern: bytes)
    requires ch !in pattern && pattern != []
    ensures Contains(a + [ch] + b, pattern) <==> Contains(a, pattern) || Contains(b, pattern)
  {
    var s := a + [ch] + b;
    if Contains(s, pattern) {
      var at: nat :| Occurs(s, pattern, at);
      OccursOnOneSide(a, ch, b, pattern, at);
    }
    if Contains(a, pattern) {
      var at: nat :| Occurs(a, pattern, at);
      assert s == a + ([ch] + b);
      OccurrenceStays(a, [ch] + b, pattern, at);
    }
    if Contains(b, pattern) {
      var at: nat :| Occurs(b, pattern, at);
      OccurrenceShifts(a + [ch], b, pattern, at);
    }
  }

  lemma NoEqualsInValue(key: bytes, value: bytes)
    requires '=' !in value
    ensures forall x | |key| < x < |key + "=" + value| :: (key + "=" + value)[x] != '='
  {
    assert forall x | |key| < x < |key + "=" + value| :: (key + "=" + value)[x] == value[x - |key| - 1];
  }

  lemma NoEqualsInKey(key: bytes, rest: bytes)
    requires '=' !in key
    ensures forall x | 0 <= x < |key| :: (key + "=" + rest)[x] != '='
  {
    assert forall x | 0 <= x < |key| :: (key + "=" + rest)[x] == key[x];
  }

  /** A name followed by '=' does not reach into a value. */
  lemma ContainsInName(key: bytes, value: bytes, name: bytes)
    requires '=' !in value
    ensures Contains(key + "=" + value, name + "=") <==> Contains(key + "=", name + "=")
  {
    var s, pattern := key + "=" + value, name + "=";
    if Contains(s, pattern) {
      var at: nat :| Occurs(s, pattern, at);
      InsideOccurrence(s, pattern, at, at + |name|);
      NoEqualsInValue(key, value);
      OccurrenceStays(key + "=", value, pattern, at);
    }
    if Contains(key + "=", pattern) {
      var at: nat :| Occurs(key + "=", pattern, at);
      OccurrenceStays(key + "=", value, pattern, at);
    }
  }

  lemma PrefixOccurs(key: bytes, rest: bytes, name: bytes, at: nat)
    requires '=' !in name && '=' !in key && Occurs(key + "=" + rest, name + "=", at) && at <= |key|
    ensures EndsWith(key, name)
  {
    var s := key + "=" + rest;
    InsideOccurrence(s, name + "=", at, at + |name|);
    if at + |name| > |key| { InsideOccurrence(s, name + "=", at, |key|); }
    NoEqualsInKey(key, rest);
    assert key[at..] == s[at..at + |name| + 1][..|name|];
  }

  /** In front of the first '=' there is nothing, unless the key ends in the name. */
  lemma ContainsBehindKey(key: bytes, rest: bytes, name: bytes)
    requires '=' !in name && '=' !in key && !EndsWith(key, name)
    ensures Contains(key + "=" + rest, name + "=") <==> Contains(rest, name + "=")
  {
    if Contains(key + "=" + rest, name + "=") {
      var at: nat :| Occurs(key + "=" + rest, name + "=", at);
      if at <= |key| { PrefixOccurs(key, rest, name, at); }
      OccurrenceShifts(key + "=", rest, name + "=", at - |key| - 1);
    }
    if Contains(rest, name + "=") {
      var at: nat :| Occurs(rest, name + "=", at);
      OccurrenceShifts(key + "=", rest, name + "=", at);
    }
  }

  /** With no '=' in it, a key contains the name just if it ends in it. */
  lemma PlainKeyContains(key: bytes, name: bytes)
    requires '=' !in name && '=' !in key
    ensures Contains(key + "=", name + "=") <==> EndsWith(key, name)
  {
    assert key + "=" + [] == key + "=";
    if EndsWith(key, name) {
      assert (key + "=")[|key| - |name|..|key| + 1] == key[|key| - |name|..] + "=";
      assert Occurs(key + "=", name + "=", |key| - |name|);
    } else {
      ContainsBehindKey(key, [], name);
    }
  }

  lemma Names()
    ensures '&' !in SIGNATURE && '=' !in SIGNATURE && '=' !in SESSION_TOKEN && !EndsWith(SESSION_TOKEN, SIGNATURE)
    ensures Unreserved(SESSION_TOKEN) && Unreserved(SIGNATURE)
  {
    assert SESSION_TOKEN[4..][8] == 'n' && SIGNATURE[8] == 'e';
  }

  /** Something in front of the signature looks like one: the token, or a parameter's name. */
  ghost predicate Marked(token: bytes, parts: Parts) {
    Contains(token, MARK) || exists p :: p in parts && Contains(p.0 + "=", MARK)
  }

  lemma PairMarked(p: (bytes, bytes))
    ensures Contains(Pair(p, false), MARK) <==> Contains(p.0 + "=", MARK)
  {
    EncodedCharacters(p.1, false);
    ContainsInName(p.0, Encoded(p.1, false), SIGNATURE);
  }

  lemma MarkedGrows(token: bytes, parts: Parts)
    requires parts != []
    ensures var n := |parts| - 1;
      Marked(token, parts) <==> Marked(token, parts[..n]) || Contains(parts[n].0 + "=", MARK)
  {
    var n := |parts| - 1;
    assert parts == parts[..n] + [parts[n]];
  }

  /** Whatever the names, the values and the token are, "signature=" is in the signed text if and only if
      it is in the token or in a name with its '='. */
  lemma {:induction false} QueryMarked(token: bytes, parts: Parts)
    ensures Contains(PostQuery(token, parts), MARK) <==> Marked(token, parts)
  {
    Names();
    if parts == [] {
      ContainsBehindKey(SESSION_TOKEN, token, SIGNATURE);
      assert PostQuery(token, parts) == SESSION_TOKEN + "=" + token;
    } else {
      var n := |parts| - 1;
      var before, last := PostQuery(token, parts[..n]), Pair(parts[n], false);
      QueryMarked(token, parts[..n]);
      PostQueryGrows(token, parts, n);
      assert parts[..n + 1] == parts && before + ("&" + last) == before + ['&'] + last;
      ContainsJoined(before, '&', last, MARK);
      PairMarked(parts[n]);
      MarkedGrows(token, parts);
    }
  }

  /** For unreserved names and tokens: if and only if a parameter's name ends in "signature". */
  lemma PlainlyMarked(token: bytes, parts: Parts)
    requires Unreserved(token) && PlainKeys(parts)
    ensures Marked(token, parts) <==> exists p :: p in parts && EndsWith(p.0, SIGNATURE)
  {
    Names();
    assert '=' !in token;
    if Contains(token, MARK) {
      var at: nat :| Occurs(token, MARK, at);
      InsideOccurrence(token, MARK, at, at + |SIGNATURE|);
    }
    forall p | p in parts ensures Contains(p.0 + "=", MARK) <==> EndsWith(p.0, SIGNATURE) {
      PlainKeyContains(p.0, SIGNATURE);
    }
  }

  // ---- what the server hashes

  /** The token ahead of the parameters. */
  function AllPrinted(token: bytes, parts: Parts, sig: bytes): Parts {
    [(SESSION_TOKEN, token)] + parts + [(SIGNATURE, sig)]
  }

  lemma {:induction false} UnreservedEncodes(s: bytes)
    requires Unreserved(s)
    ensures Encoded(s, false) == s
  {
    if s != [] {
      assert s[0] in s && s == [s[0]] + s[1..];
      assert forall ch | ch in s[1..] :: ch in s;
      UnreservedEncodes(s[1..]);
    }
  }

  /** With a token that needs no encoding, the signed text is the token and the parameters printed. */
  lemma {:induction false} PostQueryIsPairs(token: bytes, parts: Parts)
    requires Unreserved(token)
    ensures PostQuery(token, parts) == Pairs([(SESSION_TOKEN, token)] + parts, false)
  {
    var all, n := [(SESSION_TOKEN, token)] + parts, |parts|;
    if n == 0 {
      UnreservedEncodes(token);
      assert all == [(SESSION_TOKEN, token)];
    } else {
      PostQueryIsPairs(token, parts[..n - 1]);
      PostQueryGrows(token, parts, n - 1);
      assert parts[..n] == parts;
      PairsEnd(all[..n], all[n]);
      assert all == all[..n] + [all[n]] && all[..n] == [(SESSION_TOKEN, token)] + parts[..n - 1];
      JoinsEitherWay(Pairs(all[..n], false), "&", Pair(all[n], false));
    }
  }

  lemma JoinsEitherWay(a: bytes, b: bytes, c: bytes)
    ensures a + b + c == a + (b + c)
  {
  }

  lemma PairsEnd(parts: Parts, last: (bytes, bytes))
    requires parts != []
    ensures Pairs(parts + [last], false) == Pairs(parts, false) + "&" + Pair(last, false)
  {
    var all := parts + [last];
    PairsGrow(all, |parts|, false);
    assert all[..|parts|] == parts && all[..|parts| + 1] == all;
  }

  lemma PostIsPairs(token: bytes, parts: Parts, sig: bytes)
    requires Unreserved(token) && Unreserved(sig)
    ensures PostQuery(token, parts) + "&" + SIGNATURE + "=" + sig == Pairs(AllPrinted(token, parts, sig), false)
  {
    var all, n := AllPrinted(token, parts, sig), |parts| + 1;
    PostQueryIsPairs(token, parts);
    UnreservedEncodes(sig);
    PairsGrow(all, n, false);
    assert all[..n + 1] == all && all[..n] == [(SESSION_TOKEN, token)] + parts;
    var q := PostQuery(token, parts);
    assert q + "&" + (SIGNATURE + "=" + sig) == q + "&" + SIGNATURE + "=" + sig;
  }

  lemma PrintedKeysArePlain(token: bytes, parts: Parts, sig: bytes)
    requires PlainKeys(parts)
    ensures PlainKeys(AllPrinted(token, parts, sig))
  {
    Names();
  }

  /** The text that is posted: `q`, and what starts with the appended "signature=". */
  function Posted(q: bytes, sig: bytes): bytes { q + ['&'] + (MARK + sig) }

  lemma PostedIs(q: bytes, sig: bytes)
    ensures q + "&" + SIGNATURE + "=" + sig == Posted(q, sig)
  {
  }

  lemma AppendedOccurs(q: bytes, sig: bytes)
    ensures Occurs(Posted(q, sig), MARK, |q| + 1)
  {
    assert (MARK + sig)[0..0 + |MARK|] == MARK;
    OccurrenceShifts(q + ['&'], MARK + sig, MARK, 0);
  }

  lemma EarlierOccurs(q: bytes, sig: bytes, at: nat)
    requires at <= |q|
    ensures Occurs(Posted(q, sig), MARK, at) <==> Occurs(q, MARK, at)
  {
    Names();
    if Occurs(Posted(q, sig), MARK, at) {
      OccursOnOneSide(q, '&', MARK + sig, MARK, at);
    } else if at + |MARK| <= |q| {
      OccurrenceStays(q, ['&'] + (MARK + sig), MARK, at);
      JoinsEitherWay(q, ['&'], MARK + sig);
    }
  }

  /** The server looks for the first "signature=": the one that was appended, or one before it. */
  lemma FindsMark(q: bytes, sig: bytes)
    ensures var at := Find(Posted(q, sig), MARK, 0);
      && at.Some? && at.value <= |q| + 1 && (at.value == |q| + 1 <==> !Contains(q, MARK))
      && (Contains(q, MARK) ==> at.value < |q|)
  {
    AppendedOccurs(q, sig);
    var at := Find(Posted(q, sig), MARK, 0).value;
    if Contains(q, MARK) {
      var earlier: nat :| Occurs(q, MARK, earlier);
      EarlierOccurs(q, sig, earlier);
    } else if at <= |q| {
      EarlierOccurs(q, sig, at);
    }
  }

  /** For every token and every parameters: the server hashes the text that was signed if and only if
      nothing in it is marked; otherwise it hashes only the beginning of it. */
  lemma ServerTextExact(token: bytes, parts: Parts, sig: bytes)
    ensures var q, text := PostQuery(token, parts),
        BeforeSignature(PostQuery(token, parts) + "&" + SIGNATURE + "=" + sig);
      text.Some? && text.value <= q && (text.value == q <==> !Marked(token, parts))
  {
    QueryMarked(token, parts);
    PostedIs(PostQuery(token, parts), sig);
    FindsMark(PostQuery(token, parts), sig);
  }

  lemma MarkedNameCuts(name: bytes, sig: bytes)
    requires Contains(name + "=", MARK)
    ensures var q := PostQuery("t", [(name, "1")]);
      var text := BeforeSignature(q + "&" + SIGNATURE + "=" + sig);
      text.Some? && text.value < q
  {
    assert (name, "1") in [(name, "1")];
    ServerTextExact("t", [(name, "1")], sig);
  }

  /** Inputs for which the server hashes too little: a parameter named xsignature. */
  lemma SuffixCutsText(sig: bytes)
    ensures var q := PostQuery("t", [("x" + SIGNATURE, "1")]);
      var text := BeforeSignature(q + "&" + SIGNATURE + "=" + sig);
      text.Some? && text.value < q
  {
    assert "x" + SIGNATURE + "=" == "x" + MARK;
    assert Occurs("x" + MARK, MARK, 1);
    MarkedNameCuts("x" + SIGNATURE, sig);
  }

  /** And one named signature=a. */
  lemma EqualsCutsText(sig: bytes)
    ensures var q := PostQuery("t", [(MARK + "a", "1")]);
      var text := BeforeSignature(q + "&" + SIGNATURE + "=" + sig);
      text.Some? && text.value < q
  {
    assert MARK + "a" + "=" == MARK + "a=";
    OccurrenceStays(MARK, "a=", MARK, 0);
    assert MARK[0..0 + |MARK|] == MARK;
    MarkedNameCuts(MARK + "a", sig);
  }

  // ---- acceptance

  lemma {:induction false} OtherKeys(parts: Parts, more: Parts, key: bytes)
    requires forall p | p in more :: p.0 != key
    requires key in AsMap(parts)
    ensures key in AsMap(parts + more) && AsMap(parts + more)[key] == AsMap(parts)[key]
  {
    var n := |more|;
    if n == 0 { assert parts + more == parts; }
    else {
      OtherKeys(parts, more[..n - 1], key);
      assert (parts + more)[..|parts| + n - 1] == parts + more[..n - 1];
    }
  }

  lemma ParsedFields(token: bytes, parts: Parts, sig: bytes)
    requires forall p | p in parts :: p.0 != SESSION_TOKEN
    ensures var m := AsMap(AllPrinted(token, parts, sig));
      SESSION_TOKEN in m && m[SESSION_TOKEN] == token && SIGNATURE in m && m[SIGNATURE] == sig
  {
    var first: Parts, all := [(SESSION_TOKEN, token)], AllPrinted(token, parts, sig);
    assert first[..0] == [];
    assert SESSION_TOKEN != SIGNATURE by { assert |SESSION_TOKEN| != |SIGNATURE|; }
    OtherKeys(first, parts, SESSION_TOKEN);
    assert all[..|all| - 1] == first + parts;
  }

  lemma {:induction false} FindsFirst(a: bytes, ch: byte, b: bytes, from: nat)
    requires ch !in a && from <= |a|
    ensures Find(a + [ch] + b, [ch], from) == Some(|a|)
    decreases |a| - from
  {
    var s := a + [ch] + b;
    assert s[from..from + 1] == [s[from]];
    if from < |a| {
      assert s[from] in a;
      FindsFirst(a, ch, b, from + 1);
    }
  }

  lemma {:induction false} FindsNothing(s: bytes, ch: byte, from: nat)
    requires ch !in s && from <= |s|
    ensures Find(s, [ch], from).None?
    decreases |s| - from
  {
    if from < |s| {
      assert s[from] in s && s[from..from + 1][0] != ch;
      FindsNothing(s, ch, from + 1);
    }
  }

  lemma PathOfTarget(path: bytes, parts: Parts)
    requires '?' !in path
    ensures PathOf(PathAndQuery(path, parts)) == path
  {
    if parts == [] {
      FindsNothing(path, '?', 0);
    } else {
      FindsFirst(path, '?', Pairs(parts, false), 0);
      assert path + "?" + Pairs(parts, false) == path + ['?'] + Pairs(parts, false);
    }
  }

  /** What a caller has to keep to for its requests to be signed as the server expects. */
  ghost predicate Signable(token: bytes, path: bytes, parts: Parts) {
    && Unreserved(token) && '?' !in path && PlainKeys(parts) && !Marked(token, parts)
    && (forall p | p in parts :: p.0 != SESSION_TOKEN)
  }

  predicate AcceptsSigned(tokens: Tokens, target: bytes, content: bytes, hash: Hash, scan: HexScan) {
    var parts := ParsedPost(content, scan);
    parts.Some? && Accepts(tokens, target, ReceivedPost(content), parts.value, hash)
  }

  /** The server accepts a signed request exactly if it knows the token and its own key and time give
      the same hash. */
  lemma AcceptedExactly(tokens: Tokens, token: bytes, time: bytes, key: int, path: bytes,
                        query: Parts, parts: Parts, hash: Hash, scan: HexScan)
    requires Signable(token, path, parts) && PrintsPlain(hash) && ReadsHex(scan)
    ensures var q := PostQuery(token, parts);
      AcceptsSigned(tokens, PathAndQuery(path, query), SignedPost(token, time, key, path, parts, hash), hash, scan)
      <==> (token in tokens
            && hash(SignedText(tokens[token].secretKey, tokens[token].time, path, q))
               == hash(SignedText(key, time, path, q)))
  {
    var sig := hash(SignedText(key, time, path, PostQuery(token, parts)));
    var all := AllPrinted(token, parts, sig);
    PostIsPairs(token, parts, sig);
    ServerTextExact(token, parts, sig);
    PrintedKeysArePlain(token, parts, sig);
    PostReadsBack(all, false, scan);
    ParsedFields(token, parts, sig);
    PathOfTarget(path, query);
  }

  /** A request to make: its path, its query and its form. */
  datatype Request = Request(path: bytes, query: Parts, parts: Parts)

  predicate OneAccepted(tokens: Tokens, token: bytes, time: bytes, key: int, r: Request, hash: Hash, scan: HexScan) {
    var post := SignedPost(token, time, key, r.path, r.parts, hash);
    AcceptsSigned(tokens, PathAndQuery(r.path, r.query), post, hash, scan)
  }

  /** One token's requests in turn: both sides renew the key after each accepted one. */
  predicate AllAccepted(tokens: Tokens, token: bytes, time: bytes, key: int, requests: seq<Request>,
                        hash: Hash, scan: HexScan)
    decreases |requests|
  {
    requests != [] ==>
      && OneAccepted(tokens, token, time, key, requests[0], hash, scan)
      && AllAccepted(Renewed(tokens, token), token, time, SecretKey.NextKey(key), requests[1..], hash, scan)
  }

  lemma AgreementIsAccepted(tokens: Tokens, token: bytes, time: bytes, key: int, r: Request, hash: Hash, scan: HexScan)
    requires token in tokens && tokens[token].time == time && tokens[token].secretKey == key
    requires Signable(token, r.path, r.parts) && PrintsPlain(hash) && ReadsHex(scan)
    ensures OneAccepted(tokens, token, time, key, r, hash, scan)
  {
    AcceptedExactly(tokens, token, time, key, r.path, r.query, r.parts, hash, scan);
  }

  /** A client and a server that start from the same key accept each other for ever. */
  lemma {:induction false} LockStepIsAccepted(tokens: Tokens, token: bytes, time: bytes, key: int,
                                              requests: seq<Request>, hash: Hash, scan: HexScan)
    requires token in tokens && tokens[token].time == time && tokens[token].secretKey == key
    requires forall i | 0 <= i < |requests| :: Signable(token, requests[i].path, requests[i].parts)
    requires PrintsPlain(hash) && ReadsHex(scan)
    ensures AllAccepted(tokens, token, time, key, requests, hash, scan)
    decreases |requests|
  {
    if requests != [] {
      AgreementIsAccepted(tokens, token, time, key, requests[0], hash, scan);
      LockStepIsAccepted(Renewed(tokens, token), token, time, SecretKey.NextKey(key), requests[1..], hash, scan);
    }
  }

  // ---- what is signed

  function DigitOf(ch: byte): nat { if '0' <= ch <= '9' then ch as nat - '0' as nat else 0 }

  /** Decimal digits read from the left. */
  function Value(s: bytes): nat { if s == [] then 0 else 10 * Value(s[..|s| - 1]) + DigitOf(s[|s| - 1]) }

  /** The decimal numeral of `n`, without leading zeros. */
  predicate IsNumeral(s: bytes, n: nat) {
    && s != [] && (forall ch | ch in s :: '0' <= ch <= '9')
    && Value(s) == n && (s[0] == '0' ==> |s| == 1)
  }

  lemma DigitAdded(s: bytes, ch: byte)
    ensures Value(s + [ch]) == 10 * Value(s) + DigitOf(ch)
  {
    assert (s + [ch])[..|s|] == s;
  }

  lemma {:induction false} DigitsAreNumeral(n: nat)
    ensures IsNumeral(Digits(n), n) && (n > 0 ==> Digits(n)[0] != '0')
  {
    var last := (n % 10 + '0' as nat) as char;
    if n < 10 {
      DigitAdded([], last);
      assert [] + [last] == Digits(n);
    } else {
      DigitsAreNumeral(n / 10);
      DigitAdded(Digits(n / 10), last);
    }
  }

  lemma {:induction false} LeadingDigit(s: bytes)
    requires s != [] && DigitOf(s[0]) > 0
    ensures Value(s) > 0
  {
    if |s| > 1 { LeadingDigit(s[..|s| - 1]); }
  }

  lemma Ending(s: bytes, a: nat)
    requires s != [] && Value(s) == a
    ensures Value(s[..|s| - 1]) == a / 10 && DigitOf(s[|s| - 1]) == a % 10
  {
  }

  lemma SameDigit(c: byte, d: byte)
    requires '0' <= c <= '9' && '0' <= d <= '9' && DigitOf(c) == DigitOf(d)
    ensures c == d
  {
  }

  lemma FrontIsNumeral(s: bytes, n: nat)
    requires IsNumeral(s, n) && |s| > 1
    ensures IsNumeral(s[..|s| - 1], n / 10) && n >= 10
  {
    Ending(s, n);
    var front := s[..|s| - 1];
    assert forall ch | ch in front :: ch in s;
    assert s[0] in s;
    LeadingDigit(front);
  }

  /** A number has one numeral. */
  lemma {:induction false} OneNumeral(s: bytes, t: bytes, n: nat)
    requires IsNumeral(s, n) && IsNumeral(t, n)
    ensures s == t
  {
    Ending(s, n);
    Ending(t, n);
    assert s[|s| - 1] in s && t[|t| - 1] in t;
    SameDigit(s[|s| - 1], t[|t| - 1]);
    if |s| > 1 { FrontIsNumeral(s, n); }
    if |t| > 1 { FrontIsNumeral(t, n); }
    if |s| > 1 && |t| > 1 { OneNumeral(s[..|s| - 1], t[..|t| - 1], n / 10); }
    assert s == s[..|s| - 1] + [s[|s| - 1]] && t == t[..|t| - 1] + [t[|t| - 1]];
  }

  /** What MakePost signs: the numeral of the key's remainder by 256, with the sign that % gives it in C++,
      and then time, path, a question mark and the query. */
  lemma SignsRemainder(key: int, q: int, r: int, numeral: bytes, time: bytes, path: bytes, query: bytes)
    requires key == q * 256 + r && -256 < r < 256 && (r > 0 ==> key > 0) && (r < 0 ==> key < 0)
    requires IsNumeral(numeral, if r < 0 then -r else r)
    ensures SignedText(key, time, path, query) == (if r < 0 then "-" + numeral else numeral) + time + path + "?" + query
  {
    var n := if r < 0 then -r else r;
    RemainderIs(key, q, r);
    DigitsAreNumeral(n);
    OneNumeral(numeral, Digits(n), n);
    LowByteIs(key, r);
  }

  lemma RemainderIs(key: int, q: int, r: int)
    requires key == q * 256 + r && -256 < r < 256 && (r > 0 ==> key > 0) && (r < 0 ==> key < 0)
    ensures if key >= 0 then key % 256 == r else -key % 256 == -r
  {
  }

  lemma LowByteIs(key: int, r: int)
    requires if key >= 0 then key % 256 == r else -key % 256 == -r
    ensures LowByte(key) == if r < 0 then "-" + Digits(-r) else Digits(r)
  {
  }

  lemma SamePrefix(a: bytes, b: bytes, c: bytes)
    ensures a + c == b + c <==> a == b
  {
    if a + c == b + c {
      assert |a| == |b|;
      assert a == (a + c)[..|a|] && b == (b + c)[..|b|];
    }
  }

  lemma TextIs(key: int, time: bytes, path: bytes, query: bytes)
    ensures SignedText(key, time, path, query) == LowByte(key) + (time + path + "?" + query)
  {
  }

  /** Two keys that are not negative sign the same text if and only if their low bytes agree. */
  lemma SignedAlike(a: nat, b: nat, time: bytes, path: bytes, query: bytes)
    ensures SignedText(a, time, path, query) == SignedText(b, time, path, query) <==> a % 256 == b % 256
  {
    TextIs(a, time, path, query);
    TextIs(b, time, path, query);
    SamePrefix(LowByte(a), LowByte(b), time + path + "?" + query);
    DigitsAreNumeral(a % 256);
    DigitsAreNumeral(b % 256);
  }

  lemma NumeralOf200()
    ensures IsNumeral("200", 200)
  {
    assert "200"[..2] == "20" && "20"[..1] == "2" && "2"[..0] == [];
    assert Value("2") == 2 && Value("20") == 20;
  }

  lemma OnePart(token: bytes, name: bytes, value: bytes)
    requires Unreserved(value)
    ensures PostQuery(token, [(name, value)]) == "session_token=" + token + "&" + name + "=" + value
  {
    var parts: Parts := [(name, value)];
    PostQueryGrows(token, parts, 0);
    UnreservedEncodes(value);
    assert parts[..1] == parts && parts[..0] == [];
    assert PostQuery(token, parts[..0]) == "session_token=" + token + [];
    Regrouped("session_token=" + token, name, value);
  }

  lemma Regrouped(head: bytes, name: bytes, value: bytes)
    ensures head + [] + ("&" + (name + "=" + value)) == head + "&" + name + "=" + value
  {
  }

  /** One post, as it is sent and as it is hashed. */
  lemma OnePost(time: bytes, hash: Hash)
    ensures var query := "session_token=" + "t" + "&" + "a" + "=" + "1";
      SignedPost("t", time, 200, "/x", [("a", "1")], hash)
      == query + "&signature=" + hash("200" + time + "/x" + "?" + query)
  {
    OnePart("t", "a", "1");
    NumeralOf200();
    var query := "session_token=" + "t" + "&" + "a" + "=" + "1";
    SignsRemainder(200, 0, 200, "200", time, "/x", query);
    Appended(query, hash("200" + time + "/x" + "?" + query));
  }

  lemma Appended(query: bytes, sig: bytes)
    ensures query + "&" + SIGNATURE + "=" + sig == query + "&signature=" + sig
  {
    assert query + "&" + SIGNATURE + "=" == query + ("&" + SIGNATURE + "=");
    assert "&" + SIGNATURE + "=" == "&signature=";
  }
}
