/** The query and form text of an API call: the printers of tokenless_api_base_static.cpp and the
    parsers of session_token_test_connection.cpp. */
module ApiQuery {
  import opened Basics
  import opened UrlEncode

  /** A parameter map in iteration order. */
  type Parts = seq<(bytes, bytes)>

  function AsMap(parts: Parts): map<bytes, bytes> {
    if parts == [] then map[]
    else AsMap(parts[..|parts| - 1])[parts[|parts| - 1].0 := parts[|parts| - 1].1]
  }

  function Pair(p: (bytes, bytes), plus: bool): bytes { p.0 + "=" + Encoded(p.1, plus) }

  /** The pairs joined by '&'. */
  function Pairs(parts: Parts, plus: bool): bytes {
    if parts == [] then []
    else if |parts| == 1 then Pair(parts[0], plus)
    else Pair(parts[0], plus) + "&" + Pairs(parts[1..], plus)
  }

  function PathAndQuery(path: bytes, parts: Parts): bytes {
    if parts == [] then path else path + "?" + Pairs(parts, false)
  }

  /** boost::split without token compression: one piece more than there are separators. */
  function Split(s: bytes, sep: byte): (pieces: seq<bytes>)
    ensures pieces != []
  {
    if s == [] then [[]]
    else
      var rest := Split(s[1..], sep);
      if s[0] == sep then [[]] + rest else [[s[0]] + rest[0]] + rest[1..]
  }

  /** What the server makes of one piece: a decoded key and a decoded or empty value. */
  function ParsedPair(piece: bytes, scan: HexScan): Option<(bytes, bytes)> {
    var kv := Split(piece, '=');
    var key := Decoded(kv[0], scan);
    var value := if |kv| > 1 then Decoded(kv[1], scan) else Some([]);
    if key.None? || value.None? then None else Some((key.value, value.value))
  }

  function ParsedPieces(pieces: seq<bytes>, scan: HexScan): Option<map<bytes, bytes>> {
    if pieces == [] then Some(map[])
    else
      var n := |pieces| - 1;
      var before, last := ParsedPieces(pieces[..n], scan), ParsedPair(pieces[n], scan);
      if before.None? || last.None? then None else Some(before.value[last.value.0 := last.value.1])
  }

  function Parsed(text: bytes, scan: HexScan): Option<map<bytes, bytes>> {
    ParsedPieces(Split(text, '&'), scan)
  }

  /** The request line's path and query, as ParseHeaders takes them apart; more than one '?' is a
      bad request. */
  function ParsedTarget(target: bytes, scan: HexScan): Option<(bytes, map<bytes, bytes>)> {
    var pieces := Split(target, '?');
    if |pieces| > 2 then None
    else if |pieces| == 1 then Some((pieces[0], map[]))
    else
      var query := Parsed(pieces[1], scan);
      if query.None? then None else Some((pieces[0], query.value))
  }

  predicate IsSpace(ch: byte) { ch == ' ' || 9 <= ch as nat <= 13 }

  function FirstLine(content: bytes): bytes {
    if content == [] || content[0] as nat == 10 then [] else [content[0]] + FirstLine(content[1..])
  }

  function TrimRight(s: bytes): bytes {
    if s != [] && IsSpace(s[|s| - 1]) then TrimRight(s[..|s| - 1]) else s
  }

  /** What HandleContentRead keeps of the content: its first line, trimmed. */
  function ReceivedPost(content: bytes): bytes { TrimRight(FirstLine(content)) }

  function ParsedPost(content: bytes, scan: HexScan): Option<map<bytes, bytes>> {
    var line := ReceivedPost(content);
    if line == [] then Some(map[]) else Parsed(line, scan)
  }

  // ---- the printers

  method MakePathAndQuery(path: bytes, parts: Parts) returns (target: bytes)
    ensures target == PathAndQuery(path, parts)
  {
    var query: bytes := [];
    var separator: byte := '?';
    for i := 0 to |parts|
      invariant separator == if i == 0 then '?' else '&'
      invariant query == Query(parts, i)
    {
      QueryGrows(parts, i);
      var value := UrlEncodeBase(parts[i].1, false);
      query := query + ([separator] + (parts[i].0 + "=" + value));
      separator := '&';
    }
    assert parts[..|parts|] == parts;
    target := path + query;
  }

  /** The query printed from the first `i` parameters. */
  function Query(parts: Parts, i: nat): bytes
    requires i <= |parts|
  {
    if i == 0 then [] else "?" + Pairs(parts[..i], false)
  }

  lemma QueryGrows(parts: Parts, i: nat)
    requires i < |parts|
    ensures Query(parts, i + 1) == Query(parts, i) + ([if i == 0 then '?' else '&'] + Pair(parts[i], false))
  {
    PairsGrow(parts, i, false);
    if i > 0 {
      var before, p := Pairs(parts[..i], false), Pair(parts[i], false);
      assert "?" + (before + "&" + p) == ("?" + before) + ("&" + p);
    }
  }

  method MakePost(parts: Parts) returns (post: bytes)
    ensures post == Pairs(parts, true)
  {
    post := [];
    var separator: bytes := [];
    for i := 0 to |parts|
      invariant separator == if i == 0 then [] else "&"
      invariant post == Pairs(parts[..i], true)
    {
      PairsGrow(parts, i, true);
      var value := UrlEncodeBase(parts[i].1, true);
      post := post + separator + (parts[i].0 + "=" + value);
      separator := "&";
    }
    assert parts[..|parts|] == parts;
  }

  lemma {:induction false} PairsGrow(parts: Parts, i: nat, plus: bool)
    requires i < |parts|
    ensures Pairs(parts[..i + 1], plus)
         == if i == 0 then Pair(parts[0], plus) else Pairs(parts[..i], plus) + "&" + Pair(parts[i], plus)
  {
    if i == 0 {
      assert parts[..1] == [parts[0]];
    } else {
      PairsGrow(parts[1..], i - 1, plus);
      assert parts[..i + 1][1..] == parts[1..][..i] && parts[..i][1..] == parts[1..][..i - 1];
      if i > 1 {
        var first, rest, last := Pair(parts[0], plus), Pairs(parts[1..][..i - 1], plus), Pair(parts[i], plus);
        assert first + "&" + (rest + "&" + last) == first + "&" + rest + "&" + last;
      }
    }
  }

  // ---- the parsers

  /** One character of the loop in SplitText. */
  lemma SplitsOne(s: bytes, i: nat, sep: byte, piece: bytes, pieces: seq<bytes>)
    requires i < |s| && sep !in piece
    ensures s[i] != sep ==> piece + s[i..] == (piece + [s[i]]) + s[i + 1..]
    ensures s[i] == sep ==> pieces + Split(piece + s[i..], sep) == (pieces + [piece]) + Split(s[i + 1..], sep)
  {
    if s[i] == sep {
      assert piece + s[i..] == piece + [sep] + s[i + 1..];
      SplitFirst(piece, sep, s[i + 1..]);
    }
  }

  /** boost::split with is_any_of one character. */
  method SplitText(s: bytes, sep: byte) returns (pieces: seq<bytes>)
    ensures pieces == Split(s, sep)
  {
    pieces := [];
    var piece: bytes := [];
    assert piece + s[0..] == s;
    for i := 0 to |s|
      invariant sep !in piece && pieces + Split(piece + s[i..], sep) == Split(s, sep)
    {
      SplitsOne(s, i, sep, piece, pieces);
      if s[i] == sep {
        pieces := pieces + [piece];
        piece := [];
        assert piece + s[i + 1..] == s[i + 1..];
      } else {
        piece := piece + [s[i]];
      }
    }
    assert piece + s[|s|..] == piece;
    SplitWhole(piece, sep);
    pieces := pieces + [piece];
  }

  /** One piece of the loop in ParseParts. */
  lemma ParsesOne(pieces: seq<bytes>, i: nat, scan: HexScan)
    requires i < |pieces| && ParsedPieces(pieces[..i], scan).Some?
    ensures var p := ParsedPair(pieces[i], scan);
      if p.None? then ParsedPieces(pieces, scan).None?
      else ParsedPieces(pieces[..i + 1], scan) == Some(ParsedPieces(pieces[..i], scan).value[p.value.0 := p.value.1])
  {
    assert pieces[..i + 1][..i] == pieces[..i];
    if ParsedPair(pieces[i], scan).None? { FailureStays(pieces, i + 1, scan); }
  }

  method ParsePair(piece: bytes, scan: HexScan) returns (pair: Option<(bytes, bytes)>)
    ensures pair == ParsedPair(piece, scan)
  {
    var kv := SplitText(piece, '=');
    var key := UrlUnencodeBase(kv[0], scan);
    var value := Some([]);
    if |kv| > 1 {
      value := UrlUnencodeBase(kv[1], scan);
    }
    return if key.None? || value.None? then None else Some((key.value, value.value));
  }

  /** The loop over '&' pieces that fills query_parts and post_parts. */
  method ParseParts(text: bytes, scan: HexScan) returns (parts: Option<map<bytes, bytes>>)
    ensures parts == Parsed(text, scan)
  {
    var pieces := SplitText(text, '&');
    var filled: map<bytes, bytes> := map[];
    for i := 0 to |pieces|
      invariant ParsedPieces(pieces[..i], scan) == Some(filled)
    {
      ParsesOne(pieces, i, scan);
      var pair := ParsePair(pieces[i], scan);
      if pair.None? {
        return None;
      }
      filled := filled[pair.value.0 := pair.value.1];
    }
    assert pieces[..|pieces|] == pieces;
    return Some(filled);
  }

  /** ParseHeaders, from the request line's target on. */
  method ParseTarget(target: bytes, scan: HexScan) returns (parsed: Option<(bytes, map<bytes, bytes>)>)
    ensures parsed == ParsedTarget(target, scan)
  {
    var pieces := SplitText(target, '?');
    if |pieces| > 2 {
      return None;
    }
    var parts: Option<map<bytes, bytes>> := Some(map[]);
    if |pieces| > 1 {
      parts := ParseParts(pieces[1], scan);
    }
    return if parts.None? then None else Some((pieces[0], parts.value));
  }

  lemma {:induction false} FailureStays(pieces: seq<bytes>, i: nat, scan: HexScan)
    requires i <= |pieces| && ParsedPieces(pieces[..i], scan).None?
    ensures ParsedPieces(pieces, scan).None?
    decreases |pieces|
  {
    if i == |pieces| { assert pieces[..i] == pieces; }
    else {
      assert pieces[..|pieces| - 1][..i] == pieces[..i];
      FailureStays(pieces[..|pieces| - 1], i, scan);
    }
  }

  // ---- splitting undoes joining

  lemma {:induction false} SplitWhole(s: bytes, sep: byte)
    requires sep !in s
    ensures Split(s, sep) == [s]
  {
    if s != [] {
      SplitWhole(s[1..], sep);
      assert [s[0]] + s[1..] == s;
    }
  }

  lemma {:induction false} SplitFirst(a: bytes, sep: byte, b: bytes)
    requires sep !in a
    ensures Split(a + [sep] + b, sep) == [a] + Split(b, sep)
  {
    if a == [] {
      assert (a + [sep] + b)[1..] == b;
    } else {
      SplitFirst(a[1..], sep, b);
      assert (a + [sep] + b)[1..] == a[1..] + [sep] + b;
      assert [a[0]] + a[1..] == a && ([a[1..]] + Split(b, sep))[1..] == Split(b, sep);
    }
  }

  function AllPairs(parts: Parts, plus: bool): seq<bytes> {
    seq(|parts|, i requires 0 <= i < |parts| => Pair(parts[i], plus))
  }

  ghost predicate PlainKeys(parts: Parts) { forall p | p in parts :: Unreserved(p.0) }

  lemma PairHasNoSeparator(p: (bytes, bytes), plus: bool)
    requires Unreserved(p.0)
    ensures '&' !in Pair(p, plus) && '?' !in Pair(p, plus)
    ensures '=' !in p.0 && '=' !in Encoded(p.1, plus)
    ensures forall ch | ch in Pair(p, plus) :: !IsSpace(ch)
  {
    EncodedCharacters(p.1, plus);
    assert forall ch | ch in Pair(p, plus) :: ch in p.0 || ch == '=' || ch in Encoded(p.1, plus);
  }

  lemma {:induction false} SplitPairs(parts: Parts, plus: bool)
    requires parts != [] && PlainKeys(parts)
    ensures Split(Pairs(parts, plus), '&') == AllPairs(parts, plus)
  {
    PairHasNoSeparator(parts[0], plus);
    if |parts| == 1 {
      SplitWhole(Pair(parts[0], plus), '&');
    } else {
      SplitPairs(parts[1..], plus);
      SplitFirst(Pair(parts[0], plus), '&', Pairs(parts[1..], plus));
      assert AllPairs(parts, plus) == [Pair(parts[0], plus)] + AllPairs(parts[1..], plus);
    }
  }

  lemma PairReadsBack(p: (bytes, bytes), plus: bool, scan: HexScan)
    requires Unreserved(p.0) && ReadsHex(scan)
    ensures ParsedPair(Pair(p, plus), scan) == Some(p)
  {
    PairHasNoSeparator(p, plus);
    SplitFirst(p.0, '=', Encoded(p.1, plus));
    SplitWhole(Encoded(p.1, plus), '=');
    UnreservedDecodes(p.0, scan);
    DecodeInvertsEncode(p.1, plus, scan);
  }

  lemma {:induction false} PiecesReadBack(parts: Parts, plus: bool, scan: HexScan)
    requires PlainKeys(parts) && ReadsHex(scan)
    ensures ParsedPieces(AllPairs(parts, plus), scan) == Some(AsMap(parts))
  {
    if parts != [] {
      var n := |parts| - 1;
      PiecesReadBack(parts[..n], plus, scan);
      PairReadsBack(parts[n], plus, scan);
      assert AllPairs(parts, plus)[..n] == AllPairs(parts[..n], plus);
    }
  }

  lemma {:induction false} PairsCharacters(parts: Parts, plus: bool)
    requires PlainKeys(parts)
    ensures '?' !in Pairs(parts, plus)
    ensures forall ch | ch in Pairs(parts, plus) :: !IsSpace(ch)
  {
    if parts != [] {
      PairHasNoSeparator(parts[0], plus);
      if |parts| > 1 { PairsCharacters(parts[1..], plus); }
    }
  }

  /** Query round trip: whatever values a parameter map holds, the server reads it back from the
      request line that was printed. */
  lemma QueryReadsBack(path: bytes, parts: Parts, scan: HexScan)
    requires PlainKeys(parts) && '?' !in path && ReadsHex(scan)
    ensures ParsedTarget(PathAndQuery(path, parts), scan) == Some((path, AsMap(parts)))
  {
    if parts == [] {
      SplitWhole(path, '?');
    } else {
      SplitFirst(path, '?', Pairs(parts, false));
      PairsCharacters(parts, false);
      SplitWhole(Pairs(parts, false), '?');
      SplitPairs(parts, false);
      PiecesReadBack(parts, false, scan);
    }
  }

  lemma {:induction false} LineOfPlain(s: bytes)
    requires forall ch | ch in s :: !IsSpace(ch)
    ensures TrimRight(FirstLine(s)) == s
  {
    FirstLineOfPlain(s);
  }

  lemma {:induction false} FirstLineOfPlain(s: bytes)
    requires forall ch | ch in s :: !IsSpace(ch)
    ensures FirstLine(s) == s
  {
    if s != [] {
      assert s[0] in s && forall ch | ch in s[1..] :: ch in s;
      FirstLineOfPlain(s[1..]);
    }
  }

  /** Form round trip, the same for a POST body. */
  lemma PostReadsBack(parts: Parts, plus: bool, scan: HexScan)
    requires PlainKeys(parts) && ReadsHex(scan)
    ensures ReceivedPost(Pairs(parts, plus)) == Pairs(parts, plus)
    ensures ParsedPost(Pairs(parts, plus), scan) == Some(AsMap(parts))
  {
    PairsCharacters(parts, plus);
    LineOfPlain(Pairs(parts, plus));
    if parts != [] {
      SplitPairs(parts, plus);
      PiecesReadBack(parts, plus, scan);
    }
  }

  // ---- texts that the printers do not write

  /** A piece without '=' is a key with an empty value, and behind a second '=' nothing counts. */
  lemma OddPieces(key: bytes, value: bytes, rest: bytes, scan: HexScan)
    requires '=' !in key && '=' !in value
    ensures ParsedPair(key, scan)
         == if Decoded(key, scan).None? then None else Some((Decoded(key, scan).value, []))
    ensures ParsedPair(key + "=" + value + "=" + rest, scan)
         == if Decoded(key, scan).None? || Decoded(value, scan).None? then None
            else Some((Decoded(key, scan).value, Decoded(value, scan).value))
  {
    SplitWhole(key, '=');
    SplitFirst(value, '=', rest);
    SplitFirst(key, '=', value + ['='] + rest);
    assert key + "=" + value + "=" + rest == key + ['='] + (value + ['='] + rest);
  }

  lemma {:induction false} LineEnds(s: bytes, rest: bytes)
    requires forall ch | ch in s :: ch as nat != 10
    ensures FirstLine(s + [10 as char] + rest) == s
  {
    if s == [] {
      assert s + [10 as char] + rest == [10 as char] + rest;
    } else {
      assert s[0] in s && forall ch | ch in s[1..] :: ch in s;
      LineEnds(s[1..], rest);
      assert (s + [10 as char] + rest)[1..] == s[1..] + [10 as char] + rest;
    }
  }

  lemma {:induction false} Trims(s: bytes, spaces: bytes)
    requires forall ch | ch in spaces :: ch == ' ' || ch as nat in {9, 10, 11, 12, 13}
    requires s == [] || !(s[|s| - 1] == ' ' || s[|s| - 1] as nat in {9, 10, 11, 12, 13})
    ensures TrimRight(s + spaces) == s
  {
    if spaces == [] {
      assert s + spaces == s;
    } else {
      var n := |spaces| - 1;
      assert spaces[n] in spaces && forall ch | ch in spaces[..n] :: ch in spaces;
      Trims(s, spaces[..n]);
      assert (s + spaces)[..|s + spaces| - 1] == s + spaces[..n];
    }
  }

  /** Of a body only the first line counts, without the white space at its end. */
  lemma FirstLineCounts(s: bytes, spaces: bytes, rest: bytes)
    requires forall ch | ch in s + spaces :: ch as nat != 10
    requires forall ch | ch in spaces :: ch == ' ' || ch as nat in {9, 11, 12, 13}
    requires s == [] || !(s[|s| - 1] == ' ' || s[|s| - 1] as nat in {9, 10, 11, 12, 13})
    ensures ReceivedPost(s + spaces + [10 as char] + rest) == s
  {
    LineEnds(s + spaces, rest);
    Trims(s, spaces);
  }

  /** A second question mark makes a bad request, whatever surrounds it. */
  lemma TwoQuestionMarks(path: bytes, query: bytes, rest: bytes, scan: HexScan)
    ensures ParsedTarget(path + ['?'] + query + ['?'] + rest, scan).None?
  {
    SplitCounts(path + ['?'] + query, '?', rest);
    SplitCounts(path, '?', query);
  }

  lemma {:induction false} SplitCounts(a: bytes, sep: byte, b: bytes)
    ensures |Split(a + [sep] + b, sep)| == |Split(a, sep)| + |Split(b, sep)|
  {
    if a == [] {
      assert a + [sep] + b == [sep] + b && ([sep] + b)[1..] == b;
    } else {
      SplitCounts(a[1..], sep, b);
      assert (a + [sep] + b)[1..] == a[1..] + [sep] + b;
    }
  }
}
