/** src/mediafire_sdk/utils/url_encode.cpp: percent-encoding as in sections 2.1 and 2.3 of RFC 3986,
    with the form variant that writes a space as '+'. */
module UrlEncode {
  import opened Basics

  predicate RequiresPercentEncoding(ch: byte) {
    !( 'A' <= ch <= 'Z' || 'a' <= ch <= 'z' || '0' <= ch <= '9'
       || ch == '-' || ch == '_' || ch == '.' || ch == '~')
  }

  const HEX_DIGITS: bytes := "0123456789ABCDEF"

  function HexValue(ch: byte): Option<nat> {
    if '0' <= ch <= '9' then Some(ch as nat - '0' as nat)
    else if 'A' <= ch <= 'F' then Some(ch as nat - 'A' as nat + 10)
    else if 'a' <= ch <= 'f' then Some(ch as nat - 'a' as nat + 10)
    else None
  }

  /** What sscanf("%hx") makes of two characters, cut down to a char. */
  type HexScan = (byte, byte) -> Option<byte>

  /** The scanner reads two hexadecimal digits; anything else it may treat as it likes. */
  ghost predicate ReadsHex(scan: HexScan) {
    forall hi: byte, lo: byte ::
      HexValue(hi).Some? && HexValue(lo).Some? ==>
        scan(hi, lo) == Some((16 * HexValue(hi).value + HexValue(lo).value) as char)
  }

  /** snprintf("%02X") after a percent sign. */
  function Escaped(ch: byte): bytes {
    ['%', HEX_DIGITS[ch as nat / 16], HEX_DIGITS[ch as nat % 16]]
  }

  function EncodedByte(ch: byte, plus: bool): bytes {
    if !RequiresPercentEncoding(ch) then [ch] else if plus && ch == ' ' then "+" else Escaped(ch)
  }

  function Encoded(s: bytes, plus: bool): bytes {
    if s == [] then [] else EncodedByte(s[0], plus) + Encoded(s[1..], plus)
  }

  /** The first pass: the decoded length, or nothing if a percent sign is cut short. */
  function DecodedSize(s: bytes): Option<nat> {
    if s == [] then Some(0)
    else if s[0] == '%' && |s| < 3 then None
    else
      var rest := DecodedSize(s[if s[0] == '%' then 3 else 1..]);
      if rest.None? then None else Some(rest.value + 1)
  }

  /** One unit of the second pass at the front of `s`: the decoded byte, or nothing. */
  function DecodedUnit(s: bytes, scan: HexScan): Option<byte>
    requires s != [] && (s[0] == '%' ==> |s| >= 3)
  {
    if s[0] == '%' then scan(s[1], s[2])
    else if s[0] == '+' then Some(' ')
    else if RequiresPercentEncoding(s[0]) then None
    else Some(s[0])
  }

  function Decoded(s: bytes, scan: HexScan): Option<bytes> {
    if s == [] then Some([])
    else if s[0] == '%' && |s| < 3 then None
    else
      var first, rest := DecodedUnit(s, scan), Decoded(s[if s[0] == '%' then 3 else 1..], scan);
      if first.None? || rest.None? then None else Some([first.value] + rest.value)
  }

  lemma EncodesOne(s: bytes, i: nat, plus: bool, before: bytes)
    requires i < |s|
    ensures before + Encoded(s[i..], plus) == (before + EncodedByte(s[i], plus)) + Encoded(s[i + 1..], plus)
  {
    assert s[i..][1..] == s[i + 1..];
  }

  method UrlEncodeBase(s: bytes, plus: bool) returns (encoded: bytes)
    ensures encoded == Encoded(s, plus)
  {
    encoded := [];
    var i := 0;
    while i < |s|
      invariant 0 <= i <= |s|
      invariant encoded + Encoded(s[i..], plus) == Encoded(s, plus)
    {
      EncodesOne(s, i, plus, encoded);
      if !RequiresPercentEncoding(s[i]) {
        encoded := encoded + [s[i]];
      } else if plus && s[i] == ' ' {
        encoded := encoded + "+";
      } else {
        encoded := encoded + ['%', HEX_DIGITS[s[i] as nat / 16], HEX_DIGITS[s[i] as nat % 16]];
      }
      i := i + 1;
    }
  }

  /** The first pass as the source runs it, with its two checks after a percent sign. */
  method MeasureDecoded(s: bytes) returns (size: Option<nat>)
    ensures size == DecodedSize(s)
  {
    var i, n := 0, 0;
    while i < |s|
      invariant 0 <= i <= |s|
      invariant DecodedSize(s) == match DecodedSize(s[i..]) case None => None case Some(m) => Some(n + m)
    {
      if s[i] == '%' {
        if i + 1 == |s| || i + 2 == |s| {
          return None;
        }
        assert s[i..][3..] == s[i + 3..];
        i := i + 2;
      } else {
        assert s[i..][1..] == s[i + 1..];
      }
      n := n + 1;
      i := i + 1;
    }
    return Some(n);
  }

  function After(out: bytes, rest: Option<bytes>): Option<bytes> {
    if rest.None? then None else Some(out + rest.value)
  }

  lemma AfterNothing(out: bytes, rest: Option<bytes>)
    ensures After([], rest) == rest && After(out, Some([])) == Some(out)
  {
    assert out + [] == out;
    if rest.Some? { assert [] + rest.value == rest.value; }
  }

  lemma DecodesOne(s: bytes, i: nat, scan: HexScan, out: bytes)
    requires i < |s| && DecodedSize(s[i..]).Some?
    ensures var unit, n := DecodedUnit(s[i..], scan), if s[i] == '%' then 3 else 1;
      && DecodedSize(s[i..]).value == 1 + DecodedSize(s[i + n..]).value
      && After(out, Decoded(s[i..], scan))
         == if unit.None? then None else After(out + [unit.value], Decoded(s[i + n..], scan))
  {
    var n := if s[i] == '%' then 3 else 1;
    assert s[i..][n..] == s[i + n..];
    var unit, rest := DecodedUnit(s[i..], scan), Decoded(s[i + n..], scan);
    if unit.Some? && rest.Some? { assert out + ([unit.value] + rest.value) == out + [unit.value] + rest.value; }
  }

  /** Both passes. The second one looks two characters past each percent sign without checking: on
      anything the first pass let through, both are there. */
  method UrlUnencodeBase(s: bytes, scan: HexScan) returns (decoded: Option<bytes>)
    ensures decoded == Decoded(s, scan)
    ensures decoded.Some? ==> DecodedSize(s) == Some(|decoded.value|)
  {
    var size := MeasureDecoded(s);
    if size.None? {
      CutShortFails(s, scan);
      return None;
    }
    var out: bytes := [];
    var i := 0;
    assert s[0..] == s;
    AfterNothing(out, Decoded(s, scan));
    while i < |s|
      invariant 0 <= i <= |s|
      invariant DecodedSize(s[i..]).Some? && |out| + DecodedSize(s[i..]).value == size.value
      invariant Decoded(s, scan) == After(out, Decoded(s[i..], scan))
    {
      DecodesOne(s, i, scan, out);
      var ch: Option<byte>;
      if s[i] == '%' {
        ch := scan(s[i + 1], s[i + 2]);
        i := i + 2;
      } else if s[i] == '+' {
        ch := Some(' ');
      } else {
        ch := if RequiresPercentEncoding(s[i]) then None else Some(s[i]);
      }
      if ch.None? {
        return None;
      }
      out := out + [ch.value];
      i := i + 1;
    }
    AfterNothing(out, Some([]));
    return Some(out);
  }

  lemma {:induction false} CutShortFails(s: bytes, scan: HexScan)
    requires DecodedSize(s).None?
    ensures Decoded(s, scan).None?
  {
    if s != [] && !(s[0] == '%' && |s| < 3) { CutShortFails(s[if s[0] == '%' then 3 else 1..], scan); }
  }

  lemma EscapedReadsBack(ch: byte, scan: HexScan)
    requires ReadsHex(scan)
    ensures scan(Escaped(ch)[1], Escaped(ch)[2]) == Some(ch)
  {
    var hi, lo := HEX_DIGITS[ch as nat / 16], HEX_DIGITS[ch as nat % 16];
    DigitValue(ch as nat / 16);
    DigitValue(ch as nat % 16);
    assert 16 * HexValue(hi).value + HexValue(lo).value == ch as nat;
  }

  lemma DigitValue(n: nat)
    requires n < 16
    ensures HexValue(HEX_DIGITS[n]) == Some(n)
  {
  }

  lemma UnitReadsBack(ch: byte, plus: bool, rest: bytes, scan: HexScan)
    requires ReadsHex(scan)
    ensures Decoded(EncodedByte(ch, plus) + rest, scan)
         == match Decoded(rest, scan) case None => None case Some(r) => Some([ch] + r)
  {
    var e := EncodedByte(ch, plus);
    var s := e + rest;
    assert s[|e|..] == rest;
    if RequiresPercentEncoding(ch) && !(plus && ch == ' ') { EscapedReadsBack(ch, scan); }
  }

  /** Decoding inverts both encoders, for every byte string and every scanner that reads hex. */
  lemma {:induction false} DecodeInvertsEncode(s: bytes, plus: bool, scan: HexScan)
    requires ReadsHex(scan)
    ensures Decoded(Encoded(s, plus), scan) == Some(s)
  {
    if s != [] {
      DecodeInvertsEncode(s[1..], plus, scan);
      UnitReadsBack(s[0], plus, Encoded(s[1..], plus), scan);
      assert s == [s[0]] + s[1..];
    }
  }

  predicate Unreserved(s: bytes) { forall ch | ch in s :: !RequiresPercentEncoding(ch) }

  /** An encoded text consists of unreserved characters, percent signs and, for forms, plus signs. */
  lemma {:induction false} EncodedCharacters(s: bytes, plus: bool)
    ensures forall ch | ch in Encoded(s, plus) :: !RequiresPercentEncoding(ch) || ch == '%' || ch == '+'
  {
    if s != [] {
      EncodedCharacters(s[1..], plus);
      if RequiresPercentEncoding(s[0]) && !(plus && s[0] == ' ') {
        DigitIsUnreserved(s[0] as nat / 16);
        DigitIsUnreserved(s[0] as nat % 16);
      }
    }
  }

  lemma DigitIsUnreserved(n: nat)
    requires n < 16
    ensures !RequiresPercentEncoding(HEX_DIGITS[n])
  {
  }

  /** Unreserved text is its own encoding, so it also decodes to itself. */
  lemma {:induction false} UnreservedDecodes(s: bytes, scan: HexScan)
    requires Unreserved(s)
    ensures Decoded(s, scan) == Some(s)
  {
    if s != [] {
      assert s == [s[0]] + s[1..] && s[0] in s;
      assert forall ch | ch in s[1..] :: ch in s;
      UnreservedDecodes(s[1..], scan);
    }
  }

  // ---- what the encoder can have written

  predicate UpperHex(ch: byte) { '0' <= ch <= '9' || 'A' <= ch <= 'F' }

  /** Section 2.1 of RFC 3986 asks for upper-case digits; and only what needs an escape may have one. */
  predicate CanonicalEscape(hi: byte, lo: byte, plus: bool) {
    && UpperHex(hi) && UpperHex(lo)
    && var ch := (16 * HexValue(hi).value + HexValue(lo).value) as char;
      RequiresPercentEncoding(ch) && !(plus && ch == ' ')
  }

  predicate Canonical(s: bytes, plus: bool) {
    s != [] ==>
      if s[0] == '%' then |s| >= 3 && CanonicalEscape(s[1], s[2], plus) && Canonical(s[3..], plus)
      else (if s[0] == '+' then plus else !RequiresPercentEncoding(s[0])) && Canonical(s[1..], plus)
  }

  lemma UpperDigit(ch: byte)
    requires UpperHex(ch)
    ensures HexValue(ch).Some? && HexValue(ch).value < 16 && HEX_DIGITS[HexValue(ch).value] == ch
  {
  }

  lemma DigitIsUpper(n: nat)
    requires n < 16
    ensures UpperHex(HEX_DIGITS[n]) && HexValue(HEX_DIGITS[n]) == Some(n)
  {
  }

  lemma TwoDigits(n: nat, hi: nat, lo: nat)
    requires lo < 16 && n == 16 * hi + lo
    ensures n / 16 == hi && n % 16 == lo
  {
  }

  lemma UpperIsEscape(ch: byte, hi: byte, lo: byte)
    requires UpperHex(hi) && UpperHex(lo) && ch as nat == 16 * HexValue(hi).value + HexValue(lo).value
    ensures Escaped(ch) == ['%', hi, lo]
  {
    UpperDigit(hi);
    UpperDigit(lo);
    TwoDigits(ch as nat, HexValue(hi).value, HexValue(lo).value);
  }

  lemma EscapeIsUpper(ch: byte, hi: byte, lo: byte)
    requires Escaped(ch) == ['%', hi, lo]
    ensures UpperHex(hi) && UpperHex(lo) && ch as nat == 16 * HexValue(hi).value + HexValue(lo).value
  {
    assert Escaped(ch)[1] == hi && Escaped(ch)[2] == lo;
    DigitIsUpper(ch as nat / 16);
    DigitIsUpper(ch as nat % 16);
  }

  lemma OneOrThree(ch: byte, plus: bool)
    ensures var e := EncodedByte(ch, plus);
      && (|e| == 1 || |e| == 3) && (|e| == 3 <==> RequiresPercentEncoding(ch) && !(plus && ch == ' '))
      && (|e| == 3 ==> e == Escaped(ch)) && (e[0] == '%' <==> |e| == 3)
  {
  }

  lemma EscapeCanonical(hi: byte, lo: byte, plus: bool, scan: HexScan)
    requires ReadsHex(scan) && scan(hi, lo).Some?
    ensures EncodedByte(scan(hi, lo).value, plus) == ['%', hi, lo] <==> CanonicalEscape(hi, lo, plus)
  {
    var ch := scan(hi, lo).value;
    if CanonicalEscape(hi, lo, plus) { UpperIsEscape(ch, hi, lo); }
    if EncodedByte(ch, plus) == ['%', hi, lo] {
      OneOrThree(ch, plus);
      EscapeIsUpper(ch, hi, lo);
    }
  }

  lemma PlainCanonical(ch: byte, plus: bool, scan: HexScan)
    requires ch != '%' && DecodedUnit([ch], scan).Some?
    ensures EncodedByte(DecodedUnit([ch], scan).value, plus) == [ch]
       <==> if ch == '+' then plus else !RequiresPercentEncoding(ch)
  {
  }

  lemma SameFront(a: bytes, x: bytes, b: bytes, y: bytes)
    requires a != [] && b != [] && (|a| == |b| || a[0] != b[0])
    ensures a + x == b + y <==> a == b && x == y
  {
    if a + x == b + y {
      assert (a + x)[0] == a[0] && (b + y)[0] == b[0];
      assert a == (a + x)[..|a|] && x == (a + x)[|a|..];
      assert b == (b + y)[..|b|] && y == (b + y)[|b|..];
    }
  }

  /** One unit at the front. */
  lemma UnitCanonical(s: bytes, n: nat, plus: bool, scan: HexScan)
    requires ReadsHex(scan) && s != [] && n == (if s[0] == '%' then 3 else 1) <= |s| && DecodedUnit(s, scan).Some?
    ensures EncodedByte(DecodedUnit(s, scan).value, plus) == s[..n]
       <==> if s[0] == '%' then CanonicalEscape(s[1], s[2], plus)
            else if s[0] == '+' then plus else !RequiresPercentEncoding(s[0])
    ensures var e := EncodedByte(DecodedUnit(s, scan).value, plus); |e| == n || e[0] != s[0]
  {
    OneOrThree(DecodedUnit(s, scan).value, plus);
    if s[0] == '%' {
      assert s[..n] == ['%', s[1], s[2]];
      EscapeCanonical(s[1], s[2], plus, scan);
    } else {
      assert s[..n] == [s[0]];
      PlainCanonical(s[0], plus, scan);
    }
  }

  /** Decoding forgets how a text was written: encoding gives it back if and only if it is canonical. */
  lemma {:induction false} EncodeInvertsDecode(s: bytes, plus: bool, scan: HexScan)
    requires ReadsHex(scan) && Decoded(s, scan).Some?
    ensures Encoded(Decoded(s, scan).value, plus) == s <==> Canonical(s, plus)
  {
    if s != [] {
      var n := if s[0] == '%' then 3 else 1;
      var unit, rest := DecodedUnit(s, scan).value, Decoded(s[n..], scan).value;
      EncodeInvertsDecode(s[n..], plus, scan);
      UnitCanonical(s, n, plus, scan);
      EncodedFirst(unit, rest, plus);
      assert s == s[..n] + s[n..] && Decoded(s, scan).value == [unit] + rest;
      SameFront(EncodedByte(unit, plus), Encoded(rest, plus), s[..n], s[n..]);
    }
  }

  lemma EncodedFirst(ch: byte, rest: bytes, plus: bool)
    ensures Encoded([ch] + rest, plus) == EncodedByte(ch, plus) + Encoded(rest, plus)
  {
    assert ([ch] + rest)[1..] == rest;
  }

  lemma OneEscape(hi: byte, lo: byte, ch: byte, scan: HexScan)
    requires ReadsHex(scan) && HexValue(hi).Some? && HexValue(lo).Some?
    requires ch as nat == 16 * HexValue(hi).value + HexValue(lo).value
    ensures Decoded(['%', hi, lo], scan) == Some([ch])
  {
    var s: bytes := ['%', hi, lo];
    assert s[3..] == [];
    assert Decoded(s[3..], scan) == Some([]) && scan(hi, lo) == Some(ch);
    assert [ch] + [] == [ch];
  }

  /** Texts of other writers: a lower-case digit, and an escape that nobody needs. */
  lemma OtherWritings(plus: bool, scan: HexScan)
    requires ReadsHex(scan)
    ensures Decoded("%2f", scan) == Some("/") && !Canonical("%2f", plus)
    ensures Decoded("%41", scan) == Some("A") && !Canonical("%41", plus)
  {
    OneEscape('2', 'f', '/', scan);
    OneEscape('4', '1', 'A', scan);
  }

  // ---- the characters of RFC 3986

  /** Section 2.3 of RFC 3986: letters, digits, and four marks. */
  const UNRESERVED: bytes := "ABCDEFGHIJKLMNOPQRSTUVWXYZ" + "abcdefghijklmnopqrstuvwxyz" + "0123456789-._~"

  lemma UnreservedAt(i: nat)
    requires i < 66
    ensures |UNRESERVED| == 66 && !RequiresPercentEncoding(UNRESERVED[i])
    ensures UNRESERVED[i] == if i < 26 then (i + 'A' as nat) as char
                             else if i < 52 then (i - 26 + 'a' as nat) as char
                             else if i < 62 then (i - 52 + '0' as nat) as char
                             else ['-', '.', '_', '~'][i - 62]
  {
  }

  lemma UnreservedIs(ch: byte)
    ensures ch in UNRESERVED <==> !RequiresPercentEncoding(ch)
  {
    if ch in UNRESERVED {
      var i :| 0 <= i < |UNRESERVED| && UNRESERVED[i] == ch;
      UnreservedAt(i);
    }
    if !RequiresPercentEncoding(ch) {
      var c := ch as nat;
      UnreservedAt(if 'A' <= ch <= 'Z' then c - 'A' as nat
                   else if 'a' <= ch <= 'z' then c - 'a' as nat + 26
                   else if '0' <= ch <= '9' then c - '0' as nat + 52
                   else if ch == '-' then 62 else if ch == '.' then 63 else if ch == '_' then 64 else 65);
    }
  }

  lemma OneDecoded(ch: byte, scan: HexScan)
    ensures Decoded([ch], scan)
         == if ch == '%' || DecodedUnit([ch], scan).None? then None else Some([DecodedUnit([ch], scan).value])
  {
    var s: bytes := [ch];
    if ch != '%' {
      assert s[1..] == [] && Decoded(s[1..], scan) == Some([]);
      var unit := DecodedUnit(s, scan);
      if unit.Some? { assert [unit.value] + [] == [unit.value]; }
    }
  }

  /** Each byte by itself: unreserved characters stay as they are, a form writes a space as '+', and
      everything else is a percent sign and two upper-case digits. Read back plainly, exactly the
      unreserved characters stand for themselves, and '+' for a space. */
  lemma EachByte(ch: byte, plus: bool, scan: HexScan)
    ensures Encoded([ch], plus)
         == if ch in UNRESERVED then [ch]
            else if plus && ch == ' ' then ['+']
            else ['%', "0123456789ABCDEF"[ch as nat / 16], "0123456789ABCDEF"[ch as nat % 16]]
    ensures Decoded([ch], scan)
         == if ch in UNRESERVED then Some([ch]) else if ch == '+' then Some([' ']) else None
  {
    UnreservedIs(ch);
    EncodedFirst(ch, [], plus);
    assert [ch] + [] == [ch] && EncodedByte(ch, plus) + [] == EncodedByte(ch, plus);
    OneDecoded(ch, scan);
  }

  /** And no byte depends on its neighbours. */
  lemma {:induction false} EncodedJoins(s: bytes, t: bytes, plus: bool)
    ensures Encoded(s + t, plus) == Encoded(s, plus) + Encoded(t, plus)
  {
    if s == [] {
      assert s + t == t && Encoded(s, plus) + Encoded(t, plus) == Encoded(t, plus);
    } else {
      EncodedJoins(s[1..], t, plus);
      assert (s + t)[1..] == s[1..] + t;
    }
  }
}
