/** src/mediafire_sdk/utils/base64.cpp: base64 as in section 4 of RFC 4648. The 32-bit accumulators
    are kept as their unsigned values; the source reads back only their low 24 bits. */
module Base64 {
  import opened Basics

  type octet = n: nat | n < 256

  /** A character of the text: one of the 64 digits, the padding, or anything else. */
  datatype Symbol = Digit(value: nat) | Pad | Other

  const WORD: nat := 0x1_0000_0000

  /** The table base64_chars, entry by entry: A to Z, a to z, 0 to 9, + and /. */
  function Table(n: nat): byte {
    if n < 26 then (n + 'A' as nat) as char
    else if n < 52 then (n - 26 + 'a' as nat) as char
    else if n < 62 then (n - 52 + '0' as nat) as char
    else if n == 62 then '+'
    else '/'
  }

  function CharOf(s: Symbol): byte {
    if s.Digit? then Table(s.value) else '='
  }

  /** The decoder's chain of character ranges. */
  function SymbolOf(ch: byte): (s: Symbol)
    ensures s.Digit? ==> s.value < 64
  {
    var c := ch as nat;
    if 0x41 <= c <= 0x5A then Digit(c - 0x41)
    else if 0x61 <= c <= 0x7A then Digit(c - 0x47)
    else if 0x30 <= c <= 0x39 then Digit(c + 0x04)
    else if c == 0x2B then Digit(0x3E)
    else if c == 0x2F then Digit(0x3F)
    else if ch == '=' then Pad
    else Other
  }

  function Text(symbols: seq<Symbol>): (text: bytes)
    ensures |text| == |symbols|
  {
    seq(|symbols|, i requires 0 <= i < |symbols| => CharOf(symbols[i]))
  }

  function Symbols(text: bytes): (symbols: seq<Symbol>)
    ensures |symbols| == |text|
  {
    seq(|text|, i requires 0 <= i < |text| => SymbolOf(text[i]))
  }

  /** Three octets as four groups of six bits. */
  function Groups(a: octet, b: octet, c: octet): seq<Symbol> {
    [Digit(a / 4), Digit(a % 4 * 16 + b / 16), Digit(b % 16 * 4 + c / 64), Digit(c % 64)]
  }

  function EncodedSymbols(data: seq<octet>): (s: seq<Symbol>)
    ensures |s| == 4 * ((|data| + 2) / 3)
  {
    if |data| == 0 then []
    else if |data| == 1 then Groups(data[0], 0, 0)[..2] + [Pad, Pad]
    else if |data| == 2 then Groups(data[0], data[1], 0)[..3] + [Pad]
    else Groups(data[0], data[1], data[2]) + EncodedSymbols(data[3..])
  }

  function Encoded(data: seq<octet>): bytes { Text(EncodedSymbols(data)) }

  predicate IsDigit(s: Symbol) { s.Digit? && s.value < 64 }

  /** One quantum by itself: padding counts only in the last one, and of two padding characters only
      the first is looked at. */
  function Quantum(a: Symbol, b: Symbol, c: Symbol, d: Symbol, last: bool): Option<seq<octet>> {
    if !IsDigit(a) || !IsDigit(b) then None
    else if c == Pad then (if last then Some([4 * a.value + b.value / 16]) else None)
    else if !IsDigit(c) then None
    else if d == Pad then
      (if last then Some([4 * a.value + b.value / 16, b.value % 16 * 16 + c.value / 4]) else None)
    else if !IsDigit(d) then None
    else Some([4 * a.value + b.value / 16, b.value % 16 * 16 + c.value / 4, c.value % 4 * 64 + d.value])
  }

  function DecodedSymbols(s: seq<Symbol>): Option<seq<octet>> {
    if s == [] then Some([])
    else if |s| < 4 then None
    else
      var first, rest := Quantum(s[0], s[1], s[2], s[3], |s| == 4), DecodedSymbols(s[4..]);
      if first.None? || rest.None? then None else Some(first.value + rest.value)
  }

  function Decoded(input: bytes): Option<seq<octet>> {
    if |input| % 4 != 0 then None else DecodedSymbols(Symbols(input))
  }

  lemma SymbolOfChar(s: Symbol)
    requires IsDigit(s) || s == Pad
    ensures SymbolOf(CharOf(s)) == s
  {
  }

  ghost predicate Writable(symbols: seq<Symbol>) {
    forall i | 0 <= i < |symbols| :: IsDigit(symbols[i]) || symbols[i] == Pad
  }

  lemma SymbolsOfText(symbols: seq<Symbol>)
    requires Writable(symbols)
    ensures Symbols(Text(symbols)) == symbols
  {
    forall i | 0 <= i < |symbols| ensures SymbolOf(CharOf(symbols[i])) == symbols[i] { SymbolOfChar(symbols[i]); }
  }

  lemma {:induction false} EncodedAreSymbols(data: seq<octet>)
    ensures Writable(EncodedSymbols(data))
  {
    if |data| >= 3 { EncodedAreSymbols(data[3..]); }
  }

  /** Two numbers below their bases, taken apart again. */
  lemma TakenApart(x: nat, y: nat, base: nat)
    requires base == 4 || base == 16 || base == 64
    requires y < base
    ensures (x * base + y) / base == x && (x * base + y) % base == y
  {
  }

  lemma WholeQuantumReadsBack(a: octet, b: octet, c: octet, last: bool)
    ensures var g := Groups(a, b, c); Quantum(g[0], g[1], g[2], g[3], last) == Some([a, b, c])
  {
    TakenApart(a % 4, b / 16, 16);
    TakenApart(b % 16, c / 64, 4);
  }

  lemma TailReadsBack(a: octet, b: octet)
    ensures var g := Groups(a, b, 0); Quantum(g[0], g[1], g[2], Pad, true) == Some([a, b])
    ensures var g := Groups(a, 0, 0); Quantum(g[0], g[1], Pad, Pad, true) == Some([a])
  {
    TakenApart(a % 4, b / 16, 16);
    TakenApart(b % 16, 0, 4);
    TakenApart(a % 4, 0, 16);
  }

  lemma FirstQuantum(g: seq<Symbol>, rest: seq<Symbol>, data: seq<octet>, tail: seq<octet>)
    requires |g| == 4 && Quantum(g[0], g[1], g[2], g[3], rest == []) == Some(data)
    requires DecodedSymbols(rest) == Some(tail)
    ensures DecodedSymbols(g + rest) == Some(data + tail)
  {
    assert (g + rest)[4..] == rest;
  }

  lemma {:induction false} SymbolsReadBack(data: seq<octet>)
    ensures DecodedSymbols(EncodedSymbols(data)) == Some(data)
  {
    if |data| == 1 {
      TailReadsBack(data[0], 0);
      FirstQuantum(EncodedSymbols(data), [], [data[0]], []);
      assert EncodedSymbols(data) + [] == EncodedSymbols(data) && [data[0]] + [] == data;
    } else if |data| == 2 {
      TailReadsBack(data[0], data[1]);
      FirstQuantum(EncodedSymbols(data), [], [data[0], data[1]], []);
      assert EncodedSymbols(data) + [] == EncodedSymbols(data) && [data[0], data[1]] + [] == data;
    } else if |data| >= 3 {
      var rest := EncodedSymbols(data[3..]);
      SymbolsReadBack(data[3..]);
      WholeQuantumReadsBack(data[0], data[1], data[2], rest == []);
      FirstQuantum(Groups(data[0], data[1], data[2]), rest, [data[0], data[1], data[2]], data[3..]);
      assert data == [data[0], data[1], data[2]] + data[3..];
    }
  }

  lemma DecodedText(symbols: seq<Symbol>, data: seq<octet>)
    requires Writable(symbols) && |symbols| % 4 == 0 && DecodedSymbols(symbols) == Some(data)
    ensures Decoded(Text(symbols)) == Some(data)
  {
    SymbolsOfText(symbols);
  }

  lemma EncodedLength(data: seq<octet>)
    ensures |EncodedSymbols(data)| % 4 == 0
  {
    MultipleOfFour((|data| + 2) / 3);
  }

  lemma MultipleOfFour(k: nat)
    ensures 4 * k % 4 == 0
  {
  }

  /** Decoding inverts encoding for every byte sequence. */
  lemma DecodeInvertsEncode(data: seq<octet>)
    ensures Decoded(Encoded(data)) == Some(data)
  {
    EncodedAreSymbols(data);
    SymbolsReadBack(data);
    EncodedLength(data);
    DecodedText(EncodedSymbols(data), data);
  }

  lemma Quotient(x: nat, k: nat, r: nat, m: nat)
    requires m == 16777216 || m == 262144 || m == 65536 || m == 4096 || m == 1024 || m == 256 || m == 64
    requires r < m && x == k * m + r
    ensures x / m == k && x % m == r
  {
  }

  /** The source's masks and shifts cut 24 bits into the four groups. */
  lemma ShiftsAreGroups(a: octet, b: octet, c: octet)
    ensures var t := a * 65536 + b * 256 + c;
      Groups(a, b, c) == [Digit(t / 262144 % 64), Digit(t / 4096 % 64), Digit(t / 64 % 64), Digit(t % 64)]
  {
    var t := a * 65536 + b * 256 + c;
    Quotient(t, a / 4, a % 4 * 65536 + b * 256 + c, 262144);
    Quotient(t, a * 16 + b / 16, b % 16 * 256 + c, 4096);
    Quotient(a * 16 + b / 16, a / 4, a % 4 * 16 + b / 16, 64);
    Quotient(t, a * 1024 + b * 4 + c / 64, c % 64, 64);
    Quotient(a * 1024 + b * 4 + c / 64, a * 16 + b / 16, b % 16 * 4 + c / 64, 64);
  }

  lemma TextJoins(s: seq<Symbol>, t: seq<Symbol>)
    ensures Text(s) + Text(t) == Text(s + t)
  {
  }

  /** One quantum of Base64Encode: the accumulator, and its four table look-ups. */
  method WriteQuantum(a: octet, b: octet, c: octet) returns (chars: bytes)
    ensures chars == Text(Groups(a, b, c))
  {
    var temp := a * 65536;
    temp := temp + b * 256;
    temp := temp + c;
    ShiftsAreGroups(a, b, c);
    chars := [Table(temp / 262144 % 64), Table(temp / 4096 % 64), Table(temp / 64 % 64), Table(temp % 64)];
  }

  /** The one or two bytes that are left after the whole quanta. */
  method WriteTail(rest: seq<octet>) returns (chars: bytes)
    requires |rest| < 3
    ensures chars == Text(EncodedSymbols(rest))
  {
    match |rest| {
      case 1 =>
        chars := WriteQuantum(rest[0], 0, 0);
        chars := chars[..2] + "==";
      case 2 =>
        chars := WriteQuantum(rest[0], rest[1], 0);
        chars := chars[..3] + "=";
      case _ => chars := [];
    }
  }

  /** One turn of the encoder's loop. */
  lemma EncodesOne(data: seq<octet>, cursor: nat, done: seq<Symbol>)
    requires cursor + 3 <= |data|
    ensures var g := Groups(data[cursor], data[cursor + 1], data[cursor + 2]);
      && done + EncodedSymbols(data[cursor..]) == (done + g) + EncodedSymbols(data[cursor + 3..])
      && Text(done) + Text(g) == Text(done + g)
  {
    assert data[cursor..][3..] == data[cursor + 3..];
  }

  /** Base64Encode: whole quanta in a loop, then the rest. */
  method Base64Encode(data: seq<octet>) returns (encoded: bytes)
    ensures encoded == Encoded(data) && |encoded| == 4 * ((|data| + 2) / 3)
  {
    encoded := [];
    ghost var done: seq<Symbol> := [];
    var cursor := 0;
    assert data[0..] == data;
    for idx := 0 to |data| / 3
      invariant cursor == 3 * idx
      invariant encoded == Text(done) && done + EncodedSymbols(data[cursor..]) == EncodedSymbols(data)
    {
      EncodesOne(data, cursor, done);
      var chars := WriteQuantum(data[cursor], data[cursor + 1], data[cursor + 2]);
      done := done + Groups(data[cursor], data[cursor + 1], data[cursor + 2]);
      encoded := encoded + chars;
      cursor := cursor + 3;
    }
    var tail := WriteTail(data[cursor..]);
    TextJoins(done, EncodedSymbols(data[cursor..]));
    encoded := encoded + tail;
  }

  /** The first `k` symbols are digits. */
  ghost predicate Digits(s: seq<Symbol>, k: nat) {
    k <= |s| && forall i | 0 <= i < k :: IsDigit(s[i])
  }

  /** Those digits shifted together. */
  ghost function Joined(s: seq<Symbol>, k: nat): nat
    requires Digits(s, k)
  {
    if k == 0 then 0 else Joined(s, k - 1) * 64 + s[k - 1].value
  }

  ghost function Weight(k: nat): (w: nat)
    ensures w > 0
  {
    if k == 0 then 1 else 64 * Weight(k - 1)
  }

  /** Shifting in a digit keeps the low bits exact, whatever is above them. */
  lemma ShiftKeepsLowBits(temp: nat, w: nat, digit: nat)
    requires w == 1 || w == 64 || w == 4096 || w == 262144
    requires digit < 64
    ensures (temp * 64 % WORD + digit) % (64 * w) == temp % w * 64 + digit
  {
    var q, low, lost := temp / w, temp % w, temp * 64 / WORD;
    if w == 1 { Quotient(temp * 64 % WORD + digit, q - lost * 67108864, low * 64 + digit, 64); }
    else if w == 64 { Quotient(temp * 64 % WORD + digit, q - lost * 1048576, low * 64 + digit, 4096); }
    else if w == 4096 { Quotient(temp * 64 % WORD + digit, q - lost * 16384, low * 64 + digit, 262144); }
    else { Quotient(temp * 64 % WORD + digit, q - lost * 256, low * 64 + digit, 16777216); }
  }

  /** The accumulator ends in the first `k` digits. */
  ghost predicate Holds(temp: nat, s: seq<Symbol>, k: nat) {
    Digits(s, k) && temp % Weight(k) == Joined(s, k)
  }

  /** The three low bytes, as the source extracts them. */
  lemma LowBytes(t: nat, high: nat, x: octet, y: octet, z: octet)
    requires t == high * 16777216 + x * 65536 + y * 256 + z
    ensures t / 65536 % 256 == x && t / 256 % 256 == y && t % 256 == z
  {
    Quotient(t, high * 256 + x, y * 256 + z, 65536);
    Quotient(high * 256 + x, high, x, 256);
    Quotient(t, high * 65536 + x * 256 + y, z, 256);
    Quotient(high * 65536 + x * 256 + y, high * 256 + x, y, 256);
  }

  lemma JoinedDigits(s: seq<Symbol>)
    requires |s| == 4
    ensures Digits(s, 2) ==> Joined(s, 2) == s[0].value * 64 + s[1].value
    ensures Digits(s, 3) ==> Joined(s, 3) == s[0].value * 4096 + s[1].value * 64 + s[2].value
    ensures Digits(s, 4) ==>
      Joined(s, 4) == s[0].value * 262144 + s[1].value * 4096 + s[2].value * 64 + s[3].value
  {
    if Digits(s, 2) { assert Joined(s, 1) == s[0].value; }
  }

  /** The bytes the source extracts after four digits depend only on the low 24 bits. */
  lemma FourDigits(temp: nat, s: seq<Symbol>, last: bool)
    requires |s| == 4 && Digits(s, 4)
    requires temp % 16777216 == Joined(s, 4)
    ensures Quantum(s[0], s[1], s[2], s[3], last)
         == Some([temp / 65536 % 256, temp / 256 % 256, temp % 256])
  {
    var a, b, c, d := s[0].value, s[1].value, s[2].value, s[3].value;
    JoinedDigits(s);
    LowBytes(temp, temp / 16777216, 4 * a + b / 16, b % 16 * 16 + c / 4, c % 4 * 64 + d);
  }

  lemma ShiftOut(x: nat, k: nat, r: nat)
    requires r < WORD && x == k * WORD + r
    ensures x % WORD == r
  {
  }

  /** After three digits and a shift. */
  lemma ThreeDigits(temp: nat, s: seq<Symbol>)
    requires |s| == 4 && Digits(s, 3) && s[3] == Pad
    requires temp % 262144 == Joined(s, 3)
    ensures var t := temp * 64 % WORD;
      Quantum(s[0], s[1], s[2], s[3], true) == Some([t / 65536 % 256, t / 256 % 256])
  {
    var a, b, c, high := s[0].value, s[1].value, s[2].value, temp / 262144;
    JoinedDigits(s);
    ShiftOut(temp * 64, high / 256, high % 256 * 16777216 + Joined(s, 3) * 64);
    LowBytes(temp * 64 % WORD, high % 256, 4 * a + b / 16, b % 16 * 16 + c / 4, c % 4 * 64);
  }

  /** After two digits and a shift. */
  lemma TwoDigits(temp: nat, s: seq<Symbol>)
    requires |s| == 4 && Digits(s, 2) && s[2] == Pad
    requires temp % 4096 == Joined(s, 2)
    ensures Quantum(s[0], s[1], s[2], s[3], true) == Some([temp * 64 % WORD / 1024 % 256])
  {
    var a, b, high := s[0].value, s[1].value, temp / 4096;
    JoinedDigits(s);
    ShiftOut(temp * 64, high / 16384, high % 16384 * 262144 + Joined(s, 2) * 64);
    Quotient(temp * 64 % WORD, high % 16384 * 256 + (4 * a + b / 16), b % 16 * 64, 1024);
    Quotient(high % 16384 * 256 + (4 * a + b / 16), high % 16384, 4 * a + b / 16, 256);
  }

  /** What the padding branch pushes after `k` digits: one or two bytes at the end of the input. */
  function PaddedBytes(temp: nat, left: nat): Option<seq<octet>> {
    if left == 1 then Some([temp / 65536 % 256, temp / 256 % 256])
    else if left == 2 then Some([temp / 1024 % 256])
    else None
  }

  lemma Weights()
    ensures Weight(0) == 1 && Weight(1) == 64 && Weight(2) == 4096
    ensures Weight(3) == 262144 && Weight(4) == 16777216
  {
  }

  /** `more` quanta follow this one. */
  lemma PaddingMet(temp: nat, s: seq<Symbol>, k: nat, more: nat)
    requires |s| == 4 && k < 4 && Holds(temp, s, k) && s[k] == Pad
    ensures Quantum(s[0], s[1], s[2], s[3], more == 0) == PaddedBytes(temp * 64 % WORD, 4 * more + 4 - k)
  {
    Weights();
    if more == 0 && k == 2 { TwoDigits(temp, s); }
    else if more == 0 && k == 3 { ThreeDigits(temp, s); }
    else if k < 2 { assert !IsDigit(s[k]); }
  }

  lemma DigitRead(temp: nat, s: seq<Symbol>, k: nat)
    requires |s| == 4 && k < 4 && Holds(temp, s, k) && IsDigit(s[k])
    ensures Holds(temp * 64 % WORD + s[k].value, s, k + 1)
  {
    Weights();
    ShiftKeepsLowBits(temp, Weight(k), s[k].value);
  }

  lemma AllDigitsRead(temp: nat, s: seq<Symbol>, last: bool)
    requires |s| == 4 && Holds(temp, s, 4)
    ensures Quantum(s[0], s[1], s[2], s[3], last) == Some([temp / 65536 % 256, temp / 256 % 256, temp % 256])
  {
    Weights();
    FourDigits(temp, s, last);
  }

  function Four(input: bytes, at: nat): (s: seq<Symbol>)
    requires at + 4 <= |input|
    ensures |s| == 4
  {
    [SymbolOf(input[at]), SymbolOf(input[at + 1]), SymbolOf(input[at + 2]), SymbolOf(input[at + 3])]
  }

  function QuantumAt(input: bytes, at: nat): Option<seq<octet>>
    requires at + 4 <= |input|
  {
    var s := Four(input, at);
    Quantum(s[0], s[1], s[2], s[3], at + 4 == |input|)
  }

  lemma SymbolAt(input: bytes, at: nat, k: nat)
    requires at + 4 <= |input| && k < 4
    ensures Four(input, at)[k] == SymbolOf(input[at + k])
  {
  }

  lemma BadSymbol(temp: nat, s: seq<Symbol>, k: nat, last: bool)
    requires |s| == 4 && k < 4 && Holds(temp, s, k) && s[k] == Other
    ensures Quantum(s[0], s[1], s[2], s[3], last) == None
  {
  }

  /** The inner loop: up to four digits go into the accumulator, whatever it held before. */
  method ReadQuantum(input: bytes, at: nat, start: nat, ghost more: nat)
    returns (temp: nat, value: Option<seq<octet>>)
    requires |input| == at + 4 + 4 * more
    ensures value == QuantumAt(input, at)
  {
    temp := start;
    var cursor := at;
    ghost var s := Four(input, at);
    for quantumPosition := 0 to 4
      invariant cursor == at + quantumPosition
      invariant Holds(temp, s, quantumPosition)
    {
      var symbol := SymbolOf(input[cursor]);
      SymbolAt(input, at, quantumPosition);
      ghost var before := temp;
      temp := temp * 64 % WORD;
      match symbol {
        case Digit(value) =>
          DigitRead(before, s, quantumPosition);
          temp := temp + value;
        case Pad =>
          PaddingMet(before, s, quantumPosition, more);
          return temp, PaddedBytes(temp, |input| - cursor);
        case Other =>
          BadSymbol(before, s, quantumPosition, at + 4 == |input|);
          return temp, None;
      }
      cursor := cursor + 1;
    }
    AllDigitsRead(temp, s, at + 4 == |input|);
    value := Some([temp / 65536 % 256, temp / 256 % 256, temp % 256]);
  }

  function After(out: seq<octet>, rest: Option<seq<octet>>): Option<seq<octet>> {
    if rest.None? then None else Some(out + rest.value)
  }

  /** What is still to be decoded from `cursor` on. */
  function Rest(input: bytes, cursor: nat): Option<seq<octet>>
    requires cursor <= |input|
  {
    DecodedSymbols(Symbols(input)[cursor..])
  }

  /** One turn of the decoder's loop. */
  lemma DecodesOne(input: bytes, cursor: nat, out: seq<octet>)
    requires cursor + 4 <= |input|
    ensures var value := QuantumAt(input, cursor);
      After(out, Rest(input, cursor))
      == if value.None? then None else After(out + value.value, Rest(input, cursor + 4))
  {
    var s, f := Symbols(input), Four(input, cursor);
    assert s[cursor..][4..] == s[cursor + 4..];
    assert s[cursor..][0] == f[0] && s[cursor..][1] == f[1] && s[cursor..][2] == f[2] && s[cursor..][3] == f[3];
    var value, rest := QuantumAt(input, cursor), Rest(input, cursor + 4);
    if value.Some? && rest.Some? { assert out + (value.value + rest.value) == out + value.value + rest.value; }
  }

  lemma DecodeStarts(input: bytes)
    requires |input| % 4 == 0
    ensures Decoded(input) == After([], Rest(input, 0))
  {
    assert Symbols(input)[0..] == Symbols(input);
    if Rest(input, 0).Some? { assert [] + Rest(input, 0).value == Rest(input, 0).value; }
  }

  lemma DecodeEnds(input: bytes, out: seq<octet>)
    ensures After(out, Rest(input, |input|)) == Some(out)
  {
    assert Symbols(input)[|input|..] == [] && out + [] == out;
  }

  /** Base64Decode: one accumulator for the whole input, never reset between quanta. */
  method Base64Decode(input: bytes) returns (decoded: Option<seq<octet>>)
    ensures decoded == Decoded(input)
  {
    if |input| % 4 != 0 {
      return None;
    }
    var out: seq<octet> := [];
    var temp: nat := 0;
    var cursor := 0;
    ghost var quanta := |input| / 4;
    DecodeStarts(input);
    while cursor < |input|
      invariant 0 <= cursor <= |input| && |input| == cursor + 4 * quanta
      invariant Decoded(input) == After(out, Rest(input, cursor))
    {
      DecodesOne(input, cursor, out);
      var value;
      quanta := quanta - 1;
      temp, value := ReadQuantum(input, cursor, temp, quanta);
      if value.None? {
        return None;
      }
      out := out + value.value;
      cursor := cursor + 4;
    }
    DecodeEnds(input, out);
    return Some(out);
  }

  // ---- what the encoder can have written

  /** Section 3.5 of RFC 4648: the bits that padding leaves over are 0, and padding is whole. */
  predicate Canonical(s: seq<Symbol>) {
    |s| >= 4 ==>
      var b, c, d := s[|s| - 3], s[|s| - 2], s[|s| - 1];
      if c == Pad then d == Pad && b.Digit? && b.value % 16 == 0
      else d == Pad ==> c.Digit? && c.value % 4 == 0
  }

  lemma GroupsOfDigits(a: nat, b: nat, c: nat, d: nat)
    requires a < 64 && b < 64 && c < 64 && d < 64
    ensures Groups(4 * a + b / 16, b % 16 * 16 + c / 4, c % 4 * 64 + d) == [Digit(a), Digit(b), Digit(c), Digit(d)]
  {
    TakenApart(a, b / 16, 4);
    TakenApart(b % 16, c / 4, 16);
    TakenApart(c % 4, d, 64);
  }

  lemma StrayBits(b: nat, base: nat)
    requires base == 4 || base == 16
    ensures b / base * base == b <==> b % base == 0
  {
  }

  /** A quantum with two padding characters, with one, and with none. */
  lemma TwoPadsCanonical(a: nat, b: nat)
    requires a < 64 && b < 64
    ensures EncodedSymbols([4 * a + b / 16]) == [Digit(a), Digit(b / 16 * 16), Pad, Pad]
  {
    GroupsOfDigits(a, b / 16 * 16, 0, 0);
    TakenApart(b / 16, 0, 16);
  }

  lemma OnePadCanonical(a: nat, b: nat, c: nat)
    requires a < 64 && b < 64 && c < 64
    ensures EncodedSymbols([4 * a + b / 16, b % 16 * 16 + c / 4]) == [Digit(a), Digit(b), Digit(c / 4 * 4), Pad]
  {
    GroupsOfDigits(a, b, c / 4 * 4, 0);
    TakenApart(c / 4, 0, 4);
  }

  lemma NoPadCanonical(a: nat, b: nat, c: nat, d: nat)
    requires a < 64 && b < 64 && c < 64 && d < 64
    ensures EncodedSymbols([4 * a + b / 16, b % 16 * 16 + c / 4, c % 4 * 64 + d])
         == [Digit(a), Digit(b), Digit(c), Digit(d)]
  {
    GroupsOfDigits(a, b, c, d);
    var data: seq<octet> := [4 * a + b / 16, b % 16 * 16 + c / 4, c % 4 * 64 + d];
    assert data[3..] == [];
  }

  lemma LastQuantumCanonical(s: seq<Symbol>, data: seq<octet>)
    requires |s| == 4 && Quantum(s[0], s[1], s[2], s[3], true) == Some(data)
    ensures EncodedSymbols(data) == s <==> Canonical(s)
  {
    var a, b := s[0].value, s[1].value;
    if s[2] == Pad {
      TwoPadsCanonical(a, b);
      StrayBits(b, 16);
    } else if s[3] == Pad {
      OnePadCanonical(a, b, s[2].value);
      StrayBits(s[2].value, 4);
    } else {
      NoPadCanonical(a, b, s[2].value, s[3].value);
    }
  }

  lemma EarlierQuantumCanonical(g: seq<Symbol>, rest: seq<Symbol>, data: seq<octet>, tail: seq<octet>)
    requires |g| == 4 && |rest| >= 4 && Quantum(g[0], g[1], g[2], g[3], false) == Some(data)
    ensures EncodedSymbols(data + tail) == g + rest <==> EncodedSymbols(tail) == rest
    ensures Canonical(g + rest) <==> Canonical(rest)
  {
    GroupsOfDigits(g[0].value, g[1].value, g[2].value, g[3].value);
    assert (data + tail)[3..] == tail;
    assert Groups(data[0], data[1], data[2]) == g;
    assert EncodedSymbols(data + tail) == g + EncodedSymbols(tail);
    assert (g + EncodedSymbols(tail))[4..] == EncodedSymbols(tail) && (g + rest)[4..] == rest;
  }

  lemma {:induction false} SymbolsCanonical(s: seq<Symbol>)
    requires |s| % 4 == 0 && DecodedSymbols(s).Some?
    ensures EncodedSymbols(DecodedSymbols(s).value) == s <==> Canonical(s)
  {
    if |s| == 4 {
      LastQuantumCanonical(s, Quantum(s[0], s[1], s[2], s[3], true).value);
      assert DecodedSymbols(s).value == Quantum(s[0], s[1], s[2], s[3], true).value + [];
    } else if |s| > 4 {
      SymbolsCanonical(s[4..]);
      EarlierQuantumCanonical(s[..4], s[4..], Quantum(s[0], s[1], s[2], s[3], false).value,
                              DecodedSymbols(s[4..]).value);
      assert s == s[..4] + s[4..];
    }
  }

  lemma TextOfSymbols(text: bytes)
    requires Writable(Symbols(text))
    ensures Text(Symbols(text)) == text
  {
    forall i | 0 <= i < |text| ensures CharOf(SymbolOf(text[i])) == text[i] {
      assert Symbols(text)[i] == SymbolOf(text[i]);
      CharOfSymbol(text[i]);
    }
  }

  lemma CharOfSymbol(ch: byte)
    requires SymbolOf(ch) != Other
    ensures CharOf(SymbolOf(ch)) == ch
  {
  }

  /** Decoding forgets what canonical texts do not have: encoding gives the text back if and only if it
      is canonical. */
  lemma EncodeInvertsDecode(text: bytes)
    requires Decoded(text).Some?
    ensures Encoded(Decoded(text).value) == text <==> Canonical(Symbols(text))
  {
    var s, data := Symbols(text), Decoded(text).value;
    SymbolsCanonical(s);
    EncodedAreSymbols(data);
    SymbolsOfText(EncodedSymbols(data));
    if EncodedSymbols(data) == s { TextOfSymbols(text); }
  }

  lemma OneQuantum(a: byte, b: byte, c: byte, d: byte)
    ensures Symbols([a, b, c, d]) == [SymbolOf(a), SymbolOf(b), SymbolOf(c), SymbolOf(d)]
    ensures Decoded([a, b, c, d]) == Quantum(SymbolOf(a), SymbolOf(b), SymbolOf(c), SymbolOf(d), true)
  {
    var s := Symbols([a, b, c, d]);
    assert s[0] == SymbolOf(a) && s[1] == SymbolOf(b) && s[2] == SymbolOf(c) && s[3] == SymbolOf(d);
    assert DecodedSymbols(s[4..]) == Some([]);
    var value := Quantum(s[0], s[1], s[2], s[3], true);
    if value.Some? { assert value.value + [] == value.value; }
  }

  lemma SomeSymbols()
    ensures SymbolOf('A') == Digit(0) && SymbolOf('B') == Digit(1) && SymbolOf('X') == Digit(23) && SymbolOf('=') == Pad
  {
  }

  /** AB== and AA=X are texts that no encoder writes: bits left over, and half a padding. */
  lemma OtherWritings(text: bytes)
    requires text == "AB==" || text == "AA=X"
    ensures Decoded(text) == Some([0]) && !Canonical(Symbols(text))
  {
    SomeSymbols();
    OneQuantum(text[0], text[1], text[2], text[3]);
    assert text == [text[0], text[1], text[2], text[3]];
  }

  // ---- the alphabet

  /** Table 1 of section 4 of RFC 4648. */
  const ALPHABET: bytes := "ABCDEFGHIJKLMNOPQRSTUVWXYZ" + "abcdefghijklmnopqrstuvwxyz" + "0123456789+/"

  lemma TableIsAlphabet(n: nat)
    requires n < 64
    ensures |ALPHABET| == 64 && Table(n) == ALPHABET[n] && SymbolOf(ALPHABET[n]) == Digit(n)
  {
  }

  /** Encoder and decoder use that alphabet and no other: six bits are written as the character with
      their number, and a character is read as six bits if and only if it is in the alphabet. */
  lemma UsesAlphabet(ch: byte, n: nat)
    requires n < 64
    ensures CharOf(Digit(n)) == ALPHABET[n]
    ensures SymbolOf(ch) == Digit(n) <==> ch == ALPHABET[n]
    ensures SymbolOf(ch).Digit? <==> ch in ALPHABET
    ensures SymbolOf(ch) == Pad <==> ch == '='
  {
    TableIsAlphabet(n);
    if SymbolOf(ch).Digit? {
      TableIsAlphabet(SymbolOf(ch).value);
      CharOfSymbol(ch);
    }
    if ch in ALPHABET {
      var i :| 0 <= i < |ALPHABET| && ALPHABET[i] == ch;
      TableIsAlphabet(i);
    }
  }
}
