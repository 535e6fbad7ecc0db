/**
 The hand-written JSON of internal/mcp/encode.go: what appendQuoted and
 appendCompact write, a decoder of JSON strings by section 7 of RFC 8259, and
 what decoding what they wrote gives.
 */
module Encode {
  import opened Common

  const QUOTE: byte := 0x22
  const BACKSLASH: byte := 0x5c

  // ---- UTF-8, as utf8.DecodeRune reads it ----

  predicate Cont(x: byte) { 0x80 <= x <= 0xbf }

  /** The bytes after the first of a three- or four-byte sequence. */
  predicate Second(c: byte, x: byte) {
    if c == 0xe0 then 0xa0 <= x <= 0xbf
    else if c == 0xed then 0x80 <= x <= 0x9f
    else if c == 0xf0 then 0x90 <= x <= 0xbf
    else if c == 0xf4 then 0x80 <= x <= 0x8f
    else Cont(x)
  }

  /** The length of the UTF-8 sequence b starts with; 0: none. */
  function RuneLen(b: seq<byte>): nat
    requires b != []
  {
    var c := b[0];
    if c < 0x80 then 1
    else if 0xc2 <= c <= 0xdf then (if |b| >= 2 && Cont(b[1]) then 2 else 0)
    else if 0xe0 <= c <= 0xef then (if |b| >= 3 && Second(c, b[1]) && Cont(b[2]) then 3 else 0)
    else if 0xf0 <= c <= 0xf4 then (if |b| >= 4 && Second(c, b[1]) && Cont(b[2]) && Cont(b[3]) then 4 else 0)
    else 0
  }

  /** How many bytes of b are read at once: a sequence, or one byte that starts none. */
  function Used(b: seq<byte>): (n: nat)
    requires b != []
    ensures 1 <= n <= |b|
  {
    if RuneLen(b) == 0 then 1 else RuneLen(b)
  }

  lemma RunePrefix(b: seq<byte>, x: seq<byte>)
    requires b != [] && RuneLen(b) > 0
    ensures RuneLen(b[..RuneLen(b)] + x) == RuneLen(b)
  {}

  predicate ValidUtf8(b: seq<byte>)
    decreases |b|
  {
    b == [] || (RuneLen(b) > 0 && ValidUtf8(b[RuneLen(b)..]))
  }

  const REPLACEMENT: seq<byte> := [0xef, 0xbf, 0xbd]

  /** b with each byte of an invalid sequence replaced by U+FFFD. */
  function Sanitized(b: seq<byte>): seq<byte>
    decreases |b|
  {
    if b == [] then [] else (if RuneLen(b) == 0 then REPLACEMENT else b[..RuneLen(b)]) + Sanitized(b[Used(b)..])
  }

  lemma {:induction false} SanitizedIsSame(b: seq<byte>)
    ensures |Sanitized(b)| >= |b| && (Sanitized(b) == b <==> ValidUtf8(b))
    decreases |b|
  {
    if b != [] {
      SanitizedIsSame(b[Used(b)..]);
      assert b == b[..Used(b)] + b[Used(b)..];
      if RuneLen(b) == 0 {
        assert |Sanitized(b)| > |b|;
      }
    }
  }

  // ---- appendQuoted ----

  function HexDigit(v: nat): byte
    requires v < 16
  {
    if v < 10 then 0x30 + v else 0x57 + v
  }

  predicate IsLineSeparator(b: seq<byte>) { |b| >= 3 && b[0] == 0xe2 && b[1] == 0x80 && (b[2] == 0xa8 || b[2] == 0xa9) }

  /** \u and four hexadecimal digits. */
  function UEscape(cp: nat): seq<byte>
    requires cp < 0x10000
  {
    [BACKSLASH, 0x75, HexDigit(cp / 0x1000), HexDigit(cp / 0x100 % 16), HexDigit(cp / 16 % 16), HexDigit(cp % 16)]
  }

  /** What is written for the non-ASCII start of b. */
  function WideEscaped(b: seq<byte>): seq<byte>
    requires b != [] && b[0] >= 0x80
  {
    if RuneLen(b) == 0 then UEscape(0xfffd)
    else if IsLineSeparator(b) then UEscape(if b[2] == 0xa8 then 0x2028 else 0x2029)
    else b[..RuneLen(b)]
  }

  function AsciiEscaped(c: byte): seq<byte>
    requires c < 0x80
  {
    if c == QUOTE || c == BACKSLASH then [BACKSLASH, c]
    else if c == 0x0a then [BACKSLASH, 0x6e]
    else if c == 0x0d then [BACKSLASH, 0x72]
    else if c == 0x09 then [BACKSLASH, 0x74]
    else if c < 0x20 || c == 0x7f then UEscape(c)
    else [c]
  }

  /** What appendQuoted writes for the start of b. */
  function Escaped(b: seq<byte>): seq<byte>
    requires b != []
  {
    if b[0] < 0x80 then AsciiEscaped(b[0]) else WideEscaped(b)
  }

  function Body(b: seq<byte>): seq<byte>
    decreases |b|
  {
    if b == [] then [] else Escaped(b) + Body(b[Used(b)..])
  }

  function Quoted(b: seq<byte>): seq<byte> { [QUOTE] + Body(b) + [QUOTE] }

  function QuotedBound(n: nat): nat { 6 * n + 2 }

  /** The non-ASCII case of both loops: what is written for b from i, and how many bytes it takes. */
  method AppendWide(dst0: seq<byte>, b: seq<byte>, i: nat) returns (dst: seq<byte>, n: nat)
    requires i < |b| && b[i] >= 0x80
    ensures dst == dst0 + WideEscaped(b[i..]) && n == Used(b[i..])
  {
    n := RuneLen(b[i..]);
    if n == 0 {
      dst := dst0 + [BACKSLASH, 0x75, 0x66, 0x66, 0x66, 0x64];
      n := 1;
    } else if IsLineSeparator(b[i..]) {
      dst := dst0 + [BACKSLASH, 0x75, 0x32, 0x30, 0x32, HexDigit(b[i + 2] % 16)];
    } else {
      dst := dst0 + b[i..i + n];
      assert b[i..][..n] == b[i..i + n];
    }
  }

  method AppendAscii(dst0: seq<byte>, c: byte) returns (dst: seq<byte>)
    requires c < 0x80
    ensures dst == dst0 + AsciiEscaped(c)
  {
    if c == QUOTE || c == BACKSLASH {
      dst := dst0 + [BACKSLASH, c];
    } else if c == 0x0a {
      dst := dst0 + [BACKSLASH, 0x6e];
    } else if c == 0x0d {
      dst := dst0 + [BACKSLASH, 0x72];
    } else if c == 0x09 {
      dst := dst0 + [BACKSLASH, 0x74];
    } else if c < 0x20 || c == 0x7f {
      dst := dst0 + [BACKSLASH, 0x75, 0x30, 0x30, HexDigit(c / 16), HexDigit(c % 16)];
    } else {
      dst := dst0 + [c];
    }
  }

  /** dst is whole but for what b from i on gives. */
  ghost predicate Missing(whole: seq<byte>, dst: seq<byte>, b: seq<byte>, i: nat) { i <= |b| && dst + Body(b[i..]) == whole }

  lemma NoneDone(dst: seq<byte>, b: seq<byte>)
    ensures Missing(dst + Body(b), dst, b, 0)
  {
    assert b[0..] == b;
  }

  lemma AllDone(whole: seq<byte>, dst: seq<byte>, b: seq<byte>)
    requires Missing(whole, dst, b, |b|)
    ensures dst == whole
  {
    assert b[|b|..] == [];
  }

  lemma BodyStep(dst: seq<byte>, more: seq<byte>, b: seq<byte>, i: nat, n: nat, whole: seq<byte>)
    requires i < |b| && Missing(whole, dst, b, i) && more == dst + Escaped(b[i..]) && n == Used(b[i..])
    ensures Missing(whole, more, b, i + n)
  {
    var rest := b[i..];
    assert rest[n..] == b[i + n..];
    var tail := Body(b[i + n..]);
    assert dst + (Escaped(rest) + tail) == dst + Escaped(rest) + tail;
  }

  /** One turn of appendQuoted's loop. */
  method AppendNext(dst0: seq<byte>, b: seq<byte>, i: nat) returns (dst: seq<byte>, n: nat)
    requires i < |b|
    ensures dst == dst0 + Escaped(b[i..]) && n == Used(b[i..])
  {
    if b[i] < 0x80 {
      dst := AppendAscii(dst0, b[i]);
      n := 1;
    } else {
      dst, n := AppendWide(dst0, b, i);
    }
  }

  /** appendQuoted's loop. */
  method AppendBody(dst0: seq<byte>, b: seq<byte>) returns (dst: seq<byte>)
    ensures dst == dst0 + Body(b)
  {
    dst := dst0;
    ghost var whole := dst0 + Body(b);
    NoneDone(dst0, b);
    var i := 0;
    while i < |b|
      invariant 0 <= i <= |b| && Missing(whole, dst, b, i)
    {
      var more, n := AppendNext(dst, b, i);
      BodyStep(dst, more, b, i, n, whole);
      dst := more;
      i := i + n;
    }
    AllDone(whole, dst, b);
  }

  method AppendQuoted(dst0: seq<byte>, b: seq<byte>) returns (dst: seq<byte>)
    ensures dst == dst0 + Quoted(b)
  {
    dst := AppendBody(dst0 + [QUOTE], b);
    QuotedIs(dst0, b);
    dst := dst + [QUOTE];
  }

  lemma QuotedIs(dst: seq<byte>, b: seq<byte>)
    ensures dst + Quoted(b) == dst + [QUOTE] + Body(b) + [QUOTE] && Quoted(b)[1..] == Body(b) + [QUOTE]
  {}

  // ---- decoding a JSON string (RFC 8259, section 7) ----

  function HexValue(x: byte): (r: Option<nat>)
    ensures r.Some? ==> r.value < 16
  {
    if 0x30 <= x <= 0x39 then Some(x - 0x30)
    else if 0x61 <= x <= 0x66 then Some(x - 0x57)
    else if 0x41 <= x <= 0x46 then Some(x - 0x37)
    else None
  }

  function Hex4(a: byte, b: byte, c: byte, d: byte): (r: Option<nat>)
    ensures r.Some? ==> r.value < 0x10000
  {
    if HexValue(a).None? || HexValue(b).None? || HexValue(c).None? || HexValue(d).None? then None
    else Some(HexValue(a).value * 0x1000 + HexValue(b).value * 0x100 + HexValue(c).value * 16 + HexValue(d).value)
  }

  /** The UTF-8 of a character of the basic plane. */
  function Utf8(cp: nat): seq<byte>
    requires cp < 0x10000
  {
    if cp < 0x80 then [cp]
    else if cp < 0x800 then [0xc0 + cp / 64, 0x80 + cp % 64]
    else [0xe0 + cp / 4096, 0x80 + cp / 64 % 64, 0x80 + cp % 64]
  }

  /** The UTF-8 of the character that two surrogates stand for. */
  function Utf8Pair(high: nat, low: nat): seq<byte>
    requires 0xd800 <= high < 0xdc00 && 0xdc00 <= low < 0xe000
  {
    var cp := 0x10000 + (high - 0xd800) * 0x400 + (low - 0xdc00);
    [0xf0 + cp / 0x40000, 0x80 + cp / 4096 % 64, 0x80 + cp / 64 % 64, 0x80 + cp % 64]
  }

  predicate Surrogate(cp: nat) { 0xd800 <= cp <= 0xdfff }

  /** The value of the \uXXXX that s starts with. */
  function UnitAt(s: seq<byte>): Option<nat> {
    if |s| >= 6 && s[0] == BACKSLASH && s[1] == 0x75 then Hex4(s[2], s[3], s[4], s[5]) else None
  }

  predicate LowAt(s: seq<byte>) { UnitAt(s).Some? && 0xdc00 <= UnitAt(s).value < 0xe000 }

  /** The \uXXXX s starts with, of value u: two halves of a pair are one character, half a pair is U+FFFD. */
  function UnitRead(s: seq<byte>, u: nat): (seq<byte>, nat)
    requires |s| >= 6 && u < 0x10000
  {
    if !Surrogate(u) then (Utf8(u), 6)
    else if u < 0xdc00 && LowAt(s[6..]) then (Utf8Pair(u, UnitAt(s[6..]).value), 12)
    else (REPLACEMENT, 6)
  }

  /** One escaped character of s, which starts with a backslash: its UTF-8, and how many bytes it takes. */
  function Unescaped(s: seq<byte>): Option<(seq<byte>, nat)>
    requires s != []
  {
    if |s| < 2 then None
    else if s[1] == QUOTE || s[1] == BACKSLASH || s[1] == 0x2f then Some(([s[1]], 2))
    else if s[1] == 0x62 then Some(([0x08], 2))
    else if s[1] == 0x66 then Some(([0x0c], 2))
    else if s[1] == 0x6e then Some(([0x0a], 2))
    else if s[1] == 0x72 then Some(([0x0d], 2))
    else if s[1] == 0x74 then Some(([0x09], 2))
    else if UnitAt(s).Some? then Some(UnitRead(s, UnitAt(s).value))
    else None
  }

  /** One character of s, not its closing quote; a byte of an invalid sequence reads as U+FFFD. */
  function OneChar(s: seq<byte>): (r: Option<(seq<byte>, nat)>)
    requires s != []
    ensures r.Some? ==> 1 <= r.value.1 <= |s|
  {
    if s[0] == BACKSLASH then Unescaped(s)
    else if s[0] < 0x20 then None
    else if RuneLen(s) == 0 then Some((REPLACEMENT, 1))
    else Some((s[..RuneLen(s)], RuneLen(s)))
  }

  /** The UTF-8 of the characters up to the closing quote, and what follows it. */
  function ReadText(s: seq<byte>): (r: Option<(seq<byte>, seq<byte>)>)
    ensures r.Some? ==> |r.value.1| < |s|
    decreases |s|
  {
    if s == [] then None
    else if s[0] == QUOTE then Some(([], s[1..]))
    else
      var c := OneChar(s);
      if c.None? then None
      else
        var r := ReadText(s[c.value.1..]);
        if r.None? then None else Some((c.value.0 + r.value.0, r.value.1))
  }

  /** The value of a string that is all of s. */
  function Unquote(s: seq<byte>): Option<seq<byte>> {
    if s == [] || s[0] != QUOTE then None
    else
      var r := ReadText(s[1..]);
      if r.None? || r.value.1 != [] then None else Some(r.value.0)
  }

  // ---- the round trip ----

  lemma FourDigits(a: nat, b: nat, c: nat, d: nat)
    requires a < 16 && b < 16 && c < 16 && d < 16
    ensures Hex4(HexDigit(a), HexDigit(b), HexDigit(c), HexDigit(d)) == Some(a * 0x1000 + b * 0x100 + c * 16 + d)
  {}

  lemma Digits(cp: nat)
    requires cp < 0x10000
    ensures Hex4(HexDigit(cp / 0x1000), HexDigit(cp / 0x100 % 16), HexDigit(cp / 16 % 16), HexDigit(cp % 16)) == Some(cp)
  {
    FourDigits(cp / 0x1000, cp / 0x100 % 16, cp / 16 % 16, cp % 16);
    assert cp / 0x1000 == cp / 0x100 / 16 && cp / 0x100 == cp / 16 / 16;
  }

  lemma UnitOf(cp: nat, x: seq<byte>)
    requires cp < 0x10000
    ensures UnitAt(UEscape(cp) + x) == Some(cp)
  {
    Digits(cp);
    var s := UEscape(cp) + x;
    assert s[0] == BACKSLASH && s[1] == 0x75 && s[2] == UEscape(cp)[2] && s[3] == UEscape(cp)[3] && s[4] == UEscape(cp)[4] && s[5] == UEscape(cp)[5];
  }

  lemma UEscapeReads(cp: nat, x: seq<byte>)
    requires cp < 0x10000 && !Surrogate(cp)
    ensures OneChar(UEscape(cp) + x) == Some((Utf8(cp), 6)) && (UEscape(cp) + x)[6..] == x
  {
    UnitOf(cp, x);
  }

  lemma AsciiReads(c: byte, x: seq<byte>)
    requires c < 0x80
    ensures var e := AsciiEscaped(c); e[0] != QUOTE && OneChar(e + x) == Some(([c], |e|))
  {
    var e := AsciiEscaped(c);
    if e == [c] {
      assert (e + x)[..1] == [c];
    } else if e == UEscape(c) {
      UEscapeReads(c, x);
    } else {
      assert (e + x)[0] == BACKSLASH && (e + x)[1] == e[1];
    }
  }

  lemma KnownUtf8()
    ensures Utf8(0xfffd) == REPLACEMENT && Utf8(0x2028) == [0xe2, 0x80, 0xa8] && Utf8(0x2029) == [0xe2, 0x80, 0xa9]
  {}

  lemma WideReads(b: seq<byte>, x: seq<byte>)
    requires b != [] && b[0] >= 0x80
    ensures var e := WideEscaped(b);
            e[0] != QUOTE && OneChar(e + x) == Some((if RuneLen(b) == 0 then REPLACEMENT else b[..RuneLen(b)], |e|))
  {
    var e := WideEscaped(b);
    KnownUtf8();
    if RuneLen(b) == 0 {
      UEscapeReads(0xfffd, x);
    } else if IsLineSeparator(b) {
      UEscapeReads(if b[2] == 0xa8 then 0x2028 else 0x2029, x);
      assert b[..3] == [0xe2, 0x80, b[2]];
    } else {
      RunePrefix(b, x);
      assert (e + x)[..RuneLen(b)] == b[..RuneLen(b)];
    }
  }

  /** What is written for the start of b decodes to it. */
  lemma EscapedReads(b: seq<byte>, x: seq<byte>)
    requires b != []
    ensures var e := Escaped(b);
            && e[0] != QUOTE && OneChar(e + x) == Some((if RuneLen(b) == 0 then REPLACEMENT else b[..RuneLen(b)], |e|))
            && (e + x)[|e|..] == x
  {
    if b[0] < 0x80 {
      AsciiReads(b[0], x);
      assert b[..1] == [b[0]];
    } else {
      WideReads(b, x);
    }
  }

  lemma {:induction false} BodyReads(b: seq<byte>, x: seq<byte>)
    ensures ReadText(Body(b) + [QUOTE] + x) == Some((Sanitized(b), x))
    decreases |b|
  {
    if b == [] {
      assert ([QUOTE] + x)[1..] == x;
    } else {
      var rest := b[Used(b)..];
      BodyReads(rest, x);
      EscapedReads(b, Body(rest) + [QUOTE] + x);
      assert Body(b) + [QUOTE] + x == Escaped(b) + (Body(rest) + [QUOTE] + x);
    }
  }

  lemma ValidStep(p: seq<byte>, x: seq<byte>)
    requires p != [] && RuneLen(p) == |p| && ValidUtf8(x)
    ensures ValidUtf8(p + x)
  {
    RunePrefix(p, x);
    assert p[..|p|] == p && (p + x)[|p|..] == x;
  }

  lemma {:induction false} AsciiStep(a: seq<byte>, x: seq<byte>)
    requires (forall i | 0 <= i < |a| :: a[i] < 0x80) && ValidUtf8(x)
    ensures ValidUtf8(a + x)
    decreases |a|
  {
    if a == [] {
      assert a + x == x;
    } else {
      AsciiStep(a[1..], x);
      ValidStep([a[0]], a[1..] + x);
      assert a + x == [a[0]] + (a[1..] + x);
    }
  }

  /** What is written for one piece is valid, whatever was read. */
  lemma EscapedIsValid(b: seq<byte>, x: seq<byte>)
    requires b != [] && ValidUtf8(x)
    ensures ValidUtf8(Escaped(b) + x)
  {
    var e := Escaped(b);
    if b[0] >= 0x80 && RuneLen(b) > 0 && !IsLineSeparator(b) {
      RunePrefix(b, []);
      assert b[..RuneLen(b)] + [] == e;
      ValidStep(e, x);
    } else {
      AsciiStep(e, x);
    }
  }

  lemma {:induction false} BodyIsValid(b: seq<byte>)
    ensures ValidUtf8(Body(b) + [QUOTE])
    decreases |b|
  {
    if b == [] {
      AsciiStep([QUOTE], []);
      assert Body(b) + [QUOTE] == [QUOTE] + [];
    } else {
      var rest := Body(b[Used(b)..]) + [QUOTE];
      BodyIsValid(b[Used(b)..]);
      EscapedIsValid(b, rest);
      assert Escaped(b) + rest == Body(b) + [QUOTE];
    }
  }

  /**
   What appendQuoted wrote is valid UTF-8, and decoding it gives the input back
   exactly when that was valid; always, the input with what is invalid replaced.
   */
  lemma QuotedRoundTrip(b: seq<byte>)
    ensures ValidUtf8(Quoted(b))
    ensures Unquote(Quoted(b)) == Some(Sanitized(b))
    ensures Unquote(Quoted(b)) == Some(b) <==> ValidUtf8(b)
  {
    BodyReads(b, []);
    QuotedIs([], b);
    assert Body(b) + [QUOTE] + [] == Quoted(b)[1..];
    SanitizedIsSame(b);
    BodyIsValid(b);
    AsciiStep([QUOTE], Quoted(b)[1..]);
    assert Quoted(b) == [QUOTE] + Quoted(b)[1..];
  }

  /** No control character, and so no line break, is written. */
  predicate Plain(s: seq<byte>) { forall i | 0 <= i < |s| :: s[i] >= 0x20 && s[i] != 0x7f }

  /** No U+2028 or U+2029 either. */
  predicate NoSeparator(s: seq<byte>) { forall i | 0 <= i < |s| :: !IsLineSeparator(s[i..]) }

  lemma SeparatorFree(e: seq<byte>, x: seq<byte>)
    requires e != [] && NoSeparator(x) && (forall i | 0 < i < |e| :: e[i] != 0xe2) && !IsLineSeparator(e + x)
    ensures NoSeparator(e + x)
  {
    forall i | 0 <= i < |e + x| ensures !IsLineSeparator((e + x)[i..]) {
      if i == 0 {
        assert (e + x)[0..] == e + x;
      } else if i < |e| {
        assert (e + x)[i..][0] == e[i];
      } else {
        assert (e + x)[i..] == x[i - |e|..];
      }
    }
  }

  lemma EscapedOneLine(b: seq<byte>, x: seq<byte>)
    requires b != []
    ensures Plain(Escaped(b)) && (forall i | 0 < i < |Escaped(b)| :: Escaped(b)[i] != 0xe2) && !IsLineSeparator(Escaped(b) + x)
    ensures 1 <= |Escaped(b)| <= 6 * Used(b)
  {}

  lemma {:induction false} BodyOneLine(b: seq<byte>)
    ensures Plain(Body(b)) && NoSeparator(Body(b) + [QUOTE]) && |Body(b)| <= 6 * |b|
    decreases |b|
  {
    if b == [] {
      assert !IsLineSeparator([QUOTE][0..]);
    } else {
      var rest := b[Used(b)..];
      BodyOneLine(rest);
      EscapedOneLine(b, Body(rest) + [QUOTE]);
      SeparatorFree(Escaped(b), Body(rest) + [QUOTE]);
      assert Body(b) + [QUOTE] == Escaped(b) + (Body(rest) + [QUOTE]);
    }
  }

  /** What appendQuoted writes is one line, within its bound, for every input. */
  lemma QuotedOneLine(b: seq<byte>)
    ensures Plain(Quoted(b)) && NoSeparator(Quoted(b)) && |Quoted(b)| <= QuotedBound(|b|)
  {
    BodyOneLine(b);
    SeparatorFree([QUOTE], Body(b) + [QUOTE]);
    assert Quoted(b) == [QUOTE] + (Body(b) + [QUOTE]);
  }

  // ---- appendCompact ----

  predicate Space(c: byte) { c == 0x20 || c == 0x09 || c == 0x0a || c == 0x0d }

  /** What appendCompact writes for the start of raw inside a string. */
  function Kept(raw: seq<byte>): (r: (seq<byte>, nat))
    requires raw != []
    ensures 1 <= r.1 <= |raw|
  {
    if raw[0] == BACKSLASH && |raw| >= 2 then (raw[..2], 2)
    else if raw[0] < 0x80 then ([raw[0]], 1)
    else (WideEscaped(raw), Used(raw))
  }

  function Compact(inString: bool, raw: seq<byte>): seq<byte>
    decreases |raw|
  {
    if raw == [] then []
    else if !inString then
      if Space(raw[0]) then Compact(false, raw[1..]) else [raw[0]] + Compact(raw[0] == QUOTE, raw[1..])
    else if raw[0] == QUOTE then [raw[0]] + Compact(false, raw[1..])
    else Kept(raw).0 + Compact(true, raw[Kept(raw).1..])
  }

  function CompactBound(n: nat): nat { 6 * n }

  lemma CompactStep(dst: seq<byte>, raw: seq<byte>, i: nat)
    requires i < |raw|
    ensures Space(raw[i]) ==> Compact(false, raw[i..]) == Compact(false, raw[i + 1..])
    ensures !Space(raw[i]) ==> dst + Compact(false, raw[i..]) == dst + [raw[i]] + Compact(raw[i] == QUOTE, raw[i + 1..])
    ensures raw[i] == QUOTE ==> dst + Compact(true, raw[i..]) == dst + [raw[i]] + Compact(false, raw[i + 1..])
    ensures raw[i] != QUOTE ==> dst + Compact(true, raw[i..]) == dst + Kept(raw[i..]).0 + Compact(true, raw[i + Kept(raw[i..]).1..])
  {
    var rest := raw[i..];
    assert rest[1..] == raw[i + 1..];
    assert rest[Kept(rest).1..] == raw[i + Kept(rest).1..];
  }

  method AppendCompact(dst0: seq<byte>, raw: seq<byte>) returns (dst: seq<byte>)
    ensures dst == dst0 + Compact(false, raw)
  {
    dst := dst0;
    var inString, i := false, 0;
    while i < |raw|
      invariant 0 <= i <= |raw| && dst + Compact(inString, raw[i..]) == dst0 + Compact(false, raw)
    {
      CompactStep(dst, raw, i);
      var c := raw[i];
      if !inString {
        if !Space(c) {
          dst := dst + [c];
          inString := c == QUOTE;
        }
        i := i + 1;
      } else if c == QUOTE {
        inString := false;
        dst := dst + [c];
        i := i + 1;
      } else {
        var n: nat;
        dst, n := AppendKept(dst, raw, i);
        i := i + n;
      }
    }
    assert raw[i..] == [];
  }

  method AppendKept(dst0: seq<byte>, raw: seq<byte>, i: nat) returns (dst: seq<byte>, n: nat)
    requires i < |raw|
    ensures dst == dst0 + Kept(raw[i..]).0 && n == Kept(raw[i..]).1
  {
    var c := raw[i];
    if c == BACKSLASH && i + 1 < |raw| {
      dst, n := dst0 + [c, raw[i + 1]], 2;
      assert raw[i..][..2] == [c, raw[i + 1]];
    } else if c < 0x80 {
      dst, n := dst0 + [c], 1;
    } else {
      dst, n := AppendWide(dst0, raw, i);
    }
  }

  lemma {:induction false} CompactBounded(inString: bool, raw: seq<byte>)
    ensures |Compact(inString, raw)| <= CompactBound(|raw|)
    decreases |raw|
  {
    if raw != [] {
      if !inString || raw[0] == QUOTE {
        CompactBounded(false, raw[1..]);
        CompactBounded(true, raw[1..]);
      } else {
        CompactBounded(true, raw[Kept(raw).1..]);
      }
    }
  }

  lemma Joins<T>(a: seq<T>, b: seq<T>, c: seq<T>)
    ensures a + (b + c) == a + b + c
  {}

  /** ASCII inside a string, but quotes and backslashes, is kept as it is. */
  lemma {:induction false} AsciiRun(a: seq<byte>, x: seq<byte>)
    requires forall i | 0 <= i < |a| :: a[i] < 0x80 && a[i] != QUOTE && a[i] != BACKSLASH
    ensures Compact(true, a + x) == a + Compact(true, x)
    decreases |a|
  {
    if a == [] {
      assert a + x == x;
    } else {
      AsciiRun(a[1..], x);
      var s := a + x;
      assert Kept(s) == ([a[0]], 1);
      assert s[1..] == a[1..] + x;
      Joins([a[0]], a[1..], Compact(true, x));
      assert [a[0]] + a[1..] == a;
    }
  }

  /** A backslash and the byte after it are kept. */
  lemma PairRun(p: seq<byte>, x: seq<byte>)
    requires |p| == 2 && p[0] == BACKSLASH
    ensures Compact(true, p + x) == p + Compact(true, x)
  {}

  lemma HexDigitIsPlain(v: nat)
    requires v < 16
    ensures HexDigit(v) < 0x80 && HexDigit(v) != QUOTE && HexDigit(v) != BACKSLASH
  {}

  lemma UEscapeAgain(cp: nat, x: seq<byte>)
    requires cp < 0x10000
    ensures Compact(true, UEscape(cp) + x) == UEscape(cp) + Compact(true, x)
  {
    var e := UEscape(cp);
    HexDigitIsPlain(cp / 0x1000);
    HexDigitIsPlain(cp / 0x100 % 16);
    HexDigitIsPlain(cp / 16 % 16);
    HexDigitIsPlain(cp % 16);
    assert e == e[..2] + e[2..];
    Joins(e[..2], e[2..], x);
    PairRun(e[..2], e[2..] + x);
    AsciiRun(e[2..], x);
    Joins(e[..2], e[2..], Compact(true, x));
  }

  lemma WideAgain(b: seq<byte>, x: seq<byte>)
    requires b != [] && b[0] >= 0x80
    ensures Compact(true, WideEscaped(b) + x) == WideEscaped(b) + Compact(true, x)
  {
    if RuneLen(b) == 0 {
      UEscapeAgain(0xfffd, x);
    } else if IsLineSeparator(b) {
      UEscapeAgain(if b[2] == 0xa8 then 0x2028 else 0x2029, x);
    } else {
      var n := RuneLen(b);
      var s := b[..n] + x;
      RunePrefix(b, x);
      assert !IsLineSeparator(s);
      assert s[..n] == b[..n] && s[n..] == x;
    }
  }

  /** What was written for one piece of a string is kept when it is read again. */
  lemma KeptAgain(raw: seq<byte>, x: seq<byte>)
    requires raw != [] && raw[0] != QUOTE && (raw == [BACKSLASH] ==> x == [])
    ensures Compact(true, Kept(raw).0 + x) == Kept(raw).0 + Compact(true, x)
  {
    var k := Kept(raw).0;
    if raw[0] == BACKSLASH && |raw| >= 2 {
      PairRun(k, x);
    } else if raw[0] == BACKSLASH {
      assert k + x == [BACKSLASH];
    } else if raw[0] < 0x80 {
      AsciiRun(k, x);
    } else {
      WideAgain(raw, x);
    }
  }

  lemma Kept1(inString: bool, c: byte, x: seq<byte>)
    requires if inString then c == QUOTE else !Space(c)
    ensures Compact(inString, [c] + x) == [c] + Compact(if inString then false else c == QUOTE, x)
  {}

  /** Compacting what is compact changes nothing, for any bytes. */
  lemma {:induction false} CompactIdempotent(inString: bool, raw: seq<byte>)
    ensures Compact(inString, Compact(inString, raw)) == Compact(inString, raw)
    decreases |raw|
  {
    if raw != [] {
      if !inString || raw[0] == QUOTE {
        var next := if inString then false else raw[0] == QUOTE;
        CompactIdempotent(next, raw[1..]);
        if inString || !Space(raw[0]) {
          Kept1(inString, raw[0], Compact(next, raw[1..]));
        }
      } else {
        var rest := raw[Kept(raw).1..];
        CompactIdempotent(true, rest);
        assert raw == [BACKSLASH] ==> rest == [];
        KeptAgain(raw, Compact(true, rest));
      }
    }
  }

  /** A readable \uXXXX is kept. */
  lemma UnitKept(raw: seq<byte>)
    requires UnitAt(raw).Some?
    ensures Compact(true, raw) == raw[..6] + Compact(true, raw[6..])
  {
    var p, h := raw[..2], raw[2..6];
    assert raw == p + raw[2..];
    PairRun(p, raw[2..]);
    assert raw[2..] == h + raw[6..];
    AsciiRun(h, raw[6..]);
    Joins(p, h, Compact(true, raw[6..]));
    assert p + h == raw[..6];
  }

  /** The closing quote, or a character that can be read. */
  predicate Readable(s: seq<byte>) { s != [] && (s[0] == QUOTE || OneChar(s).Some?) }

  /** What can be read is the second half of a pair after compacting exactly when it was before. */
  lemma LowSame(x: seq<byte>)
    requires Readable(x)
    ensures LowAt(Compact(true, x)) <==> LowAt(x)
    ensures LowAt(x) ==> UnitAt(Compact(true, x)) == UnitAt(x)
  {
    var c := Compact(true, x);
    if UnitAt(x).Some? {
      UnitKept(x);
      assert c[..6] == x[..6];
      assert c[2] == c[..6][2] && c[3] == c[..6][3] && c[4] == c[..6][4] && c[5] == c[..6][5];
      assert c[0] == c[..6][0] && c[1] == c[..6][1];
    } else if x[0] == BACKSLASH {
      assert c[..2] == x[..2];
      assert c[0] == c[..2][0] && c[1] == c[..2][1];
    } else if x[0] >= 0x80 {
      var tail := Compact(true, x[Used(x)..]);
      KnownUnits(tail);
      assert c == WideEscaped(x) + tail;
    }
  }

  lemma KnownUnits(x: seq<byte>)
    ensures !LowAt(UEscape(0xfffd) + x) && !LowAt(UEscape(0x2028) + x) && !LowAt(UEscape(0x2029) + x)
  {
    UnitOf(0xfffd, x);
    UnitOf(0x2028, x);
    UnitOf(0x2029, x);
  }

  /** k is written for the first n bytes of raw, and reads as what they read as. */
  ghost predicate IsSameChar(raw: seq<byte>, n: nat, k: seq<byte>)
    requires raw != [] && OneChar(raw).Some? && n == OneChar(raw).value.1
  {
    var tail := Compact(true, raw[n..]);
    && k != [] && k[0] != QUOTE && Compact(true, raw) == k + tail
    && OneChar(k + tail) == Some((OneChar(raw).value.0, |k|))
  }

  lemma TwoKept(raw: seq<byte>, n: nat)
    requires |raw| >= 2 && raw[0] == BACKSLASH && raw[1] != 0x75 && Unescaped(raw).Some? && n == Unescaped(raw).value.1
    ensures IsSameChar(raw, n, raw[..2])
  {
    var k, tail := raw[..2], Compact(true, raw[2..]);
    assert Compact(true, raw) == k + tail;
    assert (k + tail)[0] == raw[0] && (k + tail)[1] == raw[1];
  }

  lemma PairKept(raw: seq<byte>)
    requires UnitAt(raw).Some? && 0xd800 <= UnitAt(raw).value < 0xdc00 && LowAt(raw[6..])
    ensures |raw| >= 12 && OneChar(raw).Some? && OneChar(raw).value.1 == 12 && IsSameChar(raw, 12, raw[..12])
  {
    var x := raw[6..];
    UnitKept(raw);
    UnitKept(x);
    var tail := Compact(true, raw[12..]);
    assert x[6..] == raw[12..];
    assert raw[..12] == raw[..6] + x[..6];
    Joins(raw[..6], x[..6], tail);
    UnitPrefix(raw, x[..6] + tail);
    UnitPrefix(x, tail);
    assert (raw[..6] + (x[..6] + tail))[6..] == x[..6] + tail;
  }

  lemma UnitPrefix(raw: seq<byte>, x: seq<byte>)
    requires UnitAt(raw).Some?
    ensures UnitAt(raw[..6] + x) == UnitAt(raw) && (raw[..6] + x)[6..] == x
  {
    var s := raw[..6] + x;
    assert s[0] == raw[0] && s[1] == raw[1] && s[2] == raw[2] && s[3] == raw[3] && s[4] == raw[4] && s[5] == raw[5];
  }

  lemma LoneKept(raw: seq<byte>)
    requires UnitAt(raw).Some? && Readable(raw[6..]) && !(0xd800 <= UnitAt(raw).value < 0xdc00 && LowAt(raw[6..]))
    ensures OneChar(raw).Some? && OneChar(raw).value.1 == 6 && IsSameChar(raw, 6, raw[..6])
  {
    var tail := Compact(true, raw[6..]);
    UnitKept(raw);
    LowSame(raw[6..]);
    UnitPrefix(raw, tail);
  }

  /** Every byte of an escaped character that can be read is ASCII. */
  lemma EscapeIsAscii(raw: seq<byte>, n: nat)
    requires raw != [] && raw[0] == BACKSLASH && Unescaped(raw).Some? && n == Unescaped(raw).value.1
    ensures n <= |raw| && forall i | 0 <= i < n :: raw[i] < 0x80
  {
    if n == 12 {
      var x := raw[6..];
      assert raw[6] == x[0] && raw[7] == x[1] && raw[8] == x[2] && raw[9] == x[3] && raw[10] == x[4] && raw[11] == x[5];
    }
  }

  /** One character of a string decodes to the same after compacting, and is valid. */
  lemma KeptDecodes(raw: seq<byte>, n: nat) returns (k: seq<byte>)
    requires raw != [] && raw[0] != QUOTE && OneChar(raw).Some? && n == OneChar(raw).value.1 && Readable(raw[n..])
    ensures IsSameChar(raw, n, k)
    ensures ValidUtf8(Compact(true, raw[n..])) ==> ValidUtf8(Compact(true, raw))
  {
    var tail := Compact(true, raw[n..]);
    if raw[0] == BACKSLASH {
      k := raw[..n];
      EscapeIsAscii(raw, n);
      if raw[1] != 0x75 {
        TwoKept(raw, n);
      } else if n == 12 {
        PairKept(raw);
      } else {
        LoneKept(raw);
      }
    } else if raw[0] < 0x80 {
      k := [raw[0]];
      assert raw[..1] == k;
      assert (k + tail)[..1] == k;
    } else {
      k := WideEscaped(raw);
      WideReads(raw, tail);
    }
    if ValidUtf8(tail) {
      if raw[0] < 0x80 {
        AsciiStep(k, tail);
      } else {
        EscapedIsValid(raw, tail);
      }
    }
  }

  /** A string that can be read has the same value after compacting, and what follows it is compacted. */
  lemma {:induction false} TextKept(raw: seq<byte>)
    requires ReadText(raw).Some?
    ensures ReadText(Compact(true, raw)) == Some((ReadText(raw).value.0, Compact(false, ReadText(raw).value.1)))
    ensures ValidUtf8(Compact(false, ReadText(raw).value.1)) ==> ValidUtf8(Compact(true, raw))
    decreases |raw|
  {
    if raw[0] == QUOTE {
      if ValidUtf8(Compact(false, raw[1..])) {
        AsciiStep([QUOTE], Compact(false, raw[1..]));
      }
      assert ([QUOTE] + Compact(false, raw[1..]))[1..] == Compact(false, raw[1..]);
    } else {
      var n := OneChar(raw).value.1;
      TextKept(raw[n..]);
      var k := KeptDecodes(raw, n);
      assert (k + Compact(true, raw[n..]))[|k|..] == Compact(true, raw[n..]);
    }
  }

  // ---- the tokens of a document (RFC 8259, section 2) ----

  /** A structural character, a number or name, or a string by its value. */
  datatype Token = Punct(c: byte) | Word(bytes: seq<byte>) | Text(value: seq<byte>)

  predicate IsPunct(c: byte) { c == 0x7b || c == 0x7d || c == 0x5b || c == 0x5d || c == 0x3a || c == 0x2c }

  predicate IsWord(c: byte) { 0x20 < c < 0x7f && c != QUOTE && !IsPunct(c) }

  predicate StartsWord(s: seq<byte>) { s != [] && IsWord(s[0]) }

  /** t with u before it, as one word if it starts with one. */
  function Glue(u: seq<byte>, t: seq<Token>): seq<Token> {
    if t != [] && t[0].Word? then [Word(u + t[0].bytes)] + t[1..] else [Word(u)] + t
  }

  /** The tokens of s; None: a string that cannot be read, or a byte no token holds. */
  function Tokens(s: seq<byte>): Option<seq<Token>>
    decreases |s|
  {
    if s == [] then Some([])
    else if s[0] == QUOTE then
      var r := ReadText(s[1..]);
      if r.None? then None else Before([Text(r.value.0)], Tokens(r.value.1))
    else if Space(s[0]) then Tokens(s[1..])
    else if IsPunct(s[0]) then Before([Punct(s[0])], Tokens(s[1..]))
    else if !IsWord(s[0]) || Tokens(s[1..]).None? then None
    else if StartsWord(s[1..]) then Some(Glue([s[0]], Tokens(s[1..]).value))
    else Before([Word([s[0]])], Tokens(s[1..]))
  }

  function Before(a: seq<Token>, t: Option<seq<Token>>): Option<seq<Token>> {
    if t.None? then None else Some(a + t.value)
  }

  /** Words next to each other made one. */
  function Merged(t: seq<Token>): seq<Token>
    decreases |t|
  {
    if t == [] then []
    else if t[0].Word? then Glue(t[0].bytes, Merged(t[1..]))
    else [t[0]] + Merged(t[1..])
  }

  predicate WordsApart(t: seq<Token>) { forall i | 0 < i < |t| :: !(t[i - 1].Word? && t[i].Word?) }

  lemma GlueTwice(u: seq<byte>, v: seq<byte>, t: seq<Token>)
    ensures Glue(u, Glue(v, t)) == Glue(u + v, t)
  {
    if t != [] && t[0].Word? {
      assert u + (v + t[0].bytes) == u + v + t[0].bytes;
    }
  }

  lemma MergedGlue(u: seq<byte>, t: seq<Token>)
    requires t != [] && t[0].Word?
    ensures Merged(Glue(u, t)) == Glue(u, Merged(t))
  {
    assert Glue(u, t)[1..] == t[1..];
    GlueTwice(u, t[0].bytes, Merged(t[1..]));
  }

  lemma ApartStep(t: seq<Token>)
    requires t != []
    ensures WordsApart(t) <==> WordsApart(t[1..]) && !(|t| > 1 && t[0].Word? && t[1].Word?)
  {
    var rest := t[1..];
    if WordsApart(t) {
      assert forall i | 0 < i < |rest| :: rest[i - 1] == t[i] && rest[i] == t[i + 1];
    } else {
      var i :| 0 < i < |t| && t[i - 1].Word? && t[i].Word?;
      if i > 1 {
        assert rest[i - 2] == t[i - 1] && rest[i - 1] == t[i];
      }
    }
  }

  lemma {:induction false} MergedIsSame(t: seq<Token>)
    ensures |Merged(t)| <= |t| && (Merged(t) == t <==> WordsApart(t))
    ensures t != [] ==> Merged(t) != [] && Merged(t)[0].Word? == t[0].Word?
    decreases |t|
  {
    if t != [] {
      var rest := t[1..];
      MergedIsSame(rest);
      ApartStep(t);
      assert t == [t[0]] + rest;
      if t[0].Word? && rest != [] && rest[0].Word? {
        assert |Merged(t)| < |t|;
      } else {
        assert Merged(t)[1..] == Merged(rest);
      }
    }
  }

  /** Outside a string nothing compact starts with a space, and a word stays at the start. */
  lemma {:induction false} CompactStart(s: seq<byte>)
    ensures var c := Compact(false, s); c != [] ==> !Space(c[0])
    ensures StartsWord(s) ==> StartsWord(Compact(false, s))
    decreases |s|
  {
    if s != [] {
      CompactStart(s[1..]);
    }
  }

  /** The tokens of a document start with a word exactly when its first byte that is no space is a word's. */
  lemma WordFirst(s: seq<byte>)
    requires Tokens(s).Some? && (s != [] ==> !Space(s[0]))
    ensures StartsWord(s) <==> Tokens(s).value != [] && Tokens(s).value[0].Word?
  {}

  lemma {:induction false} WordStep(s: seq<byte>)
    requires StartsWord(s) && Tokens(s).Some?
    requires Tokens(Compact(false, s[1..])) == Some(Merged(Tokens(s[1..]).value))
    ensures Tokens(Compact(false, s)) == Some(Merged(Tokens(s).value))
  {
    var rest := s[1..];
    var z := Compact(false, rest);
    assert Compact(false, s) == [s[0]] + z;
    assert ([s[0]] + z)[1..] == z;
    CompactStart(rest);
    WordFirst(z);
    if StartsWord(rest) {
      WordFirst(rest);
      MergedGlue([s[0]], Tokens(rest).value);
    } else {
      assert Tokens(s).value[1..] == Tokens(rest).value;
    }
  }

  /** Compacting makes one word of words that stand next to each other, and keeps every other token with its value. */
  lemma {:induction false} CompactMerges(s: seq<byte>)
    requires Tokens(s).Some?
    ensures Tokens(Compact(false, s)) == Some(Merged(Tokens(s).value))
    decreases |s|
  {
    if s == [] {
    } else if s[0] == QUOTE {
      var r := ReadText(s[1..]).value;
      TextKept(s[1..]);
      CompactMerges(r.1);
      assert (([QUOTE] + Compact(true, s[1..]))[1..]) == Compact(true, s[1..]);
      assert ([Text(r.0)] + Tokens(r.1).value)[1..] == Tokens(r.1).value;
    } else {
      CompactMerges(s[1..]);
      if IsWord(s[0]) {
        WordStep(s);
      } else if !Space(s[0]) {
        assert ([s[0]] + Compact(false, s[1..]))[1..] == Compact(false, s[1..]);
        assert ([Punct(s[0])] + Tokens(s[1..]).value)[1..] == Tokens(s[1..]).value;
      }
    }
  }

  /** What is written of a document that can be read is valid UTF-8, whatever bytes its strings hold. */
  lemma {:induction false} CompactIsValid(s: seq<byte>)
    requires Tokens(s).Some?
    ensures ValidUtf8(Compact(false, s))
    decreases |s|
  {
    if s != [] {
      if s[0] == QUOTE {
        TextKept(s[1..]);
        CompactIsValid(ReadText(s[1..]).value.1);
        AsciiStep([QUOTE], Compact(true, s[1..]));
      } else {
        CompactIsValid(s[1..]);
        if !Space(s[0]) {
          AsciiStep([s[0]], Compact(false, s[1..]));
        }
      }
    }
  }

  /** A document that can be read token by token has the same tokens after compacting exactly when no two words stand next to each other in it. */
  lemma CompactKeepsTokens(s: seq<byte>)
    requires Tokens(s).Some?
    ensures Tokens(Compact(false, s)) == Tokens(s) <==> WordsApart(Tokens(s).value)
  {
    CompactMerges(s);
    MergedIsSame(Tokens(s).value);
  }

  // ---- JSON values (RFC 8259, section 3) ----

  datatype Json = Name(word: seq<byte>) | Str(value: seq<byte>) | List(items: seq<Json>) | Record(members: seq<Member>)

  datatype Member = Member(key: seq<byte>, value: Json)

  /** The tokens that JSON's grammar gives a value. */
  function Written(j: Json): seq<Token>
    decreases j
  {
    match j
    case Name(w) => [Word(w)]
    case Str(v) => [Text(v)]
    case List(items) => [Punct(0x5b)] + WrittenItems(items) + [Punct(0x5d)]
    case Record(members) => [Punct(0x7b)] + WrittenMembers(members) + [Punct(0x7d)]
  }

  function WrittenItems(items: seq<Json>): seq<Token>
    decreases items
  {
    if items == [] then []
    else WrittenItems(items[..|items| - 1]) + (if |items| > 1 then [Punct(0x2c)] else []) + Written(items[|items| - 1])
  }

  function WrittenMembers(members: seq<Member>): seq<Token>
    decreases members
  {
    if members == [] then []
    else
      var m := members[|members| - 1];
      WrittenMembers(members[..|members| - 1]) + (if |members| > 1 then [Punct(0x2c)] else []) + [Text(m.key), Punct(0x3a)] + Written(m.value)
  }

  lemma ApartJoins(a: seq<Token>, b: seq<Token>)
    requires WordsApart(a) && WordsApart(b) && (a == [] || b == [] || !a[|a| - 1].Word? || !b[0].Word?)
    ensures WordsApart(a + b)
  {}

  lemma {:induction false} JsonApart(j: Json)
    ensures WordsApart(Written(j))
    decreases j
  {
    match j
    case Name(w) =>
    case Str(v) =>
    case List(items) => {
      ItemsApart(items);
      ApartJoins([Punct(0x5b)], WrittenItems(items));
      ApartJoins([Punct(0x5b)] + WrittenItems(items), [Punct(0x5d)]);
    }
    case Record(members) => {
      MembersApart(members);
      ApartJoins([Punct(0x7b)], WrittenMembers(members));
      ApartJoins([Punct(0x7b)] + WrittenMembers(members), [Punct(0x7d)]);
    }
  }

  lemma {:induction false} ItemsApart(items: seq<Json>)
    ensures WordsApart(WrittenItems(items))
    decreases items
  {
    if items != [] {
      var before, last := items[..|items| - 1], items[|items| - 1];
      ItemsApart(before);
      JsonApart(last);
      if |items| > 1 {
        ApartJoins(WrittenItems(before), [Punct(0x2c)]);
        ApartJoins(WrittenItems(before) + [Punct(0x2c)], Written(last));
      } else {
        ApartJoins([], Written(last));
      }
    }
  }

  lemma {:induction false} MembersApart(members: seq<Member>)
    ensures WordsApart(WrittenMembers(members))
    decreases members
  {
    if members != [] {
      var before, m := members[..|members| - 1], members[|members| - 1];
      MembersApart(before);
      JsonApart(m.value);
      var sep := if |members| > 1 then [Punct(0x2c)] else [];
      ApartJoins(WrittenMembers(before), sep);
      ApartJoins(WrittenMembers(before) + sep, [Text(m.key), Punct(0x3a)]);
      ApartJoins(WrittenMembers(before) + sep + [Text(m.key), Punct(0x3a)], Written(m.value));
    }
  }

  /**
   Bytes that read as a JSON value read as that value after compacting, each
   string with its value: with surrogate pairs, halves of pairs, and invalid
   bytes, which read as U+FFFD before and after.
   */
  lemma CompactKeepsJson(s: seq<byte>, j: Json)
    requires Tokens(s) == Some(Written(j))
    ensures Tokens(Compact(false, s)) == Some(Written(j))
  {
    JsonApart(j);
    CompactKeepsTokens(s);
  }

  // ---- documents one after the other ----

  /** What follows a closed string does not change how its characters read. */
  lemma CharThen(s: seq<byte>, x: seq<byte>, n: nat)
    requires s != [] && s[0] != QUOTE && OneChar(s).Some? && n == OneChar(s).value.1 && QUOTE in s[n..]
    ensures OneChar(s + x) == OneChar(s) && (s + x)[n..] == s[n..] + x
  {
    var t := s + x;
    if s[0] == BACKSLASH {
      UnitThen(s, x);
      if UnitAt(s).Some? && n == 6 {
        UnitThen(s[6..], x);
        assert t[6..] == s[6..] + x;
      } else if n == 12 {
        assert t[6..] == s[6..] + x;
        UnitThen(s[6..], x);
      }
    } else {
      RuneThen(s, x);
      assert t[..n] == s[..n];
    }
  }

  lemma UnitThen(s: seq<byte>, x: seq<byte>)
    requires UnitAt(s).Some? || QUOTE in s || |s| >= 6
    ensures UnitAt(s + x) == UnitAt(s)
  {}

  lemma RuneThen(s: seq<byte>, x: seq<byte>)
    requires s != [] && s[0] != QUOTE && QUOTE in s
    ensures RuneLen(s + x) == RuneLen(s)
  {}

  /** A string reads the same whatever comes after it, and ends where it did. */
  lemma {:induction false} TextThen(s: seq<byte>, x: seq<byte>)
    requires ReadText(s).Some?
    ensures QUOTE in s && ReadText(s + x) == Some((ReadText(s).value.0, ReadText(s).value.1 + x))
    ensures var rest := ReadText(s).value.1; rest != [] ==> rest[|rest| - 1] == s[|s| - 1]
    decreases |s|
  {
    if s[0] == QUOTE {
      assert (s + x)[1..] == s[1..] + x;
    } else {
      var n := OneChar(s).value.1;
      TextThen(s[n..], x);
      CharThen(s, x, n);
    }
  }

  /** No word of a goes on in x. */
  predicate Apart(a: seq<byte>, x: seq<byte>) { a == [] || !IsWord(a[|a| - 1]) || !StartsWord(x) }

  lemma GlueThen(c: byte, t: seq<Token>, u: seq<Token>)
    requires t != [] && t[0].Word?
    ensures Glue([c], t + u) == Glue([c], t) + u
  {
    assert (t + u)[1..] == t[1..] + u;
  }

  lemma BeforeTwice(a: seq<Token>, b: seq<Token>, t: Option<seq<Token>>)
    ensures Before(a, Before(b, t)) == Before(a + b, t)
  {
    if t.Some? {
      assert a + (b + t.value) == a + b + t.value;
    }
  }

  lemma WordThen(c: byte, rest: seq<byte>, x: seq<byte>)
    requires IsWord(c) && Tokens(rest).Some? && Apart([c] + rest, x)
    requires Tokens(rest + x) == Before(Tokens(rest).value, Tokens(x))
    ensures Tokens([c] + (rest + x)) == Before(Tokens([c] + rest).value, Tokens(x))
  {
    assert ([c] + rest)[1..] == rest && ([c] + (rest + x))[1..] == rest + x;
    if rest == [] {
      assert rest + x == x;
      assert [Word([c])] + [] == [Word([c])];
    } else {
      assert StartsWord(rest + x) == StartsWord(rest);
      if StartsWord(rest) && Tokens(x).Some? {
        WordFirst(rest);
        GlueThen(c, Tokens(rest).value, Tokens(x).value);
      } else {
        BeforeTwice([Word([c])], Tokens(rest).value, Tokens(x));
      }
    }
  }

  /** The tokens of two documents one after the other. */
  lemma {:induction false} TokensThen(a: seq<byte>, x: seq<byte>)
    requires Tokens(a).Some? && Apart(a, x)
    ensures Tokens(a + x) == Before(Tokens(a).value, Tokens(x))
    decreases |a|
  {
    if a == [] {
      assert a + x == x;
      assert Tokens(x).Some? ==> [] + Tokens(x).value == Tokens(x).value;
    } else {
      assert (a + x)[1..] == a[1..] + x;
      if a[0] == QUOTE {
        var r := ReadText(a[1..]).value;
        TextThen(a[1..], x);
        TokensThen(r.1, x);
        BeforeTwice([Text(r.0)], Tokens(r.1).value, Tokens(x));
      } else {
        TokensThen(a[1..], x);
        if IsWord(a[0]) {
          assert a == [a[0]] + a[1..] && a + x == [a[0]] + (a[1..] + x);
          WordThen(a[0], a[1..], x);
        } else if IsPunct(a[0]) {
          BeforeTwice([Punct(a[0])], Tokens(a[1..]).value, Tokens(x));
        }
      }
    }
  }

  /** What appendQuoted writes is one token. */
  lemma QuotedToken(b: seq<byte>)
    ensures Tokens(Quoted(b)) == Some([Text(Sanitized(b))])
  {
    BodyReads(b, []);
    QuotedIs([], b);
    assert Body(b) + [QUOTE] + [] == Quoted(b)[1..];
    assert [Text(Sanitized(b))] + [] == [Text(Sanitized(b))];
  }

  /** Bytes that stand for themselves in a string. */
  predicate Verbatim(b: seq<byte>) { forall i | 0 <= i < |b| :: 0x20 <= b[i] < 0x7f && b[i] != QUOTE && b[i] != BACKSLASH }

  lemma {:induction false} VerbatimQuoted(b: seq<byte>)
    requires Verbatim(b)
    ensures Body(b) == b && Sanitized(b) == b
    decreases |b|
  {
    if b != [] {
      VerbatimQuoted(b[1..]);
      assert Used(b) == 1 && RuneLen(b) == 1 && Escaped(b) == [b[0]];
      assert b == [b[0]] + b[1..] && b[..1] == [b[0]];
    }
  }

  predicate IsBreak(c: byte) { c == 0x0a || c == 0x0d }

  predicate HasBreak(s: seq<byte>) { exists i | 0 <= i < |s| :: IsBreak(s[i]) }

  /** A raw line break inside a string, which JSON does not allow. */
  predicate BreakInString(inString: bool, raw: seq<byte>)
    decreases |raw|
  {
    raw != []
    && if !inString then BreakInString(raw[0] == QUOTE, raw[1..])
       else if raw[0] == QUOTE then BreakInString(false, raw[1..])
       else HasBreak(raw[..Kept(raw).1]) || BreakInString(true, raw[Kept(raw).1..])
  }

  lemma BreakAppends(a: seq<byte>, b: seq<byte>)
    ensures HasBreak(a + b) <==> HasBreak(a) || HasBreak(b)
  {
    if HasBreak(a) {
      var i :| 0 <= i < |a| && IsBreak(a[i]);
      assert (a + b)[i] == a[i];
    }
    if HasBreak(b) {
      var i :| 0 <= i < |b| && IsBreak(b[i]);
      assert (a + b)[|a| + i] == b[i];
    }
  }

  lemma KeptBreak(raw: seq<byte>)
    requires raw != [] && raw[0] != QUOTE
    ensures HasBreak(Kept(raw).0) <==> HasBreak(raw[..Kept(raw).1])
  {
    if raw[0] >= 0x80 {
      EscapedOneLine(raw, []);
      assert forall i | 0 <= i < Used(raw) :: raw[i] >= 0x80;
    } else if !(raw[0] == BACKSLASH && |raw| >= 2) {
      assert raw[..1] == [raw[0]];
    }
  }

  /** What appendCompact writes is one line exactly when no string has a raw line break in it, so for all JSON. */
  lemma {:induction false} CompactOneLine(inString: bool, raw: seq<byte>)
    ensures HasBreak(Compact(inString, raw)) <==> BreakInString(inString, raw)
    decreases |raw|
  {
    if raw != [] {
      if !inString || raw[0] == QUOTE {
        var next := if inString then false else raw[0] == QUOTE;
        CompactOneLine(next, raw[1..]);
        BreakAppends([raw[0]], Compact(next, raw[1..]));
      } else {
        var rest := raw[Kept(raw).1..];
        CompactOneLine(true, rest);
        KeptBreak(raw);
        BreakAppends(Kept(raw).0, Compact(true, rest));
      }
    }
  }
}
