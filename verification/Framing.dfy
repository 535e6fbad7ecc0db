/**
 The length-prefixed framings: the state file (internal/state/format.go), the
 TPM blob (internal/protect/tpm.go) and the DPAPI blob
 (internal/protect/dpapi_blob.go). Each is read back exactly as it was written,
 and nothing else is read.
 */
module Framing {
  import opened Common

  // ---- numbers ----

  function Be16(n: nat): (b: seq<byte>)
    ensures |b| == 2
  {
    [n / 256 % 256, n % 256]
  }

  function Be32(n: nat): (b: seq<byte>)
    ensures |b| == 4
  {
    [n / 0x100_0000 % 256, n / 0x1_0000 % 256, n / 256 % 256, n % 256]
  }

  function Le32(n: nat): (b: seq<byte>)
    ensures |b| == 4
  {
    [n % 256, n / 256 % 256, n / 0x1_0000 % 256, n / 0x100_0000 % 256]
  }

  function FromBe16(b: seq<byte>): nat
    requires |b| >= 2
  {
    b[0] as int * 256 + b[1]
  }

  function FromBe32(b: seq<byte>): nat
    requires |b| >= 4
  {
    b[0] as int * 0x100_0000 + b[1] as int * 0x1_0000 + b[2] as int * 256 + b[3]
  }

  function FromLe32(b: seq<byte>): nat
    requires |b| >= 4
  {
    b[0] + b[1] as int * 256 + b[2] as int * 0x1_0000 + b[3] as int * 0x100_0000
  }

  lemma Reads16(n: nat, b: seq<byte>)
    requires |b| >= 2
    ensures n < 0x1_0000 ==> (FromBe16(b) == n <==> b[..2] == Be16(n))
    ensures b[..2] == Be16(FromBe16(b)) && FromBe16(b) < 0x1_0000
  {}

  /** The four base-256 digits of a number, highest first. */
  lemma Digits(a: byte, b: byte, c: byte, d: byte)
    ensures var n := a * 0x100_0000 + b * 0x1_0000 + c * 256 + d;
            n / 0x100_0000 % 256 == a && n / 0x1_0000 % 256 == b && n / 256 % 256 == c && n % 256 == d
  {
    var n := a * 0x100_0000 + b * 0x1_0000 + c * 256 + d;
    assert n / 256 == a * 0x1_0000 + b * 256 + c;
    assert n / 0x1_0000 == a * 256 + b;
    assert n / 0x100_0000 == a;
  }

  lemma FromDigits(n: nat)
    requires n < 0x1_0000_0000
    ensures n == n / 0x100_0000 % 256 * 0x100_0000 + n / 0x1_0000 % 256 * 0x1_0000 + n / 256 % 256 * 256 + n % 256
  {
    assert n == n / 256 * 256 + n % 256;
    var m := n / 256;
    assert n / 0x1_0000 == m / 256 && m == m / 256 * 256 + m % 256;
    var k := m / 256;
    assert n / 0x100_0000 == k / 256 && k == k / 256 * 256 + k % 256;
  }

  lemma ReadsBe32(n: nat, b: seq<byte>)
    requires |b| >= 4
    ensures n < 0x1_0000_0000 ==> (FromBe32(b) == n <==> b[..4] == Be32(n))
    ensures b[..4] == Be32(FromBe32(b)) && FromBe32(b) < 0x1_0000_0000
  {
    assert b[..4] == [b[0], b[1], b[2], b[3]];
    Digits(b[0], b[1], b[2], b[3]);
    if n < 0x1_0000_0000 {
      FromDigits(n);
    }
  }

  // ---- the state file ----

  const MAX_HEADER_LEN: nat := 8192
  const MAX_STATE_LEN: nat := 0x100_0000
  const OVERHEAD: nat := 16

  datatype FormatError = Truncated | BadHeaderLength | BadCiphertextLength | TrailingBytes

  /** The lengths encodeFile can write. */
  predicate FileParts(hb: seq<byte>, ct: seq<byte>) {
    0 < |hb| <= MAX_HEADER_LEN && OVERHEAD <= |ct| <= MAX_STATE_LEN + OVERHEAD
  }

  function EncodedFile(hb: seq<byte>, ct: seq<byte>): seq<byte> { Be16(|hb|) + hb + Be32(|ct|) + ct }

  /** splitFile, each check in its order. */
  function SplitFile(raw: seq<byte>): Result<(seq<byte>, seq<byte>), FormatError> {
    if |raw| < 2 then Err(Truncated)
    else
      var hlen := FromBe16(raw);
      if hlen == 0 || hlen > MAX_HEADER_LEN then Err(BadHeaderLength)
      else if |raw| < 2 + hlen + 4 then Err(Truncated)
      else
        var clen := FromBe32(raw[2 + hlen..]);
        var rest := |raw| - (2 + hlen + 4);
        if clen < OVERHEAD || clen > MAX_STATE_LEN + OVERHEAD then Err(BadCiphertextLength)
        else if rest < clen then Err(Truncated)
        else if rest > clen then Err(TrailingBytes)
        else Ok((raw[2..2 + hlen], raw[2 + hlen + 4..]))
  }

  lemma SplitIsEncoded(raw: seq<byte>)
    requires SplitFile(raw).Ok?
    ensures var p := SplitFile(raw).value; FileParts(p.0, p.1) && raw == EncodedFile(p.0, p.1)
  {
    var hlen := FromBe16(raw);
    var tail := raw[2 + hlen..];
    Reads16(hlen, raw);
    ReadsBe32(FromBe32(tail), tail);
    assert tail == tail[..4] + tail[4..];
    assert raw == raw[..2] + raw[2..2 + hlen] + tail;
    assert tail[4..] == raw[2 + hlen + 4..];
  }

  lemma EncodedSplits(hb: seq<byte>, ct: seq<byte>)
    requires FileParts(hb, ct)
    ensures SplitFile(EncodedFile(hb, ct)) == Ok((hb, ct))
  {
    var raw := EncodedFile(hb, ct);
    var tail := Be32(|ct|) + ct;
    assert raw == Be16(|hb|) + (hb + tail);
    assert raw[..2] == Be16(|hb|);
    Reads16(|hb|, raw);
    assert raw[2..] == hb + tail;
    assert raw[2 + |hb|..] == tail;
    assert tail[..4] == Be32(|ct|);
    ReadsBe32(|ct|, tail);
    assert raw[2..2 + |hb|] == hb && raw[2 + |hb| + 4..] == ct;
  }

  /** A file splits into a header and a ciphertext exactly when it is their encoding, with nothing after it. */
  lemma SplitExactly(raw: seq<byte>, hb: seq<byte>, ct: seq<byte>)
    ensures SplitFile(raw) == Ok((hb, ct)) <==> FileParts(hb, ct) && raw == EncodedFile(hb, ct)
  {
    if SplitFile(raw) == Ok((hb, ct)) {
      SplitIsEncoded(raw);
    }
    if FileParts(hb, ct) {
      EncodedSplits(hb, ct);
    }
  }

  const VERSION: int := 1
  const MAX_WRAPPED_KEY_LEN: nat := 4096
  const DATA_KEY_LEN: nat := 32
  const NONCE_LEN: nat := 24

  datatype Header = Header(v: int, prot: seq<byte>, wrappedKey: seq<byte>, nonce: seq<byte>, createdAt: int)

  predicate Lower(c: byte) { 0x61 <= c <= 0x7a }

  /** A protector's name: a lower-case letter, then up to 31 of those, digits and hyphens. */
  predicate IsName(s: seq<byte>) {
    1 <= |s| <= 32 && Lower(s[0]) && forall i | 0 < i < |s| :: Lower(s[i]) || 0x30 <= s[i] <= 0x39 || s[i] == 0x2d
  }

  predicate ValidHeader(h: Header) {
    && h.v == VERSION && IsName(h.prot) && 0 < |h.wrappedKey| <= MAX_WRAPPED_KEY_LEN && |h.nonce| == NONCE_LEN
    && 0 < h.createdAt < TWO_63
  }

  /** What the file format is built on: encoding/json for the header, and XChaCha20-Poly1305. */
  datatype Codec = Codec(
    marshal: Header -> seq<byte>, decode: seq<byte> -> Option<Header>,
    seal: (seq<byte>, seq<byte>, seq<byte>, seq<byte>) -> seq<byte>,
    open: (seq<byte>, seq<byte>, seq<byte>, seq<byte>) -> Option<seq<byte>>)

  /** JSON reads back what it wrote of a valid header; a ciphertext opens exactly to what it was sealed from, and is longer by the tag. */
  ghost predicate Sound(c: Codec) {
    && (forall h: Header | ValidHeader(h) :: c.decode(c.marshal(h)) == Some(h) && c.marshal(h) != [])
    && (forall k: seq<byte>, n: seq<byte>, ad: seq<byte>, pt: seq<byte> :: |c.seal(k, n, ad, pt)| == |pt| + OVERHEAD)
    && (forall k: seq<byte>, n: seq<byte>, ad: seq<byte>, pt: seq<byte>, ct: seq<byte> ::
          c.open(k, n, ad, ct) == Some(pt) <==> ct == c.seal(k, n, ad, pt))
  }

  datatype FileError = Format(check: FormatError) | HeaderNotCanonical | ErrUnknownProtector | ErrUnwrap | ErrDecrypt

  /** encodeFile; None: a data key, plaintext or header it refuses. */
  function EncodeFile(c: Codec, h: Header, key: seq<byte>, pt: seq<byte>): Option<seq<byte>> {
    if |key| != DATA_KEY_LEN || |pt| > MAX_STATE_LEN || !ValidHeader(h) || |c.marshal(h)| > MAX_HEADER_LEN then None
    else
      var hb := c.marshal(h);
      Some(Be16(|hb|) + hb + Be32(|pt| + OVERHEAD) + c.seal(key, h.nonce, hb, pt))
  }

  /** parseHeader: accepted only if it is valid and b is its own encoding. */
  function ParseHeader(c: Codec, b: seq<byte>): Option<Header> {
    var h := c.decode(b);
    if h.None? || !ValidHeader(h.value) || c.marshal(h.value) != b then None else h
  }

  /** A resolved protector's Unwrap, by the header's name; None: no such protector. */
  type Unwrapper = seq<byte> -> Option<seq<byte> -> Option<seq<byte>>>

  datatype Opened = Opened(h: Header, key: seq<byte>, pt: seq<byte>)

  /** decodeFile, each check in its order. */
  function DecodeFile(c: Codec, resolve: Unwrapper, raw: seq<byte>): Result<Opened, FileError> {
    var p := SplitFile(raw);
    if p.Err? then Err(Format(p.error))
    else
      var h := ParseHeader(c, p.value.0);
      if h.None? then Err(HeaderNotCanonical)
      else
        var unwrap := resolve(h.value.prot);
        if unwrap.None? then Err(ErrUnknownProtector)
        else
          var key := unwrap.value(h.value.wrappedKey);
          if key.None? || |key.value| != DATA_KEY_LEN then Err(ErrUnwrap)
          else
            var pt := c.open(key.value, h.value.nonce, p.value.0, p.value.1);
            if pt.None? then Err(ErrDecrypt) else Ok(Opened(h.value, key.value, pt.value))
  }

  /** The data key that resolve gives for a header is key. */
  predicate Unwraps(resolve: Unwrapper, h: Header, key: seq<byte>) {
    resolve(h.prot).Some? && resolve(h.prot).value(h.wrappedKey) == Some(key)
  }

  /**
   A file opens to a header, key and plaintext exactly when the key is what the
   protector unwraps and the file is, byte for byte, what encodeFile writes of
   the three. So each has one file, and no other bytes open to them.
   */
  lemma FileExactly(c: Codec, resolve: Unwrapper, raw: seq<byte>, h: Header, key: seq<byte>, pt: seq<byte>)
    requires Sound(c)
    ensures DecodeFile(c, resolve, raw) == Ok(Opened(h, key, pt)) <==> Unwraps(resolve, h, key) && EncodeFile(c, h, key, pt) == Some(raw)
  {
    var hb, ct := c.marshal(h), c.seal(key, h.nonce, c.marshal(h), pt);
    if DecodeFile(c, resolve, raw) == Ok(Opened(h, key, pt)) {
      SplitIsEncoded(raw);
      assert SplitFile(raw) == Ok((hb, ct));
    }
    if Unwraps(resolve, h, key) && EncodeFile(c, h, key, pt) == Some(raw) {
      EncodedSplits(hb, ct);
      assert raw == EncodedFile(hb, ct);
      assert c.open(key, h.nonce, hb, ct) == Some(pt);
    }
  }

  /** What a file opens to decides every byte of it. */
  lemma OneFileEach(c: Codec, resolve: Unwrapper, raw: seq<byte>, other: seq<byte>)
    requires Sound(c) && DecodeFile(c, resolve, raw).Ok? && DecodeFile(c, resolve, other) == DecodeFile(c, resolve, raw)
    ensures other == raw
  {
    var o := DecodeFile(c, resolve, raw).value;
    FileExactly(c, resolve, raw, o.h, o.key, o.pt);
    FileExactly(c, resolve, other, o.h, o.key, o.pt);
  }

  // ---- layouts ----

  const MAX_TPM_PART: nat := 2048
  const MAX_DPAPI_FIELD: nat := 1024

  /**
   One item of a layout: fixed bytes, one of some, any n bytes, or bytes after
   their length: two bytes of it in the TPM blob (Part), four in the DPAPI blob.
   */
  datatype Spec = Is(v: seq<byte>) | OneOf(vs: seq<seq<byte>>, n: nat) | Any(n: nat) | Part
                | Field(allowEmpty: bool) | FieldIs(v: seq<byte>)

  predicate Fits(s: Spec, v: seq<byte>) {
    match s
    case Is(w) => v == w
    case OneOf(vs, n) => |v| == n && v in vs
    case Any(n) => |v| == n
    case Part => 0 < |v| <= MAX_TPM_PART
    case Field(allowEmpty) => |v| <= MAX_DPAPI_FIELD && (allowEmpty || v != [])
    case FieldIs(w) => v == w && 0 < |w| <= MAX_DPAPI_FIELD
  }

  function Emitted(s: Spec, v: seq<byte>): seq<byte> {
    if s.Part? then Be16(|v|) + v else if s.Field? || s.FieldIs? then Le32(|v|) + v else v
  }

  /** The value at the start of r, and what is left. */
  function Take(s: Spec, r: seq<byte>): Option<(seq<byte>, seq<byte>)> {
    match s
    case Is(w) => if |r| < |w| || r[..|w|] != w then None else Some((w, r[|w|..]))
    case OneOf(vs, n) => if |r| < n || r[..n] !in vs then None else Some((r[..n], r[n..]))
    case Any(n) => if |r| < n then None else Some((r[..n], r[n..]))
    case Part => TakePart(r)
    case Field(allowEmpty) => TakeField(allowEmpty, r)
    case FieldIs(w) =>
      var f := TakeField(false, r);
      if f.None? || f.value.0 != w then None else f
  }

  function TakePart(r: seq<byte>): Option<(seq<byte>, seq<byte>)> {
    if |r| < 2 then None
    else
      var n := FromBe16(r);
      if n == 0 || n > MAX_TPM_PART || |r| < 2 + n then None else Some((r[2..2 + n], r[2 + n..]))
  }

  lemma TakesPart(r: seq<byte>, v: seq<byte>, left: seq<byte>)
    ensures TakePart(r) == Some((v, left)) <==> Fits(Part, v) && r == Be16(|v|) + v + left
  {}

  function TakeField(allowEmpty: bool, r: seq<byte>): Option<(seq<byte>, seq<byte>)> {
    if |r| < 4 then None
    else
      var n := FromLe32(r);
      if n > MAX_DPAPI_FIELD || (n == 0 && !allowEmpty) || |r| - 4 < n then None else Some((r[4..4 + n], r[4 + n..]))
  }

  lemma FieldTaken(allowEmpty: bool, r: seq<byte>)
    requires TakeField(allowEmpty, r).Some?
    ensures var t := TakeField(allowEmpty, r).value; Fits(Field(allowEmpty), t.0) && r == Le32(|t.0|) + t.0 + t.1
  {}

  lemma FieldEmitted(allowEmpty: bool, v: seq<byte>, left: seq<byte>)
    requires Fits(Field(allowEmpty), v)
    ensures TakeField(allowEmpty, Le32(|v|) + v + left) == Some((v, left))
  {}

  lemma TakesField(allowEmpty: bool, r: seq<byte>, v: seq<byte>, left: seq<byte>)
    ensures TakeField(allowEmpty, r) == Some((v, left)) <==> Fits(Field(allowEmpty), v) && r == Le32(|v|) + v + left
  {
    if TakeField(allowEmpty, r).Some? {
      FieldTaken(allowEmpty, r);
    }
    if Fits(Field(allowEmpty), v) {
      FieldEmitted(allowEmpty, v, left);
    }
  }

  lemma Takes(s: Spec, r: seq<byte>, v: seq<byte>, left: seq<byte>)
    ensures Take(s, r) == Some((v, left)) <==> Fits(s, v) && r == Emitted(s, v) + left
  {
    match s
    case Part => TakesPart(r, v, left);
    case Field(allowEmpty) => TakesField(allowEmpty, r, v, left);
    case FieldIs(w) => TakesField(false, r, v, left);
    case Is(w) =>
      if |r| >= |w| {
        assert r == r[..|w|] + r[|w|..];
      }
    case OneOf(vs, n) =>
      if |r| >= n {
        assert r == r[..n] + r[n..];
      }
    case Any(n) =>
      if |r| >= n {
        assert r == r[..n] + r[n..];
      }
  }

  predicate FitAll(specs: seq<Spec>, vs: seq<seq<byte>>) {
    |vs| == |specs| && forall i | 0 <= i < |vs| :: Fits(specs[i], vs[i])
  }

  function Layout(specs: seq<Spec>, vs: seq<seq<byte>>): seq<byte>
    requires |vs| == |specs|
    decreases |specs|
  {
    if specs == [] then [] else Emitted(specs[0], vs[0]) + Layout(specs[1..], vs[1..])
  }

  /** Every item in turn, and nothing after the last. */
  function Parsed(specs: seq<Spec>, r: seq<byte>): Option<seq<seq<byte>>>
    decreases |specs|
  {
    if specs == [] then (if r == [] then Some([]) else None)
    else
      var t := Take(specs[0], r);
      if t.None? then None
      else
        After([t.value.0], Parsed(specs[1..], t.value.1))
  }

  function After(vs: seq<seq<byte>>, more: Option<seq<seq<byte>>>): Option<seq<seq<byte>>> {
    if more.None? then None else Some(vs + more.value)
  }

  lemma AfterStep(vs: seq<seq<byte>>, v: seq<byte>, more: Option<seq<seq<byte>>>)
    ensures After(vs, After([v], more)) == After(vs + [v], more) && After([], more) == more && After(vs, Some([])) == Some(vs)
  {
    if more.Some? {
      assert vs + ([v] + more.value) == vs + [v] + more.value;
      assert [] + more.value == more.value;
    }
    assert vs + [] == vs;
  }

  /** The cursor all the checks move: item after item, all bytes consumed. */
  method MoveCursor(specs: seq<Spec>, b: seq<byte>) returns (r: Option<seq<seq<byte>>>)
    ensures r == Parsed(specs, b)
  {
    var rest := b;
    var vs: seq<seq<byte>> := [];
    AfterStep([], [], Parsed(specs, b));
    assert specs[0..] == specs;
    for i := 0 to |specs|
      invariant Parsed(specs, b) == After(vs, Parsed(specs[i..], rest))
    {
      assert specs[i..][1..] == specs[i + 1..];
      var t := Take(specs[i], rest);
      if t.None? {
        return None;
      }
      AfterStep(vs, t.value.0, Parsed(specs[i + 1..], t.value.1));
      vs, rest := vs + [t.value.0], t.value.1;
    }
    AfterStep(vs, [], Some([]));
    r := if rest == [] then Some(vs) else None;
  }

  /** A byte string is accepted, with these values, exactly when it is their layout: every byte is some item's. */
  lemma {:induction false} LayoutExactly(specs: seq<Spec>, r: seq<byte>, vs: seq<seq<byte>>)
    ensures Parsed(specs, r) == Some(vs) <==> FitAll(specs, vs) && r == Layout(specs, vs)
    decreases |specs|
  {
    if specs != [] {
      var t := Take(specs[0], r);
      if t.Some? {
        Takes(specs[0], r, t.value.0, t.value.1);
        var more := Parsed(specs[1..], t.value.1);
        if more.Some? {
          LayoutExactly(specs[1..], t.value.1, more.value);
          assert ([t.value.0] + more.value)[1..] == more.value;
          assert FitAll(specs, [t.value.0] + more.value);
        }
      }
      if FitAll(specs, vs) && r == Layout(specs, vs) {
        Takes(specs[0], r, vs[0], Layout(specs[1..], vs[1..]));
        assert FitAll(specs[1..], vs[1..]);
        LayoutExactly(specs[1..], Layout(specs[1..], vs[1..]), vs[1..]);
        assert vs == [vs[0]] + vs[1..];
      }
    }
  }

  // ---- the TPM blob ----

  /** A version, and the SRK's name, the public and the private part. */
  const TPM_LAYOUT: seq<Spec> := [Is([2]), Part, Part, Part]

  /** The framing part of decodeTPMBlob. */
  method DecodeTPMBlob(blob: seq<byte>) returns (r: Option<(seq<byte>, seq<byte>, seq<byte>)>)
    ensures r.Some? ==> Fits(Part, r.value.0) && Fits(Part, r.value.1) && Fits(Part, r.value.2)
                        && blob == EncodedTPM(r.value.0, r.value.1, r.value.2)
    ensures r.None? ==> forall name, pub, priv :: Fits(Part, name) && Fits(Part, pub) && Fits(Part, priv) ==>
                          blob != EncodedTPM(name, pub, priv)
  {
    var vs := MoveCursor(TPM_LAYOUT, blob);
    if vs.None? {
      r := None;
      forall name, pub, priv | Fits(Part, name) && Fits(Part, pub) && Fits(Part, priv) ensures blob != EncodedTPM(name, pub, priv) {
        TPMExactly(blob, name, pub, priv);
      }
    } else {
      LayoutExactly(TPM_LAYOUT, blob, vs.value);
      var v := vs.value;
      r := Some((v[1], v[2], v[3]));
      assert v == [[2], v[1], v[2], v[3]];
      TPMExactly(blob, v[1], v[2], v[3]);
    }
  }

  function EncodedTPM(name: seq<byte>, pub: seq<byte>, priv: seq<byte>): seq<byte> {
    [2] + Be16(|name|) + name + Be16(|pub|) + pub + Be16(|priv|) + priv
  }

  /** A blob's parts are read exactly from their encoding, with nothing after them. */
  lemma TPMExactly(blob: seq<byte>, name: seq<byte>, pub: seq<byte>, priv: seq<byte>)
    ensures Parsed(TPM_LAYOUT, blob) == Some([[2], name, pub, priv]) <==>
              Fits(Part, name) && Fits(Part, pub) && Fits(Part, priv) && blob == EncodedTPM(name, pub, priv)
  {
    var vs := [[2], name, pub, priv];
    LayoutExactly(TPM_LAYOUT, blob, vs);
    assert Layout(TPM_LAYOUT, vs) == EncodedTPM(name, pub, priv) by {
      assert TPM_LAYOUT[1..] == [Part, Part, Part] && vs[1..] == [name, pub, priv];
      assert Layout([Part, Part, Part], [name, pub, priv]) == Be16(|name|) + name + Layout([Part, Part], [pub, priv]) by {
        assert [Part, Part, Part][1..] == [Part, Part] && [name, pub, priv][1..] == [pub, priv];
      }
      assert Layout([Part, Part], [pub, priv]) == Be16(|pub|) + pub + Layout([Part], [priv]) by {
        assert [Part, Part][1..] == [Part] && [pub, priv][1..] == [priv];
      }
      assert Layout([Part], [priv]) == Be16(|priv|) + priv by {
        assert [Part][1..] == [] && [priv][1..] == [];
      }
    }
    assert FitAll(TPM_LAYOUT, vs) <==> Fits(Part, name) && Fits(Part, pub) && Fits(Part, priv) by {
      assert vs[0] == [2] && vs[1] == name && vs[2] == pub && vs[3] == priv;
    }
  }

  method EncodeTPMBlob(name: seq<byte>, pub: seq<byte>, priv: seq<byte>) returns (out: seq<byte>)
    ensures out == EncodedTPM(name, pub, priv)
  {
    out := [2];
    out := out + Be16(|name|);
    out := out + name;
    out := out + Be16(|pub|);
    out := out + pub;
    out := out + Be16(|priv|);
    out := out + priv;
  }

  // ---- the DPAPI blob ----

  const PROVIDER: seq<byte> := [0xd0, 0x8c, 0x9d, 0xdf, 0x01, 0x15, 0xd1, 0x11, 0x8c, 0x7a, 0x00, 0xc0, 0x4f, 0xc2, 0x97, 0xeb]
  const DESCRIPTION := "vettid-agent data key"

  /** Two bytes a character, and a NUL. */
  function Utf16(s: string): seq<byte>
    requires forall i | 0 <= i < |s| :: s[i] < 128 as char
    decreases |s|
  {
    if s == [] then [0, 0] else [s[0] as int, 0] + Utf16(s[1..])
  }

  function Alg(id: nat, bits: nat): seq<byte> { Le32(id) + Le32(bits) }

  /** What CryptProtectData returns, for this program. */
  function DPAPILayout(): seq<Spec> {
    [Is(Le32(1)), Is(PROVIDER), Is(Le32(1)), Any(16), Is(Le32(0)), FieldIs(Utf16(DESCRIPTION)),
     OneOf([Alg(0x660e, 128), Alg(0x660f, 192), Alg(0x6610, 256)], 8), Field(false), Field(true),
     OneOf([Alg(0x800c, 256), Alg(0x800d, 384), Alg(0x800e, 512)], 8), Field(false), Field(false), Field(false)]
  }

  const MAX_DPAPI_BLOB: nat := 4096

  /** decodeDPAPIBlob: this protector's version byte, then the layout. */
  function DPAPIValues(blob: seq<byte>): Option<seq<seq<byte>>> {
    if |blob| < 2 || |blob| > MAX_DPAPI_BLOB || blob[0] != 1 then None else Parsed(DPAPILayout(), blob[1..])
  }

  method DecodeDPAPIBlob(blob: seq<byte>) returns (r: Option<seq<seq<byte>>>)
    ensures r == DPAPIValues(blob)
  {
    if |blob| < 2 || |blob| > MAX_DPAPI_BLOB || blob[0] != 1 {
      return None;
    }
    r := MoveCursor(DPAPILayout(), blob[1..]);
  }

  lemma VersionedExactly(specs: seq<Spec>, blob: seq<byte>, vs: seq<seq<byte>>)
    requires specs != [] && specs[0] == Is(Le32(1))
    ensures blob != [] && blob[0] == 1 && Parsed(specs, blob[1..]) == Some(vs) <==> FitAll(specs, vs) && blob == [1] + Layout(specs, vs)
    ensures FitAll(specs, vs) ==> Layout(specs, vs) != []
  {
    if blob != [] {
      LayoutExactly(specs, blob[1..], vs);
      assert blob == [blob[0]] + blob[1..];
    }
    if FitAll(specs, vs) {
      assert Fits(specs[0], vs[0]);
      if blob == [1] + Layout(specs, vs) {
        assert blob[1..] == Layout(specs, vs);
      }
    }
  }

  /**
   A blob is accepted with these thirteen values exactly when it is the version
   byte and their layout, within the length the state file allows: no byte is
   left out of the check.
   */
  lemma DPAPIExactly(blob: seq<byte>, vs: seq<seq<byte>>)
    ensures DPAPIValues(blob) == Some(vs) <==>
              |blob| <= MAX_DPAPI_BLOB && FitAll(DPAPILayout(), vs) && blob == [1] + Layout(DPAPILayout(), vs)
  {
    VersionedExactly(DPAPILayout(), blob, vs);
  }

  const KEY_LEN: nat := 32

  // ---- the DPAPI plaintext ----

  /** check: the first 16 bytes of a hash of the key. */
  function Plaintext(check: seq<byte> -> seq<byte>, key: seq<byte>): seq<byte> { key + check(key) }

  function KeyFromPlaintext(check: seq<byte> -> seq<byte>, p: seq<byte>): Option<seq<byte>> {
    if |p| != KEY_LEN + 16 || p[KEY_LEN..] != check(p[..KEY_LEN]) then None else Some(p[..KEY_LEN])
  }

  /** A key is returned exactly from its own plaintext. */
  lemma PlaintextExactly(check: seq<byte> -> seq<byte>, p: seq<byte>, key: seq<byte>)
    requires |check(key)| == 16
    ensures KeyFromPlaintext(check, p) == Some(key) <==> |key| == KEY_LEN && p == Plaintext(check, key)
  {}
}
