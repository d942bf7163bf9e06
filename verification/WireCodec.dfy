/**
 * The binary wire profile: UTF-8 (section 3 of RFC 3629), big-endian integers, length-prefixed texts, and the byte
 * strings built of them. A Python exception is `None`.
 */
module WireCodec {
  import opened Wrappers

  type Byte = b: int | 0 <= b < 256

  type Bytes = seq<Byte>

  /** A Python character: any code point, surrogates included. */
  type CodePoint = c: int | 0 <= c < 0x11_0000

  type Text = seq<CodePoint>

  // ----- UTF-8 -----

  predicate IsSurrogate(c: int) { 0xD800 <= c <= 0xDFFF }

  predicate Continues(b: Byte) { 0x80 <= b < 0xC0 }

  function EncodeChar(c: CodePoint): (b: Bytes)
    requires !IsSurrogate(c)
    ensures 1 <= |b| <= 4
  {
    if c < 0x80 then [c]
    else if c < 0x800 then [0xC0 + c / 64, 0x80 + c % 64]
    else if c < 0x1_0000 then [0xE0 + c / 4096, 0x80 + c / 64 % 64, 0x80 + c % 64]
    else [0xF0 + c / 262144, 0x80 + c / 4096 % 64, 0x80 + c / 64 % 64, 0x80 + c % 64]
  }

  /** The six bits of a continuation byte. */
  function Low(b: Byte): (v: int)
    requires Continues(b)
  {
    b as int - 0x80
  }

  /** The bits of a leading byte above its mark. */
  function High(b: Byte, mark: int): int { b as int - mark }

  /** The first character, of the shortest form only, and never a surrogate. */
  function DecodeChar(b: Bytes): (r: Option<(CodePoint, nat)>)
    requires b != []
    ensures r.Some? ==> 1 <= r.value.1 <= |b|
  {
    if b[0] < 0x80 then Some((b[0], 1))
    else if 0xC2 <= b[0] < 0xE0 && |b| >= 2 && Continues(b[1]) then Some((High(b[0], 0xC0) * 64 + Low(b[1]), 2))
    else if 0xE0 <= b[0] < 0xF0 && |b| >= 3 && Continues(b[1]) && Continues(b[2]) then
      var c := High(b[0], 0xE0) * 4096 + Low(b[1]) * 64 + Low(b[2]);
      if c >= 0x800 && !IsSurrogate(c) then Some((c, 3)) else None
    else if 0xF0 <= b[0] < 0xF5 && |b| >= 4 && Continues(b[1]) && Continues(b[2]) && Continues(b[3]) then
      var c := High(b[0], 0xF0) * 262144 + Low(b[1]) * 4096 + Low(b[2]) * 64 + Low(b[3]);
      if 0x1_0000 <= c < 0x11_0000 then Some((c, 4)) else None
    else None
  }

  /** Whether Python can encode the text: it holds no surrogate. */
  predicate Encodable(t: Text) { forall i :: 0 <= i < |t| ==> !IsSurrogate(t[i]) }

  function Utf8(t: Text): Bytes
    requires Encodable(t)
  {
    if t == [] then [] else EncodeChar(t[0]) + Utf8(t[1..])
  }

  function Decode(b: Bytes): Option<Text> {
    if b == [] then Some([])
    else
      var first := DecodeChar(b);
      if first.None? then None
      else
        var rest := Decode(b[first.value.1..]);
        if rest.None? then None else Some([first.value.0] + rest.value)
  }

  lemma CharRoundTrip(c: CodePoint, rest: Bytes)
    requires !IsSurrogate(c)
    ensures DecodeChar(EncodeChar(c) + rest) == Some((c, |EncodeChar(c)|))
  {
    var b := EncodeChar(c) + rest;
    assert forall i :: 0 <= i < |EncodeChar(c)| ==> b[i] == EncodeChar(c)[i];
    Digits64(c);
  }

  /** The base-64 digits of a code point. */
  lemma Digits64(c: CodePoint)
    ensures c == c / 64 * 64 + c % 64 && c / 64 == c / 4096 * 64 + c / 64 % 64
    ensures c / 4096 == c / 262144 * 64 + c / 4096 % 64 && c / 262144 <= 4
  {
  }

  lemma CharBack(b: Bytes)
    requires b != [] && DecodeChar(b).Some?
    ensures var (c, n) := DecodeChar(b).value; !IsSurrogate(c) && EncodeChar(c) == b[..n]
  {
    var (c, n) := DecodeChar(b).value;
    if n == 2 {
      DigitsAre(0, High(b[0], 0xC0), Low(b[1]), c);
    } else if n == 3 {
      DigitsAre(High(b[0], 0xE0), Low(b[1]), Low(b[2]), c);
    } else if n == 4 {
      var top := High(b[0], 0xF0) * 64 + Low(b[1]);
      DigitsAre(top, Low(b[2]), Low(b[3]), c);
      TopDigitsAre(High(b[0], 0xF0), Low(b[1]), top, c);
    }
  }

  lemma DigitsAre(x: nat, y: nat, z: nat, c: nat)
    requires y < 64 && z < 64 && c == x * 4096 + y * 64 + z
    ensures c / 4096 == x && c / 64 == x * 64 + y && c / 64 % 64 == y && c % 64 == z
  {
  }

  lemma TopDigitsAre(x: nat, y: nat, top: nat, c: nat)
    requires y < 64 && top == x * 64 + y && c / 4096 == top
    ensures c / 262144 == x && c / 4096 % 64 == y
  {
    assert c / 262144 == c / 4096 / 64;
  }

  /** Decoding inverts encoding. */
  lemma {:induction false} DecodeInverts(t: Text)
    requires Encodable(t)
    ensures Decode(Utf8(t)) == Some(t)
  {
    if t != [] {
      var first, rest := EncodeChar(t[0]), Utf8(t[1..]);
      CharRoundTrip(t[0], rest);
      assert (first + rest)[|first|..] == rest;
      DecodeInverts(t[1..]);
      assert t == [t[0]] + t[1..];
    }
  }

  /** Encoding inverts decoding: a text has one encoding. */
  lemma {:induction false} EncodeInverts(b: Bytes)
    requires Decode(b).Some?
    ensures Encodable(Decode(b).value) && Utf8(Decode(b).value) == b
  {
    if b != [] {
      var (c, n) := DecodeChar(b).value;
      var t := Decode(b).value;
      CharBack(b);
      EncodeInverts(b[n..]);
      assert t[0] == c && t[1..] == Decode(b[n..]).value;
      assert b == b[..n] + b[n..];
    }
  }

  // ----- Integers -----

  function Pow256(n: nat): (p: nat)
    ensures p > 0
  {
    if n == 0 then 1 else 256 * Pow256(n - 1)
  }

  /** The number in `width` bytes, the high byte first. */
  function BigEndian(v: nat, width: nat): (b: Bytes)
    ensures |b| == width
  {
    if width == 0 then [] else BigEndian(v / 256, width - 1) + [v % 256]
  }

  function FromBigEndian(b: Bytes): nat {
    if b == [] then 0 else FromBigEndian(b[..|b| - 1]) * 256 + b[|b| - 1] as nat
  }

  lemma {:induction false} NumberRoundTrip(v: nat, width: nat)
    requires v < Pow256(width)
    ensures FromBigEndian(BigEndian(v, width)) == v
  {
    if width > 0 {
      NumberRoundTrip(v / 256, width - 1);
      assert BigEndian(v, width)[..width - 1] == BigEndian(v / 256, width - 1);
    }
  }

  lemma {:induction false} NumberBack(b: Bytes)
    ensures FromBigEndian(b) < Pow256(|b|) && BigEndian(FromBigEndian(b), |b|) == b
  {
    if b != [] {
      NumberBack(b[..|b| - 1]);
      assert b == b[..|b| - 1] + [b[|b| - 1]];
    }
  }

  lemma EightBytes()
    ensures Pow256(8) == 0x1_0000_0000_0000_0000 && Pow256(4) == 0x1_0000_0000
  {
    assert Pow256(3) == 0x100_0000;
    assert Pow256(4) == 0x1_0000_0000;
    assert Pow256(6) == 0x1_0000_0000_0000;
  }

  /** `struct.pack` of an unsigned number: an error when it does not fit. */
  function PackUnsigned(v: int, width: nat): Option<Bytes> {
    if 0 <= v < Pow256(width) then Some(BigEndian(v, width)) else None
  }

  /** `struct.pack` of a signed 64-bit number, in two's complement. */
  function PackSigned64(v: int): Option<Bytes> {
    if 0 <= v < 0x8000_0000_0000_0000 then Some(BigEndian(v, 8))
    else if -0x8000_0000_0000_0000 <= v < 0 then Some(BigEndian(v + 0x1_0000_0000_0000_0000, 8))
    else None
  }

  lemma PackUnsignedIsInjective(v: int, w: int, width: nat)
    requires PackUnsigned(v, width).Some? && PackUnsigned(v, width) == PackUnsigned(w, width)
    ensures v == w
  {
    NumberRoundTrip(v, width);
    NumberRoundTrip(w, width);
  }

  lemma PackSignedIsInjective(v: int, w: int)
    requires PackSigned64(v).Some? && PackSigned64(v) == PackSigned64(w)
    ensures v == w
  {
    EightBytes();
    NumberRoundTrip(if v >= 0 then v else v + 0x1_0000_0000_0000_0000, 8);
    NumberRoundTrip(if w >= 0 then w else w + 0x1_0000_0000_0000_0000, 8);
  }

  // ----- Length-prefixed texts -----

  /** The bytes behind their length. */
  function LenBytes(data: Bytes): Option<Bytes> {
    var size := PackUnsigned(|data|, 8);
    if size.None? then None else Some(size.value + data)
  }

  function LenUtf8(t: Text): Option<Bytes> { if Encodable(t) then LenBytes(Utf8(t)) else None }

  /** A slice as Python takes it: cut off where the data ends. */
  function Slice(data: Bytes, start: nat, end: nat): Bytes {
    if start >= |data| || end <= start then [] else data[start..if end <= |data| then end else |data|]
  }

  /** The bytes at `offset` behind their length, and where they end according to it. */
  function ReadLenBytes(data: Bytes, offset: nat): Option<(Bytes, nat)> {
    if |data| < offset + 8 then None
    else
      var end := offset + 8 + FromBigEndian(data[offset..offset + 8]);
      Some((Slice(data, offset + 8, end), end))
  }

  /** The text at `offset`, and where it ends according to its length. */
  function ReadLenUtf8(data: Bytes, offset: nat): Option<(Text, nat)> {
    var b := ReadLenBytes(data, offset);
    if b.None? || Decode(b.value.0).None? then None else Some((Decode(b.value.0).value, b.value.1))
  }

  lemma ReadBytesInverts(before: Bytes, b: Bytes, after: Bytes)
    requires LenBytes(b).Some?
    ensures ReadLenBytes(before + LenBytes(b).value + after, |before|) == Some((b, |before| + |LenBytes(b).value|))
  {
    var n, data := |before|, before + LenBytes(b).value + after;
    NumberRoundTrip(|b|, 8);
    hide FromBigEndian, Pow256;
    assert data[n..n + 8] == BigEndian(|b|, 8);
    hide BigEndian;
    assert data[n + 8..n + 8 + |b|] == b;
  }

  /** Reading inverts writing at any offset inside any bytes. */
  lemma ReadInverts(before: Bytes, t: Text, after: Bytes)
    requires LenUtf8(t).Some?
    ensures ReadLenUtf8(before + LenUtf8(t).value + after, |before|)
         == Some((t, |before| + |LenUtf8(t).value|))
  {
    hide ReadLenBytes, LenBytes, Utf8, Decode, EncodeChar, DecodeChar;
    ReadBytesInverts(before, Utf8(t), after);
    DecodeInverts(t);
  }

  /** Whether `b` stands at `offset`. */
  predicate StandsAt(data: Bytes, offset: nat, b: Bytes) {
    |data| >= offset + |b| && data[offset..offset + |b|] == b
  }

  lemma ReadBytesBack(data: Bytes, offset: nat)
    requires ReadLenBytes(data, offset).Some?
    ensures
      var (b, end) := ReadLenBytes(data, offset).value;
      end <= |data| <==> LenBytes(b).Some? && StandsAt(data, offset, LenBytes(b).value)
  {
    var size := FromBigEndian(data[offset..offset + 8]);
    var (b, end) := ReadLenBytes(data, offset).value;
    NumberBack(data[offset..offset + 8]);
    hide BigEndian, FromBigEndian, Pow256;
    if end <= |data| {
      assert |b| == size;
      assert data[offset..end] == data[offset..offset + 8] + b;
    } else if LenBytes(b).Some? && StandsAt(data, offset, LenBytes(b).value) {
      LengthStands(data, offset, b);
    }
  }

  lemma LengthStands(data: Bytes, offset: nat, b: Bytes)
    requires LenBytes(b).Some? && StandsAt(data, offset, LenBytes(b).value)
    ensures |data| >= offset + 8 + |b| && FromBigEndian(data[offset..offset + 8]) == |b|
  {
    NumberRoundTrip(|b|, 8);
    assert LenBytes(b).value[..8] == BigEndian(|b|, 8);
    hide BigEndian, FromBigEndian, Pow256;
    assert data[offset..offset + 8] == LenBytes(b).value[..8];
  }

  /**
   * What is read was written there: exactly when the length stays inside the data. A length past the end is not
   * refused; the text is then what is left.
   */
  lemma ReadWhatWasWritten(data: Bytes, offset: nat)
    requires ReadLenUtf8(data, offset).Some?
    ensures
      var (t, end) := ReadLenUtf8(data, offset).value;
      end <= |data| <==> LenUtf8(t).Some? && StandsAt(data, offset, LenUtf8(t).value)
  {
    ReadBytesBack(data, offset);
    EncodeInverts(ReadLenBytes(data, offset).value.0);
    hide ReadLenBytes, LenBytes, Utf8, Decode, StandsAt, Encodable;
  }

  lemma ReadFirst(t: Text, after: Bytes)
    requires LenUtf8(t).Some?
    ensures ReadLenUtf8(LenUtf8(t).value + after, 0) == Some((t, |LenUtf8(t).value|))
  {
    ReadInverts([], t, after);
    hide ReadLenUtf8, LenUtf8;
    assert [] + LenUtf8(t).value + after == LenUtf8(t).value + after;
  }

  /** No length-prefixed text is the start of another: what follows does not blur it. */
  lemma LenUtf8IsPrefixFree(s: Text, t: Text, x: Bytes, y: Bytes)
    requires LenUtf8(s).Some? && LenUtf8(t).Some? && LenUtf8(s).value + x == LenUtf8(t).value + y
    ensures s == t && x == y
  {
    ReadFirst(s, x);
    ReadFirst(t, y);
    hide ReadLenUtf8, LenUtf8;
    Cut(LenUtf8(s).value, x, LenUtf8(t).value, y);
  }

  lemma Cut(a: Bytes, x: Bytes, b: Bytes, y: Bytes)
    requires |a| == |b| && a + x == b + y
    ensures a == b && x == y
  {
    assert (a + x)[..|a|] == a && (b + y)[..|b|] == b;
    assert (a + x)[|a|..] == x && (b + y)[|b|..] == y;
  }

  // ----- Concatenation of parts that may fail -----

  /** The parts one after another, or the first failure. */
  function Joined(parts: seq<Option<Bytes>>): Option<Bytes> {
    if parts == [] then Some([])
    else
      var rest := Joined(parts[1..]);
      if parts[0].None? || rest.None? then None else Some(parts[0].value + rest.value)
  }

  lemma JoinedStep(parts: seq<Option<Bytes>>)
    requires parts != [] && Joined(parts).Some?
    ensures parts[0].Some? && Joined(parts[1..]).Some?
    ensures Joined(parts).value == parts[0].value + Joined(parts[1..]).value
  {
  }

  /** One byte, as `bytes([v])` makes it. */
  function OneByte(v: int): Option<Bytes> { if 0 <= v < 256 then Some([v]) else None }

  /** A part tells its value apart, whatever follows it. */
  ghost predicate Faithful(p: Option<Bytes>, q: Option<Bytes>, same: bool) {
    p.Some? && q.Some? ==> forall x: Bytes, y: Bytes :: p.value + x == q.value + y ==> same && x == y
  }

  lemma TextPart(s: Text, t: Text)
    ensures Faithful(LenUtf8(s), LenUtf8(t), s == t)
  {
    if LenUtf8(s).Some? && LenUtf8(t).Some? {
      forall x: Bytes, y: Bytes | LenUtf8(s).value + x == LenUtf8(t).value + y ensures s == t && x == y {
        LenUtf8IsPrefixFree(s, t, x, y);
      }
    }
  }

  lemma FixedPart(p: Option<Bytes>, q: Option<Bytes>, same: bool)
    requires p.Some? && q.Some? ==> |p.value| == |q.value| && (p == q ==> same)
    ensures Faithful(p, q, same)
  {
    if p.Some? && q.Some? {
      forall x: Bytes, y: Bytes | p.value + x == q.value + y ensures same && x == y {
        Cut(p.value, x, q.value, y);
      }
    }
  }

  lemma UnsignedPart(v: int, w: int, width: nat)
    ensures Faithful(PackUnsigned(v, width), PackUnsigned(w, width), v == w)
  {
    if PackUnsigned(v, width).Some? && PackUnsigned(v, width) == PackUnsigned(w, width) {
      PackUnsignedIsInjective(v, w, width);
    }
    FixedPart(PackUnsigned(v, width), PackUnsigned(w, width), v == w);
  }

  lemma SignedPart(v: int, w: int)
    ensures Faithful(PackSigned64(v), PackSigned64(w), v == w)
  {
    if PackSigned64(v).Some? && PackSigned64(v) == PackSigned64(w) { PackSignedIsInjective(v, w); }
    FixedPart(PackSigned64(v), PackSigned64(w), v == w);
  }

  /** Joined parts, each faithful, tell all values apart. */
  lemma {:induction false} JoinedIsFaithful(ps: seq<Option<Bytes>>, qs: seq<Option<Bytes>>, same: seq<bool>)
    requires |ps| == |qs| == |same| && Joined(ps).Some? && Joined(ps) == Joined(qs)
    requires forall i :: 0 <= i < |ps| ==> Faithful(ps[i], qs[i], same[i])
    ensures forall i :: 0 <= i < |same| ==> same[i]
  {
    if ps != [] {
      JoinedStep(ps);
      JoinedStep(qs);
      assert Faithful(ps[0], qs[0], same[0]);
      JoinedIsFaithful(ps[1..], qs[1..], same[1..]);
      assert forall i :: 1 <= i < |same| ==> same[i] == same[1..][i - 1];
    }
  }

  lemma {:induction false} JoinedAppend(ps: seq<Option<Bytes>>, q: Option<Bytes>)
    ensures Joined(ps + [q]) ==
      if Joined(ps).None? || q.None? then None else Some(Joined(ps).value + q.value)
  {
    if ps == [] {
      assert [q][1..] == [] && ps + [q] == [q];
      assert q.Some? ==> q.value + [] == [] + q.value;
      assert Joined([]) == Some([]);
    } else {
      assert (ps + [q])[1..] == ps[1..] + [q];
      JoinedAppend(ps[1..], q);
      if q.Some? && ps[0].Some? && Joined(ps[1..]).Some? {
        assert ps[0].value + (Joined(ps[1..]).value + q.value) == (ps[0].value + Joined(ps[1..]).value) + q.value;
      }
    }
  }
}
