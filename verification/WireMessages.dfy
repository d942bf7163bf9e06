/**
 * The byte strings that are authenticated, signed and sent: additional data, sign bytes, chat payloads. Different
 * fields never make the same bytes.
 */
module WireMessages {
  import opened WireCodec
  import opened Wrappers

  // ----- Additional authenticated data -----

  datatype Aad = Aad(
    channel: int, peer: Text, message: Text, sender: Text, senderSeq: int, sessionEpoch: int, timestamp: int)

  function AadParts(a: Aad): seq<Option<Bytes>> {
    [Some([1]), OneByte(a.channel), LenUtf8(a.peer), LenUtf8(a.message), LenUtf8(a.sender),
     PackUnsigned(a.senderSeq, 8), PackUnsigned(a.sessionEpoch, 4), PackSigned64(a.timestamp)]
  }

  /** Appends part `i`, or fails. */
  method Append(out: Option<Bytes>, part: Option<Bytes>, ghost parts: seq<Option<Bytes>>, ghost i: nat)
    returns (more: Option<Bytes>)
    requires i < |parts| && part == parts[i] && out == Joined(parts[..i])
    ensures more == Joined(parts[..i + 1])
    ensures i + 1 == |parts| ==> more == Joined(parts)
  {
    JoinedAppend(parts[..i], part);
    assert parts[..i] + [part] == parts[..i + 1];
    assert i + 1 == |parts| ==> parts[..i + 1] == parts;
    more := if out.None? || part.None? then None else Some(out.value + part.value);
  }

  lemma NothingJoined(parts: seq<Option<Bytes>>)
    ensures Joined(parts[..0]) == Some([])
  {
  }

  method BuildAad(a: Aad) returns (out: Option<Bytes>)
    ensures out == Joined(AadParts(a))
  {
    ghost var ps := AadParts(a);
    NothingJoined(ps);
    hide Joined;
    out := Append(Some([]), Some([1]), ps, 0);
    out := Append(out, OneByte(a.channel), ps, 1);
    out := Append(out, LenUtf8(a.peer), ps, 2);
    out := Append(out, LenUtf8(a.message), ps, 3);
    out := Append(out, LenUtf8(a.sender), ps, 4);
    out := Append(out, PackUnsigned(a.senderSeq, 8), ps, 5);
    out := Append(out, PackUnsigned(a.sessionEpoch, 4), ps, 6);
    out := Append(out, PackSigned64(a.timestamp), ps, 7);
  }

  lemma BytePart(v: int, w: int)
    ensures Faithful(OneByte(v), OneByte(w), v == w)
  {
    FixedPart(OneByte(v), OneByte(w), v == w);
  }

  lemma SamePart(b: Bytes)
    ensures Faithful(Some(b), Some(b), true)
  {
    FixedPart(Some(b), Some(b), true);
  }

  /** Additional data is injective in its seven fields. */
  lemma AadIsInjective(a: Aad, b: Aad)
    requires Joined(AadParts(a)).Some? && Joined(AadParts(a)) == Joined(AadParts(b))
    ensures a == b
  {
    var ps, qs := AadParts(a), AadParts(b);
    var same := AadSame(a, b);
    hide Faithful, Joined, LenUtf8, PackUnsigned, PackSigned64, OneByte;
    forall i | 0 <= i < 8 ensures Faithful(ps[i], qs[i], same[i]) {
      AadPartIsFaithful(a, b, i);
    }
    JoinedIsFaithful(ps, qs, same);
    assert same[1] && same[2] && same[3] && same[4] && same[5] && same[6] && same[7];
  }

  function AadSame(a: Aad, b: Aad): seq<bool> {
    [true, a.channel == b.channel, a.peer == b.peer, a.message == b.message, a.sender == b.sender,
     a.senderSeq == b.senderSeq, a.sessionEpoch == b.sessionEpoch, a.timestamp == b.timestamp]
  }

  lemma AadPartIsFaithful(a: Aad, b: Aad, i: nat)
    requires i < 8
    ensures Faithful(AadParts(a)[i], AadParts(b)[i], AadSame(a, b)[i])
  {
    hide Faithful, LenUtf8, PackUnsigned, PackSigned64, OneByte;
    match i
    case 0 => SamePart([1]);
    case 1 => BytePart(a.channel, b.channel);
    case 2 => TextPart(a.peer, b.peer);
    case 3 => TextPart(a.message, b.message);
    case 4 => TextPart(a.sender, b.sender);
    case 5 => UnsignedPart(a.senderSeq, b.senderSeq, 8);
    case 6 => UnsignedPart(a.sessionEpoch, b.sessionEpoch, 4);
    case _ => SignedPart(a.timestamp, b.timestamp);
  }

  // ----- Sign bytes -----

  datatype Envelope = Envelope(
    bodyHash: Bytes, timestamp: int, senderSeq: int, sessionEpoch: int, channel: int, message: Text, sender: Text)

  function Ascii(s: string): Bytes
    requires forall i :: 0 <= i < |s| ==> s[i] < 128 as char
  {
    seq(|s|, i requires 0 <= i < |s| => s[i] as int)
  }

  const DOMAIN := Ascii("pp-browser:relay-envelope-sign-v1") + [0]

  function SignParts(e: Envelope): seq<Option<Bytes>> {
    [Some(DOMAIN + [1, 1, 0]), OneByte(e.channel), PackSigned64(e.timestamp), PackUnsigned(e.senderSeq, 8),
     PackUnsigned(e.sessionEpoch, 4), Some(e.bodyHash), LenUtf8(e.message), LenUtf8(e.sender)]
  }

  method BuildSignBytes(e: Envelope) returns (out: Option<Bytes>)
    ensures out == Joined(SignParts(e))
  {
    ghost var ps := SignParts(e);
    NothingJoined(ps);
    hide Joined;
    out := Append(Some([]), Some(DOMAIN + [1, 1, 0]), ps, 0);
    out := Append(out, OneByte(e.channel), ps, 1);
    out := Append(out, PackSigned64(e.timestamp), ps, 2);
    out := Append(out, PackUnsigned(e.senderSeq, 8), ps, 3);
    out := Append(out, PackUnsigned(e.sessionEpoch, 4), ps, 4);
    out := Append(out, Some(e.bodyHash), ps, 5);
    out := Append(out, LenUtf8(e.message), ps, 6);
    out := Append(out, LenUtf8(e.sender), ps, 7);
  }

  /** Sign bytes are injective in their seven fields when the body hashes have one length, as 32-byte hashes do. */
  lemma SignBytesAreInjective(a: Envelope, b: Envelope)
    requires |a.bodyHash| == |b.bodyHash|
    requires Joined(SignParts(a)).Some? && Joined(SignParts(a)) == Joined(SignParts(b))
    ensures a == b
  {
    var ps, qs, same := SignParts(a), SignParts(b), SignSame(a, b);
    hide Faithful, Joined, LenUtf8, PackUnsigned, PackSigned64, OneByte;
    forall i | 0 <= i < 8 ensures Faithful(ps[i], qs[i], same[i]) {
      SignPartIsFaithful(a, b, i);
    }
    JoinedIsFaithful(ps, qs, same);
    assert same[1] && same[2] && same[3] && same[4] && same[5] && same[6] && same[7];
  }

  function SignSame(a: Envelope, b: Envelope): seq<bool> {
    [true, a.channel == b.channel, a.timestamp == b.timestamp, a.senderSeq == b.senderSeq,
     a.sessionEpoch == b.sessionEpoch, a.bodyHash == b.bodyHash, a.message == b.message, a.sender == b.sender]
  }

  lemma SignPartIsFaithful(a: Envelope, b: Envelope, i: nat)
    requires i < 8 && |a.bodyHash| == |b.bodyHash|
    ensures Faithful(SignParts(a)[i], SignParts(b)[i], SignSame(a, b)[i])
  {
    hide Faithful, LenUtf8, PackUnsigned, PackSigned64, OneByte;
    match i
    case 0 => SamePart(DOMAIN + [1, 1, 0]);
    case 1 => BytePart(a.channel, b.channel);
    case 2 => SignedPart(a.timestamp, b.timestamp);
    case 3 => UnsignedPart(a.senderSeq, b.senderSeq, 8);
    case 4 => UnsignedPart(a.sessionEpoch, b.sessionEpoch, 4);
    case 5 => FixedPart(Some(a.bodyHash), Some(b.bodyHash), a.bodyHash == b.bodyHash);
    case 6 => TextPart(a.message, b.message);
    case _ => TextPart(a.sender, b.sender);
  }

  const NO_BYTES: Bytes := []

  const NO_TEXT: Text := []

  lemma TailsOfMessages(hash: Bytes, message: Text, sender: Text)
    requires LenUtf8(message).Some? && LenUtf8(sender).Some?
    ensures Joined([Some(hash), LenUtf8(message), LenUtf8(sender)])
         == Some(hash + (LenUtf8(message).value + (LenUtf8(sender).value + [])))
  {
    var last: seq<Option<Bytes>> := [LenUtf8(sender)];
    var two: seq<Option<Bytes>> := [LenUtf8(message), LenUtf8(sender)];
    var all: seq<Option<Bytes>> := [Some(hash), LenUtf8(message), LenUtf8(sender)];
    hide LenUtf8;
    assert last[1..] == [] && two[1..] == last && all[1..] == two;
    assert Joined(last[1..]) == Some([]);
    assert Joined(last) == Some(LenUtf8(sender).value + []);
    assert Joined(two) == Some(LenUtf8(message).value + (LenUtf8(sender).value + []));
  }

  lemma {:induction false} SameTailsSameBytes(front: seq<Option<Bytes>>, p: seq<Option<Bytes>>, q: seq<Option<Bytes>>)
    requires Joined(p) == Joined(q)
    ensures Joined(front + p) == Joined(front + q)
    ensures Joined(front + p).Some? <==> Joined(front).Some? && Joined(p).Some?
  {
    if front == [] {
      assert front + p == p && front + q == q;
    } else {
      SameTailsSameBytes(front[1..], p, q);
      assert (front + p)[1..] == front[1..] + p && (front + q)[1..] == front[1..] + q;
    }
  }

  /** The envelope's parts before the hash, and from the hash on. */
  lemma SignPartsInTwo(e: Envelope)
    ensures SignParts(e) == SignParts(e)[..5] + [Some(e.bodyHash), LenUtf8(e.message), LenUtf8(e.sender)]
  {
    hide LenUtf8, PackUnsigned, PackSigned64, OneByte;
  }

  lemma EightZeros()
    ensures exists hash: Bytes, zeros: Text :: hash != [] && zeros != [] && MakeTheSame(hash, zeros)
  {
    var zeros := seq(8, i => 0 as CodePoint);
    var nothing, hash := seq(8, i => 0 as Byte), BigEndian(8, 8);
    EightBytes();
    ZerosEncode(8);
    ZeroIsZeros(8);
    assert Utf8(NO_TEXT) == [];
    assert LenUtf8(NO_TEXT) == Some(nothing + []) && LenUtf8(zeros) == Some(hash + nothing);
    hide LenUtf8, BigEndian, Utf8;
    assert hash + (nothing + []) == NO_BYTES + (hash + nothing);
    assert MakeTheSame(hash, zeros);
  }

  /** A hash before the empty message id and no hash before another make the same bytes. */
  predicate MakeTheSame(hash: Bytes, message: Text) {
    LenUtf8(NO_TEXT).Some? && LenUtf8(message).Some? && hash + LenUtf8(NO_TEXT).value == LenUtf8(message).value
  }

  /** The length of the hash matters: every envelope's fields can be signed with two hashes to the same bytes. */
  lemma HashLengthMatters(e: Envelope)
    requires Joined(SignParts(e)).Some?
    ensures exists hash: Bytes, message: Text ::
      var a, b := e.(bodyHash := hash, message := NO_TEXT), e.(bodyHash := NO_BYTES, message := message);
      a.bodyHash != b.bodyHash && a.message != b.message
      && Joined(SignParts(a)).Some? && Joined(SignParts(a)) == Joined(SignParts(b))
  {
    EightZeros();
    var hash: Bytes, message: Text :| hash != [] && message != [] && MakeTheSame(hash, message);
    var a, b := e.(bodyHash := hash, message := NO_TEXT), e.(bodyHash := NO_BYTES, message := message);
    var front := SignParts(e)[..5];
    SignPartsInTwo(e);
    SignPartsInTwo(a);
    SignPartsInTwo(b);
    assert SignParts(a)[..5] == front == SignParts(b)[..5] by { hide LenUtf8, PackUnsigned, PackSigned64, OneByte; }
    var last: seq<Option<Bytes>> := [Some(e.bodyHash), LenUtf8(e.message), LenUtf8(e.sender)];
    hide LenUtf8, SignParts, Joined, MakeTheSame;
    SameTailsSameBytes(front, last, last);
    SenderEncodes(e);
    TailsAreTheSame(hash, message, e.sender);
    SameTailsSameBytes(front, [Some(hash), LenUtf8(NO_TEXT), LenUtf8(e.sender)],
                       [Some(NO_BYTES), LenUtf8(message), LenUtf8(e.sender)]);
    assert a.bodyHash != b.bodyHash && a.message != b.message;
  }

  lemma TailsAreTheSame(hash: Bytes, message: Text, sender: Text)
    requires MakeTheSame(hash, message) && LenUtf8(sender).Some?
    ensures Joined([Some(hash), LenUtf8(NO_TEXT), LenUtf8(sender)]).Some?
    ensures Joined([Some(hash), LenUtf8(NO_TEXT), LenUtf8(sender)])
         == Joined([Some(NO_BYTES), LenUtf8(message), LenUtf8(sender)])
  {
    hide LenUtf8, Joined;
    TailsOfMessages(hash, NO_TEXT, sender);
    TailsOfMessages(NO_BYTES, message, sender);
    var n, m, s := LenUtf8(NO_TEXT).value, LenUtf8(message).value, LenUtf8(sender).value + [];
    assert hash + (n + s) == (hash + n) + s == m + s == NO_BYTES + (m + s);
  }

  lemma SenderEncodes(e: Envelope)
    requires Joined([Some(e.bodyHash), LenUtf8(e.message), LenUtf8(e.sender)]).Some?
    ensures LenUtf8(e.sender).Some?
  {
    var all: seq<Option<Bytes>> := [Some(e.bodyHash), LenUtf8(e.message), LenUtf8(e.sender)];
    hide LenUtf8;
    assert all[1..] == [LenUtf8(e.message), LenUtf8(e.sender)] && all[1..][1..] == [LenUtf8(e.sender)];
    JoinedStep(all);
    JoinedStep(all[1..]);
    JoinedStep(all[1..][1..]);
  }

  lemma {:induction false} ZerosEncode(n: nat)
    ensures Encodable(seq(n, i => 0 as CodePoint)) && Utf8(seq(n, i => 0 as CodePoint)) == seq(n, i => 0 as Byte)
  {
    if n > 0 {
      ZerosEncode(n - 1);
      assert seq(n, i => 0 as CodePoint)[1..] == seq(n - 1, i => 0 as CodePoint);
      assert [0 as Byte] + seq(n - 1, i => 0 as Byte) == seq(n, i => 0 as Byte);
    }
  }

  lemma {:induction false} ZeroIsZeros(n: nat)
    ensures BigEndian(0, n) == seq(n, i => 0 as Byte)
  {
    if n > 0 { ZeroIsZeros(n - 1); }
  }

  // ----- Chat payloads -----

  datatype Payload =
    | ChatText(text: Text, formatPlain: bool)
    | System(text: Text, controlType: Text, detail: Text)

  function PayloadParts(p: Payload): seq<Option<Bytes>> {
    match p
    case ChatText(text, formatPlain) =>
      if formatPlain then [Some([1, 0]), LenUtf8(text), Some([1, 0])] else [Some([1, 0]), LenUtf8(text)]
    case System(text, control, detail) =>
      [Some([1, 1]), LenUtf8(text), Some([1]), LenUtf8(control), LenUtf8(detail)]
  }

  method EncodeText(text: Text, formatPlain: bool) returns (out: Option<Bytes>)
    ensures out == Joined(PayloadParts(ChatText(text, formatPlain)))
  {
    ghost var ps := PayloadParts(ChatText(text, formatPlain));
    NothingJoined(ps);
    hide Joined;
    out := Append(Some([]), Some([1, 0]), ps, 0);
    out := Append(out, LenUtf8(text), ps, 1);
    if formatPlain {
      out := Append(out, Some([1, 0]), ps, 2);
    }
  }

  method EncodeSystem(text: Text, control: Text, detail: Text) returns (out: Option<Bytes>)
    ensures out == Joined(PayloadParts(System(text, control, detail)))
  {
    ghost var ps := PayloadParts(System(text, control, detail));
    NothingJoined(ps);
    hide Joined;
    out := Append(Some([]), Some([1, 1]), ps, 0);
    out := Append(out, LenUtf8(text), ps, 1);
    out := Append(out, Some([1]), ps, 2);
    out := Append(out, LenUtf8(control), ps, 3);
    out := Append(out, LenUtf8(detail), ps, 4);
  }

  /** Chat payloads are injective over all forms: the text, its format mark, and the system fields are told apart. */
  lemma PayloadsAreInjective(p: Payload, q: Payload)
    requires Joined(PayloadParts(p)).Some? && Joined(PayloadParts(p)) == Joined(PayloadParts(q))
    ensures p == q
  {
    KindsDiffer(p, q);
    if p.System? {
      SystemsAreInjective(p, q);
    } else {
      TextsAreInjective(p, q);
    }
  }

  /** The second byte tells the forms apart. */
  lemma KindsDiffer(p: Payload, q: Payload)
    requires Joined(PayloadParts(p)).Some? && Joined(PayloadParts(p)) == Joined(PayloadParts(q))
    ensures p.System? == q.System?
  {
    JoinedStep(PayloadParts(p));
    JoinedStep(PayloadParts(q));
    hide Joined, LenUtf8;
    assert Joined(PayloadParts(p)).value[1] == if p.System? then 1 else 0;
    assert Joined(PayloadParts(q)).value[1] == if q.System? then 1 else 0;
  }

  lemma SystemsAreInjective(p: Payload, q: Payload)
    requires p.System? && q.System?
    requires Joined(PayloadParts(p)).Some? && Joined(PayloadParts(p)) == Joined(PayloadParts(q))
    ensures p == q
  {
    var ps, qs := PayloadParts(p), PayloadParts(q);
    var same := [true, p.text == q.text, true, p.controlType == q.controlType, p.detail == q.detail];
    hide Faithful, Joined, LenUtf8;
    forall i | 0 <= i < 5 ensures Faithful(ps[i], qs[i], same[i]) {
      match i
      case 0 => SamePart([1, 1]);
      case 1 => TextPart(p.text, q.text);
      case 2 => SamePart([1]);
      case 3 => TextPart(p.controlType, q.controlType);
      case _ => TextPart(p.detail, q.detail);
    }
    JoinedIsFaithful(ps, qs, same);
    assert same[1] && same[3] && same[4];
  }

  /** A text's bytes: the head, the text, and the format mark or nothing. */
  lemma TextBytes(p: Payload)
    requires p.ChatText? && Joined(PayloadParts(p)).Some?
    ensures LenUtf8(p.text).Some?
    ensures Joined(PayloadParts(p)).value == [1, 0] + (LenUtf8(p.text).value + if p.formatPlain then [1, 0] else [])
  {
    var ps := PayloadParts(p);
    JoinedStep(ps);
    JoinedStep(ps[1..]);
    if p.formatPlain {
      assert ps[1..][1..] == [Some([1, 0])] && [Some([1, 0])][1..] == [];
      assert Joined(ps[1..][1..]).value == [1, 0] + [];
    } else {
      var rest: seq<Option<Bytes>> := ps[1..][1..];
      assert rest == [];
    }
  }

  lemma TextsAreInjective(p: Payload, q: Payload)
    requires p.ChatText? && q.ChatText?
    requires Joined(PayloadParts(p)).Some? && Joined(PayloadParts(p)) == Joined(PayloadParts(q))
    ensures p == q
  {
    TextBytes(p);
    TextBytes(q);
    hide Joined, LenUtf8;
    var x: Bytes := if p.formatPlain then [1, 0] else [];
    var y: Bytes := if q.formatPlain then [1, 0] else [];
    Cut([1, 0], LenUtf8(p.text).value + x, [1, 0], LenUtf8(q.text).value + y);
    LenUtf8IsPrefixFree(p.text, q.text, x, y);
  }
}
