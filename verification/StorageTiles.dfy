/**
 * The short name under a file's tile: the width it keeps to, the extension it keeps, and that no character is
 * cut in two.
 */
module StorageTiles {
  import opened WireCodec
  import opened Wrappers

  const BUDGET := 14
  const DOT: Byte := 0x2E

  /** "…" in UTF-8. */
  const ELLIPSIS: Bytes := [0xE2, 0x80, 0xA6]

  /** A character of the name as the scan takes it: where it begins, its bytes, its columns. */
  datatype Char = Char(pos: nat, len: nat, width: nat)

  function LengthOf(lead: Byte): (n: nat)
    ensures 1 <= n <= 4
  {
    if lead < 0x80 then 1 else if lead < 0xE0 then 2 else if lead < 0xF0 then 3 else 4
  }

  function WidthOf(lead: Byte): nat { if LengthOf(lead) >= 3 then 2 else 1 }

  function Min(a: nat, b: nat): nat { if a <= b then a else b }

  function CharAt(name: Bytes, i: nat): Char
    requires i < |name|
  {
    Char(i, Min(LengthOf(name[i]), |name| - i), WidthOf(name[i]))
  }

  function CharsFrom(name: Bytes, i: nat): (chars: seq<Char>)
    ensures i < |name| ==> chars != []
    decreases |name| - i
  {
    if i >= |name| then [] else [CharAt(name, i)] + CharsFrom(name, i + LengthOf(name[i]))
  }

  function Width(chars: seq<Char>): nat {
    if chars == [] then 0 else Width(chars[..|chars| - 1]) + chars[|chars| - 1].width
  }

  function LastDot(name: Bytes): (at: Option<nat>)
    ensures at.Some? ==>
      at.value < |name| && name[at.value] == DOT && forall i :: at.value < i < |name| ==> name[i] != DOT
    ensures at.None? ==> forall i :: 0 <= i < |name| ==> name[i] != DOT
  {
    if name == [] then None
    else if name[|name| - 1] == DOT then Some(|name| - 1)
    else LastDot(name[..|name| - 1])
  }

  /** The extension, when it is at most six bytes with its dot. */
  function Tail(name: Bytes): (tail: Bytes)
    ensures |tail| <= 6 && |tail| <= |name| && name[|name| - |tail|..] == tail
  {
    var dot := LastDot(name);
    if dot.Some? && |name| - dot.value <= 6 then name[dot.value..] else []
  }

  /** How many characters stay: those before `limit`, while there is room. */
  function Kept(chars: seq<Char>, k: nat, room: nat, limit: nat): (n: nat)
    requires k <= |chars|
    ensures k <= n <= |chars|
    decreases |chars| - k
  {
    if k == |chars| || chars[k].pos >= limit || chars[k].width > room then k
    else Kept(chars, k + 1, room - chars[k].width, limit)
  }

  function EndOf(chars: seq<Char>, n: nat): nat
    requires n <= |chars|
  {
    if n == 0 then 0 else chars[n - 1].pos + chars[n - 1].len
  }

  /** Each character begins where the one before it ends, inside the name. */
  ghost predicate Contiguous(chars: seq<Char>, i: nat, end: nat) {
    forall k :: 0 <= k < |chars| ==>
      && chars[k].pos == (if k == 0 then i else chars[k - 1].pos + chars[k - 1].len)
      && chars[k].pos < end && chars[k].pos + chars[k].len <= end
  }

  lemma {:induction false} CharsAreContiguous(name: Bytes, i: nat)
    ensures Contiguous(CharsFrom(name, i), i, |name|)
    decreases |name| - i
  {
    if i < |name| {
      var next, chars := i + LengthOf(name[i]), CharsFrom(name, i);
      CharsAreContiguous(name, next);
      var rest := CharsFrom(name, next);
      assert chars == [CharAt(name, i)] + rest;
      forall k | 0 <= k < |chars|
        ensures chars[k].pos == (if k == 0 then i else chars[k - 1].pos + chars[k - 1].len)
        ensures chars[k].pos < |name| && chars[k].pos + chars[k].len <= |name|
      {
        if k > 0 { assert chars[k] == rest[k - 1] && (k > 1 ==> chars[k - 1] == rest[k - 2]); }
      }
    }
  }

  lemma EndIsInside(name: Bytes, n: nat)
    requires n <= |CharsFrom(name, 0)|
    ensures EndOf(CharsFrom(name, 0), n) <= |name|
  {
    CharsAreContiguous(name, 0);
  }

  function KeptOf(name: Bytes): (n: nat)
    ensures n <= |CharsFrom(name, 0)|
  {
    Kept(CharsFrom(name, 0), 0, BUDGET - 1 - |Tail(name)|, |name| - |Tail(name)|)
  }

  /** What stays of the name before the cut. */
  function HeadOf(name: Bytes): Bytes { name[..Min(EndOf(CharsFrom(name, 0), KeptOf(name)), |name|)] }

  function Tile(name: Bytes): Bytes {
    if Width(CharsFrom(name, 0)) <= BUDGET then name else HeadOf(name) + ELLIPSIS + Tail(name)
  }

  lemma WidthStep(chars: seq<Char>, c: Char)
    ensures Width(chars + [c]) == Width(chars) + c.width
  {
    assert (chars + [c])[..|chars|] == chars;
  }

  lemma ScanOne(name: Bytes, i: nat, chars: seq<Char>)
    requires i < |name|
    ensures chars + CharsFrom(name, i) == (chars + [CharAt(name, i)]) + CharsFrom(name, i + LengthOf(name[i]))
  {
  }

  /** The characters of the name and their columns. */
  method Scan(name: Bytes) returns (chars: seq<Char>, total: nat)
    ensures chars == CharsFrom(name, 0) && total == Width(chars)
  {
    var i := 0;
    chars, total := [], 0;
    while i < |name|
      invariant CharsFrom(name, 0) == chars + CharsFrom(name, i) && total == Width(chars)
      decreases |name| - i
    {
      var len := LengthOf(name[i]);
      var c := Char(i, Min(len, |name| - i), if len >= 3 then 2 else 1);
      assert c == CharAt(name, i);
      WidthStep(chars, c);
      ScanOne(name, i, chars);
      hide CharsFrom, Width, LengthOf, WidthOf, CharAt;
      chars, total, i := chars + [c], total + c.width, i + len;
    }
  }

  method TileName(name: Bytes) returns (r: Bytes)
    ensures r == Tile(name)
  {
    var chars, total := Scan(name);
    hide CharsFrom, Width, LastDot, HeadOf;
    if total <= BUDGET { return name; }
    var dot := LastDot(name);
    var tail: Bytes := if dot.Some? && |name| - dot.value <= 6 then name[dot.value..] else [];
    assert tail == Tail(name);
    hide Tail;
    var head := Head(name, chars, tail);
    r := head + ELLIPSIS + tail;
  }

  /** The characters before the extension while there is room. */
  method Head(name: Bytes, chars: seq<Char>, tail: Bytes) returns (head: Bytes)
    requires chars == CharsFrom(name, 0) && tail == Tail(name)
    ensures head == HeadOf(name)
  {
    var room: nat, limit: nat, k: nat := BUDGET - 1 - |tail|, |name| - |tail|, 0;
    head := [];
    CharsAreContiguous(name, 0);
    hide CharsFrom, Tail;
    while k < |chars|
      invariant k <= |chars| && EndOf(chars, k) <= |name| && head == name[..EndOf(chars, k)]
      invariant Kept(chars, k, room, limit) == KeptOf(name)
    {
      var c := chars[k];
      if c.pos >= limit || c.width > room { break; }
      assert name[..c.pos] + name[c.pos..c.pos + c.len] == name[..c.pos + c.len];
      head, room, k := head + name[c.pos..c.pos + c.len], room - c.width, k + 1;
    }
  }

  // ----- What the cut keeps -----

  lemma {:induction false} KeptFits(chars: seq<Char>, k: nat, room: nat, limit: nat)
    requires k <= |chars|
    ensures var n := Kept(chars, k, room, limit);
      && Width(chars[..n]) <= Width(chars[..k]) + room
      && (forall m :: k <= m < n ==> chars[m].pos < limit)
      && (n < |chars| ==> chars[n].pos >= limit || Width(chars[..n]) + chars[n].width > Width(chars[..k]) + room)
    decreases |chars| - k
  {
    if !(k == |chars| || chars[k].pos >= limit || chars[k].width > room) {
      assert chars[..k + 1][..k] == chars[..k];
      KeptFits(chars, k + 1, room - chars[k].width, limit);
    }
  }

  /**
   * A name of at most 14 columns stays. Any other keeps its extension, and of the characters before it as many as
   * fit: with the "…" and the extension's bytes they take at most 14, and one more would not fit.
   */
  lemma TileKeepsToItsLine(name: Bytes)
    ensures Width(CharsFrom(name, 0)) <= BUDGET ==> Tile(name) == name
    ensures Width(CharsFrom(name, 0)) > BUDGET ==>
      var chars, n, tail := CharsFrom(name, 0), KeptOf(name), Tail(name);
      && EndOf(chars, n) <= |name| && Tile(name) == name[..EndOf(chars, n)] + ELLIPSIS + tail
      && Width(chars[..n]) + 1 + |tail| <= BUDGET
      && (forall m :: 0 <= m < n ==> chars[m].pos < |name| - |tail|)
      && (n < |chars| && chars[n].pos < |name| - |tail| ==>
           Width(chars[..n]) + chars[n].width + 1 + |tail| > BUDGET)
  {
    var chars, tail := CharsFrom(name, 0), Tail(name);
    EndIsInside(name, KeptOf(name));
    KeptFits(chars, 0, BUDGET - 1 - |tail|, |name| - |tail|);
    assert chars[..0] == [] && Width([]) == 0;
    hide CharsFrom, Tail, Kept, Width, EndOf;
  }

  // ----- No character is cut -----

  lemma LeadOfChar(c: CodePoint)
    requires !IsSurrogate(c)
    ensures LengthOf(EncodeChar(c)[0]) == |EncodeChar(c)|
    ensures forall i :: 1 <= i < |EncodeChar(c)| ==> EncodeChar(c)[i] >= 0x80
    ensures EncodeChar(c)[0] == DOT <==> c == 0x2E
  {
  }

  lemma EncodableJoins(a: Text, b: Text)
    requires Encodable(a) && Encodable(b)
    ensures Encodable(a + b)
  {
  }

  lemma EncodableCuts(t: Text, k: nat)
    requires Encodable(t) && k <= |t|
    ensures Encodable(t[..k]) && Encodable(t[k..])
  {
  }

  lemma {:induction false} Utf8Joins(a: Text, b: Text)
    requires Encodable(a) && Encodable(b)
    ensures Encodable(a + b) && Utf8(a + b) == Utf8(a) + Utf8(b)
  {
    EncodableJoins(a, b);
    if a == [] {
      assert a + b == b;
    } else {
      EncodableCuts(a, 1);
      assert (a + b)[1..] == a[1..] + b && (a + b)[0] == a[0];
      assert !IsSurrogate(a[0]);
      Utf8Joins(a[1..], b);
      hide EncodeChar, Encodable;
      var first, rest := EncodeChar(a[0]), Utf8(a[1..]);
      assert Utf8(a + b) == first + Utf8(a[1..] + b);
      assert first + (rest + Utf8(b)) == (first + rest) + Utf8(b);
    }
  }

  lemma Utf8Splits(t: Text, k: nat)
    requires Encodable(t) && k <= |t|
    ensures Encodable(t[..k]) && Encodable(t[k..]) && Utf8(t) == Utf8(t[..k]) + Utf8(t[k..])
  {
    hide Encodable, Utf8, EncodeChar;
    EncodableCuts(t, k);
    assert t == t[..k] + t[k..];
    Utf8Joins(t[..k], t[k..]);
  }

  lemma EncodableOne(c: CodePoint)
    requires !IsSurrogate(c)
    ensures var t: Text := [c]; Encodable(t)
  {
  }

  lemma OneCharText(c: CodePoint)
    requires !IsSurrogate(c)
    ensures var t: Text := [c]; Utf8(t) == EncodeChar(c)
  {
    var t: Text := [c];
    assert t[1..] == [] && EncodeChar(c) + [] == EncodeChar(c);
  }

  lemma Utf8Next(t: Text, k: nat)
    requires Encodable(t) && k < |t|
    ensures Encodable(t[..k]) && Encodable(t[..k + 1]) && Utf8(t[..k + 1]) == Utf8(t[..k]) + EncodeChar(t[k])
  {
    var c: Text := [t[k]];
    EncodableCuts(t, k);
    EncodableCuts(t, k + 1);
    EncodableOne(t[k]);
    OneCharText(t[k]);
    assert t[..k + 1] == t[..k] + c;
    hide Encodable, Utf8, EncodeChar;
    Utf8Joins(t[..k], c);
  }

  lemma Utf8At(t: Text, k: nat)
    requires Encodable(t) && k < |t|
    ensures Encodable(t[..k]) && Encodable(t[..k + 1]) && Encodable(t[k + 1..])
    ensures Utf8(t) == Utf8(t[..k]) + EncodeChar(t[k]) + Utf8(t[k + 1..])
    ensures Utf8(t[..k + 1]) == Utf8(t[..k]) + EncodeChar(t[k])
  {
    Utf8Next(t, k);
    Utf8Splits(t, k + 1);
    assert !IsSurrogate(t[k]);
    hide Encodable, Utf8, EncodeChar;
  }

  /** How many bytes the first m characters take. */
  function Before(t: Text, m: nat): nat
    requires Encodable(t) && m <= |t|
  {
    |Utf8(t[..m])|
  }

  /** The scan's characters, from the text. */
  function CharsOf(t: Text, k: nat): (chars: seq<Char>)
    requires Encodable(t) && k <= |t|
    ensures |chars| == |t| - k
    decreases |t| - k
  {
    if k == |t| then []
    else
      var b := EncodeChar(t[k]);
      [Char(Before(t, k), |b|, WidthOf(b[0]))] + CharsOf(t, k + 1)
  }

  lemma ScanStep(t: Text, k: nat)
    requires Encodable(t) && k < |t|
    ensures var name, b := Utf8(t), EncodeChar(t[k]);
      && Before(t, k) + |b| == Before(t, k + 1) <= |name| && name[Before(t, k)] == b[0] && LengthOf(b[0]) == |b|
  {
    Utf8At(t, k);
    LeadOfChar(t[k]);
    hide Utf8, EncodeChar;
  }

  lemma BeforeAll(t: Text)
    requires Encodable(t)
    ensures Before(t, |t|) == |Utf8(t)|
  {
    assert t[..|t|] == t;
  }

  /** In a text's bytes the scan takes one character of the text at a time. */
  lemma {:induction false} ScanFollowsText(t: Text, k: nat)
    requires Encodable(t) && k <= |t|
    ensures CharsFrom(Utf8(t), Before(t, k)) == CharsOf(t, k)
    decreases |t| - k
  {
    hide Utf8, EncodeChar, Before;
    if k == |t| {
      BeforeAll(t);
    } else {
      ScanFollowsText(t, k + 1);
      ScanStep(t, k);
    }
  }

  lemma {:induction false} CharOfText(t: Text, k: nat, m: nat)
    requires Encodable(t) && k <= m < |t|
    ensures var c := CharsOf(t, k)[m - k]; c.pos == Before(t, m) && c.pos + c.len == Before(t, m + 1)
    decreases |t| - k
  {
    hide Utf8, EncodeChar, Before;
    if m == k {
      ScanStep(t, k);
    } else {
      CharOfText(t, k + 1, m);
    }
  }

  lemma CutIsText(t: Text, n: nat)
    requires Encodable(t) && n <= |t|
    ensures CharsFrom(Utf8(t), 0) == CharsOf(t, 0) && EndOf(CharsOf(t, 0), n) == Before(t, n) <= |Utf8(t)|
    ensures Encodable(t[..n]) && Utf8(t)[..Before(t, n)] == Utf8(t[..n])
  {
    assert t[..0] == [];
    assert Before(t, 0) == 0;
    ScanFollowsText(t, 0);
    Utf8Splits(t, n);
    if n > 0 { CharOfText(t, 0, n - 1); }
    hide CharsFrom, Utf8, EncodeChar, CharsOf;
  }

  /** A dot among the bytes is a dot of the text. */
  lemma {:induction false} DotIsAChar(t: Text, i: nat) returns (k: nat)
    requires Encodable(t) && i < |Utf8(t)| && Utf8(t)[i] == DOT
    ensures k < |t| && Encodable(t[..k]) && |Utf8(t[..k])| == i
  {
    var first := EncodeChar(t[0]);
    LeadOfChar(t[0]);
    if i < |first| {
      k := 0;
    } else {
      assert Utf8(t[1..])[i - |first|] == DOT;
      k := DotIsAChar(t[1..], i - |first|);
      Utf8Splits(t[1..], k);
      k := k + 1;
      assert t[..k][1..] == t[1..][..k - 1] && t[..k][0] == t[0];
    }
  }

  lemma TailIsText(t: Text) returns (k: nat)
    requires Encodable(t)
    ensures k <= |t| && Encodable(t[..k]) && Encodable(t[k..]) && Tail(Utf8(t)) == Utf8(t[k..])
    ensures |Utf8(t[..k])| == |Utf8(t)| - |Tail(Utf8(t))|
  {
    var name := Utf8(t);
    var dot := LastDot(name);
    if dot.Some? && |name| - dot.value <= 6 {
      k := DotIsAChar(t, dot.value);
    } else {
      k := |t|;
      assert t[..k] == t && t[k..] == [];
    }
    Utf8Splits(t, k);
  }

  lemma {:induction false} PrefixesGrow(t: Text, m: nat, k: nat)
    requires Encodable(t) && k <= m <= |t|
    ensures Before(t, k) <= Before(t, m)
  {
    Utf8Splits(t, m);
    Utf8Splits(t, k);
    assert t[..m][..k] == t[..k];
    Utf8Splits(t[..m], k);
  }

  lemma KeptIsBeforeTheTail(t: Text, n: nat, k: nat)
    requires Encodable(t) && n <= |t| && k <= |t| && n == KeptOf(Utf8(t))
    requires forall m :: 0 <= m < n ==> CharsFrom(Utf8(t), 0)[m].pos < Before(t, k)
    ensures n <= k
  {
    hide CharsFrom, Utf8, EncodeChar, CharsOf, KeptOf, Encodable;
    CutIsText(t, n);
    if n > k {
      CharOfText(t, 0, n - 1);
      PrefixesGrow(t, n - 1, k);
    }
  }

  lemma JoinedIsText(a: Text, b: Text)
    requires Encodable(a) && Encodable(b)
    ensures var cut: Text := a + [0x2026] + b; Encodable(cut) && Utf8(cut) == Utf8(a) + ELLIPSIS + Utf8(b)
  {
    EllipsisIsText();
    var dots: Text := [0x2026];
    Utf8Joins(a, dots);
    Utf8Joins(a + dots, b);
    hide Utf8;
  }

  /** The tile of a text is a text: its beginning, "…" and its extension, cut between characters. */
  lemma TilesAreText(t: Text) returns (n: nat, k: nat)
    requires Encodable(t)
    ensures n <= k <= |t|
    ensures Tile(Utf8(t)) == Utf8(t)
      || (var cut: Text := t[..n] + [0x2026] + t[k..]; Encodable(cut) && Tile(Utf8(t)) == Utf8(cut))
  {
    var name := Utf8(t);
    n, k := 0, 0;
    TileKeepsToItsLine(name);
    CutIsText(t, 0);
    if Width(CharsFrom(name, 0)) > BUDGET {
      n := KeptOf(name);
      CutIsText(t, n);
      k := TailIsText(t);
      KeptIsBeforeTheTail(t, n, k);
      hide CharsFrom, Utf8, CharsOf, Tail, Kept, Tile, Width;
      JoinedIsText(t[..n], t[k..]);
    }
  }

  lemma EllipsisIsText()
    ensures var dots: Text := [0x2026]; Encodable(dots) && Utf8(dots) == ELLIPSIS
  {
    var dots: Text := [0x2026];
    assert dots[1..] == [];
    assert EncodeChar(0x2026) == [0xE2, 0x80, 0xA6];
  }
}
