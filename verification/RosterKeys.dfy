/**
 * The keys by which the call chrome compares two rosters. The roster key joins what is drawn of every row, the
 * speaking key lists the streams whose ring is on. Nothing in the roster key is escaped, so the module asks which
 * rosters it tells apart from all others of their length, and answers exactly.
 */
module RosterKeys {
  import opened Text

  /** One person in the roster, as far as it is drawn. */
  datatype Row = Row(
    name: string, stream: string, muted: bool, videoEnabled: bool, remoteVideo: bool, onHold: bool,
    videoPaused: bool, guest: bool, hasAvatar: bool, avatarSrc: string, avatarLetter: string, avatarTone: int,
    speaking: bool)

  /** What one row puts on the screen; the ring shows on the phone page only. */
  datatype Tile = Tile(
    name: string, stream: string, muted: bool, videoEnabled: bool, remoteVideo: bool, onHold: bool,
    videoPaused: bool, guest: bool, hasAvatar: bool, picture: string, tone: int, ring: bool)

  function Picture(r: Row): string { if r.hasAvatar then r.avatarSrc else r.avatarLetter }

  function TileOf(r: Row, phone: bool): Tile {
    Tile(r.name, r.stream, r.muted, r.videoEnabled, r.remoteVideo, r.onHold, r.videoPaused, r.guest, r.hasAvatar,
         Picture(r), r.avatarTone, phone && r.speaking)
  }

  function Tiles(rows: seq<Row>, phone: bool): (t: seq<Tile>)
    ensures |t| == |rows| && forall i :: 0 <= i < |t| ==> t[i] == TileOf(rows[i], phone)
  {
    seq(|rows|, i requires 0 <= i < |rows| => TileOf(rows[i], phone))
  }

  // ----- The keys -----

  function Flag(on: bool, mark: char): char { if on then mark else '-' }

  function Flags(r: Row): (s: string)
    ensures |s| == 6
  {
    [Flag(r.muted, 'm'), Flag(r.videoEnabled, 'v'), Flag(r.remoteVideo, 'r'), Flag(r.onHold, 'h'),
     Flag(r.videoPaused, 'p'), Flag(r.guest, 'g')]
  }

  /** A row's key up to its picture, without the name. */
  function Header(r: Row): string { "|" + r.stream + "|" + Flags(r) + "p" }

  function EndOf(tone: int): string { "|" + Decimal(tone) + ";" }

  function End(r: Row): string { EndOf(r.avatarTone) }

  function RowKey(r: Row): (key: string)
    ensures key != ""
  {
    r.name + Header(r) + Picture(r) + End(r)
  }

  function RowKeys(rows: seq<Row>): (keys: seq<string>)
    ensures |keys| == |rows| && forall i :: 0 <= i < |rows| ==> keys[i] == RowKey(rows[i])
  {
    seq(|rows|, i requires 0 <= i < |rows| => RowKey(rows[i]))
  }

  function RosterKey(rows: seq<Row>): string { Concat(RowKeys(rows)) }

  function RingKey(r: Row): string { if r.speaking then r.stream + ";" else "" }

  function RingKeys(rows: seq<Row>): (keys: seq<string>)
    ensures |keys| == |rows| && forall i :: 0 <= i < |rows| ==> keys[i] == RingKey(rows[i])
  {
    seq(|rows|, i requires 0 <= i < |rows| => RingKey(rows[i]))
  }

  function SpeakingKey(rows: seq<Row>): string { Concat(RingKeys(rows)) }

  method BuildRosterKey(rows: seq<Row>) returns (key: string)
    ensures key == RosterKey(rows)
  {
    key := "";
    ghost var keys := RowKeys(rows);
    for i := 0 to |rows|
      invariant key == Concat(keys[..i])
    {
      assert keys[..i + 1][..i] == keys[..i];
      key := key + RowKey(rows[i]);
    }
    assert keys[..|rows|] == keys;
  }

  method BuildSpeakingKey(rows: seq<Row>) returns (key: string)
    ensures key == SpeakingKey(rows)
  {
    key := "";
    ghost var keys := RingKeys(rows);
    for i := 0 to |rows|
      invariant key == Concat(keys[..i])
    {
      assert keys[..i + 1][..i] == keys[..i];
      if rows[i].speaking {
        key := key + (rows[i].stream + ";");
      }
    }
    assert keys[..|rows|] == keys;
  }

  lemma RosterKeyFront(rows: seq<Row>)
    requires rows != []
    ensures RosterKey(rows) == RowKey(rows[0]) + RosterKey(rows[1..])
  {
    ConcatFront(RowKeys(rows));
    assert RowKeys(rows)[1..] == RowKeys(rows[1..]);
  }

  lemma FrontRow(r: Row, rows: seq<Row>)
    ensures RosterKey([r] + rows) == RowKey(r) + RosterKey(rows)
  {
    RosterKeyFront([r] + rows);
    assert ([r] + rows)[1..] == rows;
  }

  lemma ThreeParts(x: string, y: string, z: string)
    ensures x + y + z == x + (y + z)
  {
  }

  lemma NoRowsNoKey()
    ensures RosterKey([]) == ""
  {
  }

  lemma {:induction false} RosterKeyJoins(a: seq<Row>, b: seq<Row>)
    ensures RosterKey(a + b) == RosterKey(a) + RosterKey(b)
  {
    hide RowKey, RosterKey;
    if a == [] {
      assert a + b == b;
      NoRowsNoKey();
    } else {
      RosterKeyFront(a);
      FrontRow(a[0], a[1..] + b);
      assert a + b == [a[0]] + (a[1..] + b);
      RosterKeyJoins(a[1..], b);
      ThreeParts(RowKey(a[0]), RosterKey(a[1..]), RosterKey(b));
    }
  }

  // ----- Which rows there are -----

  const STREAM_IDS := 0x1_0000_0000

  const AVATAR_TONES := 8

  /** A stream id is a 32-bit number. */
  predicate IsStreamId(s: string) {
    exists n :: 0 <= n < STREAM_IDS && s == Decimal(n)
  }

  /**
   * The rows a call can have: any name, a photo's path, which is longer than one character, or the one letter that
   * stands for it. `bars`: whether a path may hold a bar.
   */
  predicate Proper(r: Row, bars: bool) {
    && IsStreamId(r.stream)
    && 0 <= r.avatarTone < AVATAR_TONES
    && (if r.hasAvatar then |r.avatarSrc| > 1 && (bars || '|' !in r.avatarSrc)
        else |r.avatarLetter| == 1)
  }

  /** The name does not matter. */
  lemma AnyName(r: Row, name: string, bars: bool)
    requires Proper(r, bars)
    ensures Proper(r.(name := name), bars)
  {
    hide IsStreamId;
  }

  predicate AllProper(rows: seq<Row>, bars: bool) { forall r :: r in rows ==> Proper(r, bars) }

  predicate IsDigit(c: char) { '0' <= c <= '9' }

  lemma StreamIdIsDigits(s: string)
    requires IsStreamId(s)
    ensures s != "" && forall i :: 0 <= i < |s| ==> IsDigit(s[i])
  {
    var n :| 0 <= n < STREAM_IDS && s == Decimal(n);
    assert Decimal(n) == Digits(n);
  }

  // ----- What a text holds -----

  predicate AreFlags(s: string) {
    && |s| == 6
    && (s[0] == 'm' || s[0] == '-') && (s[1] == 'v' || s[1] == '-') && (s[2] == 'r' || s[2] == '-')
    && (s[3] == 'h' || s[3] == '-') && (s[4] == 'p' || s[4] == '-') && (s[5] == 'g' || s[5] == '-')
  }

  /** A bar at `i`, a stream id, a bar at `k`, six flags and a p. */
  predicate HeaderAt(s: string, i: int, k: int) {
    && 0 <= i < i + 1 < k < k + 8 <= |s|
    && s[i] == '|' && IsStreamId(s[i + 1..k]) && s[k] == '|' && AreFlags(s[k + 1..k + 7]) && s[k + 7] == 'p'
  }

  /** A bar at `e`, a tone and a semicolon. */
  predicate EndAt(s: string, e: int) {
    0 <= e < e + 3 <= |s| && s[e] == '|' && '0' <= s[e + 1] <= '7' && s[e + 2] == ';'
  }

  /** A text without a bar, or the bar alone: a letter may be one. */
  predicate OneBar(s: string) { '|' !in s || s == "|" }

  /** A header at `i` and `k`, a picture and an end at `e`: all of a row's key but its name. */
  predicate TailAt(s: string, i: int, k: int, e: int) {
    HeaderAt(s, i, k) && k + 8 < e && EndAt(s, e) && OneBar(s[k + 8..e])
  }

  predicate HoldsHeader(s: string) { exists i, k :: 0 <= i < k < |s| && HeaderAt(s, i, k) }

  predicate HoldsEnd(s: string) { exists e :: 0 <= e < |s| && EndAt(s, e) }

  /** A header and something after it. */
  predicate HoldsOpenHeader(s: string) { exists i, k :: 0 <= i < k < |s| - 8 && HeaderAt(s, i, k) }

  /** Something and an end after it. */
  predicate HoldsLateEnd(s: string) { exists e :: 0 < e < |s| && EndAt(s, e) }

  predicate HoldsTail(s: string) { exists i, k, e :: 0 <= i < k < e < |s| && TailAt(s, i, k, e) }

  /**
   * The rosters whose key no other roster of that length has. With paths that hold no bar: one row, or no name that
   * holds a whole tail. With any paths: no header in a name, and none with something after it in a picture; no end in
   * a name, and none with something before it in a picture, but for the first name and the last picture.
   */
  predicate Clear(rows: seq<Row>, bars: bool) {
    if bars then
      && (forall i :: 0 <= i < |rows| ==> !HoldsHeader(rows[i].name) && !HoldsOpenHeader(Picture(rows[i])))
      && (forall i :: 0 < i < |rows| ==> !HoldsEnd(rows[i].name))
      && (forall i :: 0 <= i < |rows| - 1 ==> !HoldsLateEnd(Picture(rows[i])))
    else
      |rows| <= 1 || forall i :: 0 <= i < |rows| ==> !HoldsTail(rows[i].name)
  }

  // ----- Parts of a text -----

  function Before(s: string, i: int): string
    requires 0 <= i <= |s|
  {
    s[..i]
  }

  function Between(s: string, i: int, j: int): string
    requires 0 <= i <= j <= |s|
  {
    s[i..j]
  }

  function After(s: string, i: int): string
    requires 0 <= i <= |s|
  {
    s[i..]
  }

  lemma PartsAre(s: string, i: int, j: int)
    requires 0 <= i <= j <= |s|
    ensures Before(s, i) == s[..i] && After(s, j) == s[j..]
  {
  }

  lemma CutAt(s: string, i: int, j: int)
    requires 0 <= i <= j <= |s|
    ensures s == Before(s, i) + Between(s, i, j) + After(s, j)
  {
  }

  lemma CutTwice(s: string, i: int, j: int, k: int, l: int)
    requires 0 <= i <= j <= k <= l <= |s|
    ensures s == Before(s, i) + Between(s, i, j) + Between(s, j, k) + Between(s, k, l) + After(s, l)
  {
  }

  // ----- Headers and ends do not overlap -----

  lemma HeaderThenHeader(s: string, i: int, k: int, j: int, l: int)
    requires HeaderAt(s, i, k) && HeaderAt(s, j, l) && i <= j
    ensures if i == j then k == l else k + 8 <= j
  {
    StreamIdIsDigits(s[i + 1..k]);
    StreamIdIsDigits(s[j + 1..l]);
    assert forall m :: i < m < k ==> s[m] == s[i + 1..k][m - i - 1];
    assert forall m :: j < m < l ==> s[m] == s[j + 1..l][m - j - 1];
    assert forall m :: k < m < k + 7 ==> s[m] == s[k + 1..k + 7][m - k - 1];
  }

  lemma HeaderThenEnd(s: string, i: int, k: int, e: int)
    requires HeaderAt(s, i, k) && EndAt(s, e) && i <= e
    ensures k + 8 <= e
  {
    StreamIdIsDigits(s[i + 1..k]);
    assert forall m :: i < m < k ==> s[m] == s[i + 1..k][m - i - 1];
    assert forall m :: k < m < k + 7 ==> s[m] == s[k + 1..k + 7][m - k - 1];
  }

  lemma EndThenHeader(s: string, e: int, i: int, k: int)
    requires EndAt(s, e) && HeaderAt(s, i, k) && e <= i
    ensures e + 3 <= i
  {
    StreamIdIsDigits(s[i + 1..k]);
    assert forall m :: i < m < k ==> s[m] == s[i + 1..k][m - i - 1];
  }

  lemma HeaderStartsWithADigit(s: string, i: int, k: int)
    requires HeaderAt(s, i, k)
    ensures IsDigit(s[i + 1])
  {
    StreamIdIsDigits(s[i + 1..k]);
    assert s[i + 1] == s[i + 1..k][0];
  }

  /** The only bar in a tail's picture is a picture that is a bar. */
  lemma BarsOfAPicture(s: string, i: int, k: int, e: int)
    requires TailAt(s, i, k, e)
    ensures forall j :: k + 8 <= j < e && s[j] == '|' ==> j == k + 8 && e == k + 9
  {
    assert forall j :: k + 8 <= j < e ==> s[j] == s[k + 8..e][j - k - 8] && s[j] in s[k + 8..e];
  }

  lemma TailThenTail(s: string, i: int, k: int, e: int, j: int, l: int, f: int)
    requires TailAt(s, i, k, e) && TailAt(s, j, l, f) && i <= j
    ensures if i == j then k == l && e == f else e + 3 <= j
  {
    HeaderThenHeader(s, i, k, j, l);
    HeaderStartsWithADigit(s, j, l);
    BarsOfAPicture(s, i, k, e);
    BarsOfAPicture(s, j, l, f);
    if i < j && e <= j {
      EndThenHeader(s, e, j, l);
    }
    hide IsStreamId, AreFlags;
  }

  // ----- The keys of proper rows -----

  /** A header stays one in a longer text. */
  lemma HeaderInside(s: string, i: int, k: int, x: string, y: string)
    requires HeaderAt(s, i, k)
    ensures HeaderAt(x + s + y, |x| + i, |x| + k)
  {
    var t := x + s + y;
    assert t[|x|..|x| + |s|] == s;
    assert t[|x| + i + 1..|x| + k] == s[i + 1..k];
    assert t[|x| + k + 1..|x| + k + 7] == s[k + 1..k + 7];
    hide IsStreamId, AreFlags;
  }

  lemma HeaderAlone(r: Row)
    requires IsStreamId(r.stream)
    ensures var h, k := Header(r), 1 + |r.stream|;
      |h| == k + 8 && HeaderAt(h, 0, k) && h[1..k] == r.stream && h[k + 1..k + 7] == Flags(r)
  {
    StreamIdIsDigits(r.stream);
    var h, k := Header(r), 1 + |r.stream|;
    assert h[1..k] == r.stream && h[k + 1..k + 7] == Flags(r);
    hide IsStreamId;
  }

  lemma HeaderIsAt(x: string, r: Row, y: string)
    requires IsStreamId(r.stream)
    ensures
      var s, k := x + Header(r) + y, |x| + 1 + |r.stream|;
      && HeaderAt(s, |x|, k) && k + 8 <= |s|
      && s[..|x|] == x && s[|x| + 1..k] == r.stream && s[k + 1..k + 7] == Flags(r) && s[k + 8..] == y
  {
    HeaderAlone(r);
    HeaderInside(Header(r), 0, 1 + |r.stream|, x, y);
    hide HeaderAt, Header, Flags, IsStreamId;
    var h, s, k := Header(r), x + Header(r) + y, |x| + 1 + |r.stream|;
    assert s[|x|..k + 8] == h;
    assert s[|x| + 1..k] == h[1..|r.stream| + 1];
    assert s[k + 1..k + 7] == h[|r.stream| + 2..|r.stream| + 8];
  }

  lemma EndIsAt(x: string, r: Row, y: string)
    requires 0 <= r.avatarTone < AVATAR_TONES
    ensures
      var s := x + End(r) + y;
      EndAt(s, |x|) && s[..|x|] == x && s[|x| + 1] as int - '0' as int == r.avatarTone && s[|x| + 3..] == y
  {
    assert Decimal(r.avatarTone) == [Digit(r.avatarTone)];
  }

  /** `s` starts with the key of `r`: its header is at `i` and `k`, its end at `e`. */
  predicate StartsWithRow(s: string, r: Row, i: int, k: int, e: int) {
    && HeaderAt(s, i, k) && EndAt(s, e) && k + 8 <= e
    && s[..i] == r.name && s[i + 1..k] == r.stream && s[k + 1..k + 7] == Flags(r) && s[k + 8..e] == Picture(r)
    && s[e + 1] as int - '0' as int == r.avatarTone
  }

  /** Five texts in a row, grouped from the third on. */
  lemma Grouped(n: string, h: string, p: string, e: string, y: string)
    ensures n + h + p + e + y == n + h + (p + e + y)
  {
  }

  /** Where the second bar and the end of a row's key are. */
  function BarPlace(r: Row): int { |r.name| + 1 + |r.stream| }

  function EndPlace(r: Row): int { BarPlace(r) + 8 + |Picture(r)| }

  lemma HeaderInKey(r: Row, y: string)
    requires IsStreamId(r.stream)
    ensures
      var s, k := RowKey(r) + y, BarPlace(r);
      && HeaderAt(s, |r.name|, k) && k + 8 <= |s|
      && s[..|r.name|] == r.name && s[|r.name| + 1..k] == r.stream && s[k + 1..k + 7] == Flags(r)
  {
    hide HeaderAt, IsStreamId, Flags, Header, End, Picture;
    Grouped(r.name, Header(r), Picture(r), End(r), y);
    assert RowKey(r) + y == r.name + Header(r) + (Picture(r) + End(r) + y);
    hide RowKey;
    HeaderIsAt(r.name, r, Picture(r) + End(r) + y);
  }

  lemma Third(x: string, p: string, e: string, y: string)
    ensures (x + p + e + y)[|x|..|x| + |p|] == p
  {
  }

  lemma PictureInKey(r: Row, y: string)
    ensures
      var s, k, e := RowKey(r) + y, BarPlace(r), EndPlace(r);
      0 <= k + 8 <= e <= |s| && s[k + 8..e] == Picture(r)
  {
    assert |r.name + Header(r)| == |r.name| + |r.stream| + 9;
    hide Header, End, Picture;
    Third(r.name + Header(r), Picture(r), End(r), y);
  }

  lemma EndInKey(r: Row, y: string)
    requires 0 <= r.avatarTone < AVATAR_TONES
    ensures
      var s, e := RowKey(r) + y, EndPlace(r);
      && EndAt(s, e) && e + 3 == |RowKey(r)| && s[e + 1] as int - '0' as int == r.avatarTone
      && s[..e + 3] == RowKey(r) && s[e + 3..] == y
  {
    assert Decimal(r.avatarTone) == [Digit(r.avatarTone)];
    assert |Header(r)| == |r.stream| + 9 && |End(r)| == 3;
    EndIsAt(r.name + Header(r) + Picture(r), r, y);
    hide Header, End, Picture;
  }

  /** The parts of a row's key, put together. */
  lemma PartsMakeARow(s: string, r: Row, i: int, k: int, e: int)
    requires HeaderAt(s, i, k) && EndAt(s, e) && 0 <= i < k && k + 8 <= e <= |s|
    requires s[..i] == r.name && s[i + 1..k] == r.stream && s[k + 1..k + 7] == Flags(r) && s[k + 8..e] == Picture(r)
    requires s[e + 1] as int - '0' as int == r.avatarTone
    ensures StartsWithRow(s, r, i, k, e)
    ensures Picture(r) != "" && OneBar(Picture(r)) ==> TailAt(s, i, k, e)
  {
    hide HeaderAt, EndAt, Picture, Flags, OneBar;
  }

  /** Where the parts of the first row's key are. */
  lemma RowIsAt(r: Row, bars: bool, y: string) returns (k: int, e: int)
    requires Proper(r, bars)
    ensures
      var s := RowKey(r) + y;
      && StartsWithRow(s, r, |r.name|, k, e) && HeaderAt(s, |r.name|, k) && EndAt(s, e) && |r.name| < k < e - 8
      && (!bars ==> TailAt(s, |r.name|, k, e))
      && e + 3 == |RowKey(r)| && s[..e + 3] == RowKey(r) && s[e + 3..] == y
  {
    k, e := BarPlace(r), EndPlace(r);
    assert !bars ==> Picture(r) != "" && OneBar(Picture(r));
    assert |r.name| < k < e - 8;
    hide HeaderAt, EndAt, IsStreamId, Flags, Picture, RowKey, OneBar, StartsWithRow, TailAt, BarPlace, EndPlace;
    HeaderInKey(r, y);
    PictureInKey(r, y);
    EndInKey(r, y);
    PartsMakeARow(RowKey(r) + y, r, |r.name|, k, e);
  }

  /** Rows at one place are drawn alike. */
  lemma SamePlaceSameTile(s: string, a: Row, b: Row, i: int, k: int, e: int, bars: bool)
    requires Proper(a, bars) && Proper(b, bars)
    requires StartsWithRow(s, a, i, k, e) && StartsWithRow(s, b, i, k, e)
    ensures TileOf(a, false) == TileOf(b, false)
  {
    hide HeaderAt, EndAt, IsStreamId;
    var f, g := Flags(a), Flags(b);
    assert f[0] == g[0] && f[1] == g[1] && f[2] == g[2] && f[3] == g[3] && f[4] == g[4] && f[5] == g[5];
  }

  /** A name that goes on for longer takes up the start of the key. */
  lemma NameSplits(r: Row, x: string, y: string)
    requires r.name == x + y
    ensures RowKey(r) == x + RowKey(r.(name := y))
  {
    var t := r.(name := y);
    assert Header(t) == Header(r) && Picture(t) == Picture(r) && End(t) == End(r);
    hide Header, Picture, End;
    NameGrouped(x, y, Header(r), Picture(r), End(r));
  }

  lemma NameGrouped(x: string, y: string, h: string, p: string, e: string)
    ensures (x + y) + h + p + e == x + (y + h + p + e)
  {
  }

  lemma SameTilesInFront(a: seq<Row>, b: seq<Row>)
    requires a != [] && b != [] && TileOf(a[0], false) == TileOf(b[0], false)
    requires Tiles(a[1..], false) == Tiles(b[1..], false)
    ensures Tiles(a, false) == Tiles(b, false)
  {
    hide TileOf;
    assert Tiles(a, false) == [TileOf(a[0], false)] + Tiles(a[1..], false);
    assert Tiles(b, false) == [TileOf(b[0], false)] + Tiles(b[1..], false);
  }

  lemma EmptyKeyNoRows(rows: seq<Row>)
    requires RosterKey(rows) == ""
    ensures rows == []
  {
    if rows != [] {
      RosterKeyFront(rows);
    }
  }

  // ----- Paths without bars: whole tails -----

  lemma TailOfStart(s: string, n: int, i: int, k: int, e: int)
    requires TailAt(s, i, k, e) && e + 3 <= n <= |s|
    ensures TailAt(s[..n], i, k, e)
  {
    var t := s[..n];
    assert t[i + 1..k] == s[i + 1..k] && t[k + 1..k + 7] == s[k + 1..k + 7] && t[k + 8..e] == s[k + 8..e];
    hide IsStreamId, AreFlags;
  }

  /** The first row of a key whose name holds no tail: another reading takes it as it is, or all of it as a name. */
  lemma FirstRowByTail(a: Row, b: Row, x: string, y: string)
    requires Proper(a, false) && Proper(b, false) && !HoldsTail(a.name)
    requires RowKey(a) + x == RowKey(b) + y
    ensures |a.name| == |b.name| ==> TileOf(a, false) == TileOf(b, false) && x == y
    ensures |a.name| != |b.name| ==>
      RowKey(a) <= b.name && RowKey(b.(name := b.name[|RowKey(a)|..])) + y == x
  {
    var s, i, j := RowKey(a) + x, |a.name|, |b.name|;
    hide RowKey, TailAt, TileOf, Proper;
    var k, e := RowIsAt(a, false, x);
    var l, f := RowIsAt(b, false, y);
    assert StartsWithRow(s, b, j, l, f) && TailAt(s, j, l, f);
    assert s[..i] == a.name && s[..j] == b.name;
    hide StartsWithRow;
    if j < i {
      TailThenTail(s, j, l, f, i, k, e);
      TailOfStart(s, i, j, l, f);
    } else if i == j {
      TailThenTail(s, i, k, e, j, l, f);
      SamePlaceSameTile(s, a, b, i, k, e, false);
    } else {
      TailThenTail(s, i, k, e, j, l, f);
      LongerName(b, RowKey(a), x, y);
    }
  }

  lemma LongerStart(x: string, y: string, a: string, b: string)
    requires x + y == a + b && |x| <= |a|
    ensures a == x + a[|x|..] && y == a[|x|..] + b
  {
    var s := x + y;
    assert x == s[..|x|] && y == s[|x|..] && a == s[..|a|] && b == s[|a|..];
  }

  /** A name that is longer than another reading's whole row. */
  lemma LongerName(b: Row, key: string, x: string, y: string)
    requires key + x == RowKey(b) + y && |key| <= |b.name|
    ensures key <= b.name && RowKey(b.(name := b.name[|key|..])) + y == x
  {
    var rest := b.name[|key|..];
    var t := b.(name := rest);
    assert Header(t) == Header(b) && Picture(t) == Picture(b) && End(t) == End(b);
    var h, p, e := Header(b), Picture(b), End(b);
    hide Header, Picture, End;
    NameOut(b.name, h, p, e, y);
    NameOut(rest, h, p, e, y);
    hide RowKey;
    LongerStart(key, x, b.name, h + p + e + y);
  }

  lemma NameOut(n: string, h: string, p: string, e: string, y: string)
    ensures n + h + p + e + y == n + (h + p + e + y)
  {
  }

  lemma {:induction false} TailsTellRowsApart(a: seq<Row>, b: seq<Row>)
    requires AllProper(a, false) && AllProper(b, false)
    requires forall i :: 0 <= i < |a| ==> !HoldsTail(a[i].name)
    requires RosterKey(a) == RosterKey(b)
    ensures |b| <= |a| && (|b| == |a| ==> Tiles(a, false) == Tiles(b, false))
  {
    hide RosterKey, RowKey, Proper, HoldsTail, TileOf;
    if a == [] {
      NoRowsNoKey();
      EmptyKeyNoRows(b);
      assert a == b;
    } else if b != [] {
      RosterKeyFront(a);
      RosterKeyFront(b);
      assert AllProper(a[1..], false) && AllProper(b[1..], false);
      FirstRowByTail(a[0], b[0], RosterKey(a[1..]), RosterKey(b[1..]));
      if |a[0].name| == |b[0].name| {
        TailsTellRowsApart(a[1..], b[1..]);
        if |a| == |b| {
          SameTilesInFront(a, b);
        }
      } else {
        var first := b[0].(name := b[0].name[|RowKey(a[0])|..]);
        FrontRow(first, b[1..]);
        AnyName(b[0], first.name, false);
        TailsTellRowsApart(a[1..], [first] + b[1..]);
      }
    }
  }

  lemma TailBounds(s: string, i: int, k: int, e: int)
    requires TailAt(s, i, k, e)
    ensures 0 <= i < k < e < e + 3 <= |s|
  {
  }

  /** The key of one row has one reading: its tail is at the end. */
  lemma OneRowIsRead(a: Row, b: Row)
    requires Proper(a, false) && Proper(b, false) && RowKey(a) == RowKey(b)
    ensures TileOf(a, false) == TileOf(b, false)
  {
    var s, i, j := RowKey(a) + "", |a.name|, |b.name|;
    hide RowKey, TailAt, TileOf, Proper;
    var k, e := RowIsAt(a, false, "");
    var l, f := RowIsAt(b, false, "");
    TailBounds(s, i, k, e);
    TailBounds(s, j, l, f);
    hide StartsWithRow;
    if i <= j {
      TailThenTail(s, i, k, e, j, l, f);
    } else {
      TailThenTail(s, j, l, f, i, k, e);
    }
    SamePlaceSameTile(s, a, b, i, k, e, false);
  }

  // ----- Any paths: headers and ends -----

  lemma PartOfPart(s: string, lo: int, hi: int, i: int, j: int)
    requires 0 <= lo <= hi <= |s| && 0 <= i <= j <= hi - lo
    ensures s[lo..hi][i..j] == s[lo + i..lo + j]
  {
    var t := s[lo..hi];
    assert forall m :: 0 <= m < j - i ==> t[i..j][m] == t[i + m] == s[lo + i + m] == s[lo + i..lo + j][m];
    assert |t[i..j]| == j - i == |s[lo + i..lo + j]|;
  }

  lemma HasHeader(s: string, i: int, k: int)
    requires HeaderAt(s, i, k)
    ensures HoldsHeader(s)
  {
  }

  lemma HeaderOfPart(s: string, lo: int, hi: int, i: int, k: int)
    requires HeaderAt(s, i, k) && 0 <= lo <= i && k + 8 <= hi <= |s|
    ensures HeaderAt(s[lo..hi], i - lo, k - lo) && HoldsHeader(s[lo..hi])
  {
    hide IsStreamId, AreFlags, HoldsHeader;
    var t := s[lo..hi];
    PartOfPart(s, lo, hi, i - lo + 1, k - lo);
    PartOfPart(s, lo, hi, k - lo + 1, k - lo + 7);
    assert HeaderAt(t, i - lo, k - lo);
    HasHeader(t, i - lo, k - lo);
  }

  lemma EndOfPart(s: string, lo: int, hi: int, e: int)
    requires EndAt(s, e) && 0 <= lo <= e && e + 3 <= hi <= |s|
    ensures EndAt(s[lo..hi], e - lo) && HoldsEnd(s[lo..hi])
  {
    assert EndAt(s[lo..hi], e - lo);
  }

  /** A row with no header in its name and none with something after it in its picture: where headers can be. */
  lemma HeaderOutsideRow(s: string, r: Row, i: int, k: int, e: int, j: int, l: int)
    requires StartsWithRow(s, r, i, k, e) && HeaderAt(s, j, l)
    requires !HoldsHeader(r.name) && !HoldsOpenHeader(Picture(r))
    ensures (j == i && l == k) || l + 8 == e || e + 3 <= j
  {
    hide HoldsHeader, IsStreamId, AreFlags, Flags;
    assert s[0..i] == s[..i];
    if j < i {
      HeaderThenHeader(s, j, l, i, k);
      HeaderOfPart(s, 0, i, j, l);
    } else {
      HeaderThenHeader(s, i, k, j, l);
      if i < j < e {
        HeaderThenEnd(s, j, l, e);
        HeaderOfPart(s, k + 8, e, j, l);
      } else if e <= j {
        EndThenHeader(s, e, j, l);
      }
    }
  }

  /** After the header of a row and something more comes the row's end, or nothing before it. */
  lemma EndOutsideRow(s: string, r: Row, i: int, k: int, e: int, f: int)
    requires StartsWithRow(s, r, i, k, e) && EndAt(s, f) && k + 8 < f && !HoldsLateEnd(Picture(r))
    ensures f == e || e + 3 <= f
  {
    hide HoldsEnd, IsStreamId, AreFlags, Flags;
    if f < e {
      EndOfPart(s, k + 8, e, f);
    }
  }

  /** An end comes after the header of a row whose name holds none. */
  lemma EndAfterHeader(s: string, r: Row, i: int, k: int, e: int, f: int)
    requires StartsWithRow(s, r, i, k, e) && EndAt(s, f) && !HoldsEnd(r.name)
    ensures k + 8 <= f
  {
    hide HoldsEnd, IsStreamId, AreFlags, Flags;
    assert s[0..i] == s[..i];
    if f < i {
      EndOfPart(s, 0, i, f);
    } else {
      HeaderThenEnd(s, i, k, f);
    }
  }

  function WithPicture(r: Row, picture: string, tone: int): Row {
    r.(hasAvatar := |picture| > 1, avatarSrc := picture, avatarLetter := picture, avatarTone := tone)
  }

  /** A picture that goes on past another reading's row takes up the next row's name and header. */
  lemma LongerPicture(b: Row, next: Row, s: string, lo: int, x: string, y: string, f: int) returns (p: string)
    requires Proper(b, true) && Proper(next, true) && BarPlace(next) + 8 <= f - lo
    requires 0 <= lo <= f && f + 3 == |RowKey(b)| && s == RowKey(b) + y
    requires s[lo..] == RowKey(next) + x
    ensures RowKey(WithPicture(next, p, b.avatarTone)) + y == RowKey(next) + x
    ensures |p| == f - lo - BarPlace(next) - 8
  {
    hide RowKey, HeaderAt, Proper, Header, End, Before, After, WithPicture;
    var t, k := RowKey(next) + x, BarPlace(next);
    assert After(t, f - lo) == End(b) + y by {
      PartsAre(t, k + 8, f - lo);
      AfterTheEnd(b, y);
      assert t[f - lo..] == s[f..];
    }
    assert Before(t, k + 8) == next.name + Header(next) by {
      PartsAre(t, k + 8, f - lo);
      BeforeThePicture(next, x);
    }
    p := Between(t, k + 8, f - lo);
    hide Between;
    CutAt(t, k + 8, f - lo);
    WithPictureKey(next, p, b.avatarTone);
    EndIs(b);
    hide EndOf;
    FourAndOne(next.name, Header(next), p, End(b), y);
  }

  lemma FourAndOne(n: string, h: string, p: string, e: string, y: string)
    ensures n + h + p + (e + y) == n + h + p + e + y
  {
  }

  lemma EndPastHeader(next: Row, x: string, s: string, lo: int, f: int)
    requires Proper(next, true) && !HoldsEnd(next.name)
    requires 0 <= lo <= f < f + 3 <= |s| && EndAt(s, f) && s[lo..] == RowKey(next) + x
    ensures BarPlace(next) + 8 <= f - lo && EndAt(RowKey(next) + x, f - lo)
  {
    hide HoldsEnd, RowKey, Proper;
    var k, e := RowIsAt(next, true, x);
    EndOfPart(s, lo, |s|, f);
    assert s[lo..] == s[lo..|s|];
    EndAfterHeader(s[lo..], next, |next.name|, k, e, f - lo);
  }

  lemma EndIs(r: Row)
    ensures End(r) == EndOf(r.avatarTone)
  {
  }

  lemma AfterTheEnd(b: Row, y: string)
    requires Proper(b, true)
    ensures |End(b)| == 3 && (RowKey(b) + y)[|RowKey(b)| - 3..] == End(b) + y
  {
    assert Decimal(b.avatarTone) == [Digit(b.avatarTone)];
  }

  lemma BeforeThePicture(r: Row, x: string)
    ensures |Header(r)| == |r.stream| + 9
    ensures |r.name + Header(r)| <= |RowKey(r)|
    ensures (RowKey(r) + x)[..|r.name + Header(r)|] == r.name + Header(r)
  {
    hide Picture, End, Flags;
  }

  lemma WithPictureKey(r: Row, picture: string, tone: int)
    ensures RowKey(WithPicture(r, picture, tone)) == r.name + Header(r) + picture + EndOf(tone)
  {
    var t := WithPicture(r, picture, tone);
    assert Header(t) == Header(r) && Picture(t) == picture && End(t) == EndOf(tone);
    hide Header, End, Picture;
  }

  /** A second row brings a second header. */
  lemma SecondHeader(a: Row, b: Row, x: string) returns (j: int, l: int)
    requires Proper(b, true)
    ensures HeaderAt(RowKey(a) + (RowKey(b) + x), j, l) && |RowKey(a)| <= j
    ensures l + 12 <= |RowKey(a) + (RowKey(b) + x)|
  {
    hide RowKey, HeaderAt;
    var k, e := RowIsAt(b, true, x);
    HeaderInside(RowKey(b) + x, |b.name|, k, RowKey(a), "");
    assert RowKey(a) + (RowKey(b) + x) + "" == RowKey(a) + (RowKey(b) + x);
    j, l := |RowKey(a)| + |b.name|, |RowKey(a)| + k;
  }

  /** What is left of a row's picture behind something. */
  predicate RestOf(q: string, r: Row) {
    |q| < |Picture(r)| && Picture(r)[|Picture(r)| - |q|..] == q
  }

  lemma BehindThree(a: string, p: string, q: string, e: string, x: string)
    requires |p| == 3
    ensures (a + (p + q) + e + x)[|a| + 3..] == q + e + x
  {
  }

  /** A picture that begins with an end: what is left of the row behind it. */
  lemma EndBeforePicture(r: Row, x: string) returns (q: string)
    requires Proper(r, true) && EndAt(RowKey(r) + x, BarPlace(r) + 8)
    ensures RestOf(q, r) && BarPlace(r) + 11 <= |RowKey(r)| && (RowKey(r) + x)[BarPlace(r) + 11..] == q + End(r) + x
  {
    PictureIsLonger(r, x);
    assert |r.name + Header(r)| == BarPlace(r) + 8;
    assert RowKey(r) == r.name + Header(r) + Picture(r) + End(r);
    var p := Picture(r);
    q := p[3..];
    assert RestOf(q, r);
    hide RowKey, Picture, End, Header, EndAt, Proper, RestOf;
    assert p == p[..3] + q;
    BehindThree(r.name + Header(r), p[..3], q, End(r), x);
  }

  lemma PictureIsLonger(r: Row, x: string)
    requires Proper(r, true) && EndAt(RowKey(r) + x, BarPlace(r) + 8)
    ensures BarPlace(r) + 11 <= EndPlace(r) && EndPlace(r) + 3 == |RowKey(r)|
  {
    EndInKey(r, x);
    assert BarPlace(r) + 8 < EndPlace(r);
    hide RowKey, Proper;
  }

  /** A reading whose end lies in the next row: it takes up the row's start, or ends right behind its header. */
  lemma PastTheEnd(t: Row, next: Row, s: string, lo: int, x: string, y: string, f: int)
    returns (whole: bool, first: Row, q: string)
    requires Proper(t, true) && Proper(next, true) && !HoldsEnd(next.name)
    requires 0 <= lo <= f && f + 3 == |RowKey(t)| && s == RowKey(t) + y && EndAt(s, f)
    requires s[lo..] == RowKey(next) + x
    ensures whole ==> Proper(first, true) && RowKey(first) + y == RowKey(next) + x
    ensures !whole ==> RestOf(q, next) && y == q + End(next) + x
  {
    hide HoldsEnd, RowKey, EndAt, Picture, Header, End;
    EndPastHeader(next, x, s, lo, f);
    whole, first, q := BarPlace(next) + 8 < f - lo, next, "";
    if whole {
      var p := LongerPicture(t, next, s, lo, x, y, f);
      first := WithPicture(next, p, t.avatarTone);
    } else {
      q := EndBeforePicture(next, x);
      assert y == s[f + 3..] == s[lo..][BarPlace(next) + 11..];
    }
  }

  datatype Reading = AsItIs | Whole(first: Row) | Inside(q: string)

  /**
   * The first of several rows: another reading takes it as it is, or reads what follows it with as many rows, or with
   * one row less what follows a part of the next row.
   */
  lemma FirstRowByHeader(r: Row, next: Row, t: Row, x: string, y: string) returns (v: Reading)
    requires Proper(r, true) && Proper(t, true) && Proper(next, true)
    requires !HoldsHeader(r.name) && !HoldsOpenHeader(Picture(r)) && !HoldsLateEnd(Picture(r)) && !HoldsEnd(next.name)
    requires RowKey(r) + (RowKey(next) + x) == RowKey(t) + y
    ensures match v
      case AsItIs => TileOf(r, false) == TileOf(t, false) && RowKey(next) + x == y
      case Whole(first) => Proper(first, true) && RowKey(first) + y == RowKey(next) + x
      case Inside(q) => RestOf(q, next) && y == q + End(next) + x
  {
    var z := RowKey(next) + x;
    var s, i, j := RowKey(r) + z, |r.name|, |t.name|;
    hide RowKey, Proper, HoldsHeader, HoldsOpenHeader, HoldsLateEnd, HoldsEnd, TileOf, Picture, HeaderAt, StartsWithRow;
    var k, e := RowIsAt(r, true, z);
    var l, f := RowIsAt(t, true, y);
    HeaderOutsideRow(s, r, i, k, e, j, l);
    if e + 3 <= j {
      LongerName(t, RowKey(r), z, y);
      v := Whole(t.(name := t.name[|RowKey(r)|..]));
      AnyName(t, v.first.name, true);
    } else {
      if j == i { EndOutsideRow(s, r, i, k, e, f); }
      assert f == e || e + 3 <= f;
      hide EndAt;
      if f == e {
        SamePlaceSameTile(s, r, t, i, k, e, true);
        v := AsItIs;
      } else {
        var whole, first, q := PastTheEnd(t, next, s, e + 3, x, y, f);
        v := if whole then Whole(first) else Inside(q);
      }
    }
  }

  /** The one header of a last row that has something after it. */
  lemma OneHeaderOnly(s: string, r: Row, i: int, k: int, e: int, j: int, l: int)
    requires StartsWithRow(s, r, i, k, e) && HeaderAt(s, j, l) && l + 12 <= |s| == e + 3
    requires !HoldsHeader(r.name) && !HoldsOpenHeader(Picture(r))
    ensures j == i
  {
    HeaderOutsideRow(s, r, i, k, e, j, l);
    hide HoldsHeader, HoldsOpenHeader, IsStreamId, AreFlags, Flags;
  }

  /** A last row without a header inside it is read as one row only. */
  lemma LastRowIsRead(a: Row, b: Row, rest: seq<Row>)
    requires Proper(a, true) && Proper(b, true) && AllProper(rest, true)
    requires RowKey(a) + "" == RowKey(b) + RosterKey(rest)
    requires !HoldsHeader(a.name) && !HoldsOpenHeader(Picture(a))
    ensures rest == [] && TileOf(a, false) == TileOf(b, false)
  {
    var y, s := RosterKey(rest), RowKey(a) + "";
    hide HoldsHeader, HoldsOpenHeader, RowKey, RosterKey, TileOf, Picture, HeaderAt, StartsWithRow, EndAt, Proper;
    var k, e := RowIsAt(a, true, "");
    var l, f := RowIsAt(b, true, y);
    OneHeaderOnly(s, a, |a.name|, k, e, |b.name|, l);
    if rest != [] {
      RosterKeyFront(rest);
      var j, m := SecondHeader(b, rest[0], RosterKey(rest[1..]));
      OneHeaderOnly(s, a, |a.name|, k, e, j, m);
    } else {
      HeaderOutsideRow(s, a, |a.name|, k, e, |b.name|, l);
      NoRowsNoKey();
      SamePlaceSameTile(s, a, b, |a.name|, k, e, true);
    }
  }

  lemma HeaderOfRest(q: string, r: Row, j: int, l: int)
    requires RestOf(q, r) && HeaderAt(q, j, l) && !HoldsOpenHeader(Picture(r))
    ensures l + 8 == |q|
  {
    var p, lo := Picture(r), |Picture(r)| - |q|;
    hide IsStreamId, AreFlags, Picture;
    HeaderInside(q, j, l, p[..lo], "");
    assert p == p[..lo] + q + "";
    assert HeaderAt(p, lo + j, lo + l);
  }

  /** Behind a part of a row's picture: where the first header can be, and where its row's end. */
  lemma HeaderBehindPart(s: string, q: string, r: Row, j: int, l: int, f: int)
    requires RestOf(q, r) && !HoldsOpenHeader(Picture(r)) && |q| <= |s| && s[..|q|] == q
    requires EndAt(s, |q|) && HeaderAt(s, j, l) && EndAt(s, f) && l + 8 < f
    ensures |q| + 3 <= j || |q| + 3 <= f
  {
    hide RestOf, HoldsOpenHeader;
    var e := |q|;
    if j < e {
      HeaderThenEnd(s, j, l, e);
      HeaderOfPart(s, 0, e, j, l);
      assert s[0..e] == s[..e] == q;
      HeaderOfRest(q, r, j, l);
      hide HeaderAt;
    } else {
      EndThenHeader(s, e, j, l);
    }
  }

  lemma EndIsThree(r: Row)
    requires Proper(r, true)
    ensures |End(r)| == 3
  {
    assert Decimal(r.avatarTone) == [Digit(r.avatarTone)];
  }

  lemma RowBehindPart(q: string, r: Row, z: string, t: Row, y: string) returns (f: int)
    requires Proper(r, true) && Proper(t, true) && RestOf(q, r) && !HoldsOpenHeader(Picture(r))
    requires q + End(r) + z == RowKey(t) + y
    ensures |q + End(r)| == |q| + 3 && (q + End(r) + z)[|q| + 3..] == z
    ensures 0 <= f && f + 3 == |RowKey(t)| && EndAt(RowKey(t) + y, f)
    ensures |q| + 3 <= |t.name| || |q| + 3 <= f
  {
    EndIsAt(q, r, z);
    EndIsThree(r);
    hide RowKey, Proper, HoldsOpenHeader, Picture, HeaderAt, StartsWithRow, End, RestOf;
    var l, g := RowIsAt(t, true, y);
    f := g;
    HeaderBehindPart(RowKey(t) + y, q, r, |t.name|, l, f);
  }

  /** The first row of a reading that starts inside row `r`: it reads what follows it with as many rows, or one less. */
  lemma FirstRowBehindPart(q: string, r: Row, next: Row, t: Row, x: string, y: string) returns (v: Reading)
    requires Proper(r, true) && Proper(next, true) && Proper(t, true)
    requires RestOf(q, r) && !HoldsOpenHeader(Picture(r)) && !HoldsEnd(next.name)
    requires q + End(r) + (RowKey(next) + x) == RowKey(t) + y
    ensures match v
      case AsItIs => false
      case Whole(first) => Proper(first, true) && RowKey(first) + y == RowKey(next) + x
      case Inside(p) => RestOf(p, next) && y == p + End(next) + x
  {
    hide RowKey, Proper, HoldsOpenHeader, HoldsEnd, Picture, EndAt, End, RestOf;
    var z := RowKey(next) + x;
    var f := RowBehindPart(q, r, z, t, y);
    if |q| + 3 <= |t.name| {
      LongerName(t, q + End(r), z, y);
      v := Whole(t.(name := t.name[|q + End(r)|..]));
      AnyName(t, v.first.name, true);
    } else {
      var whole, first, p := PastTheEnd(t, next, RowKey(t) + y, |q| + 3, x, y, f);
      v := if whole then Whole(first) else Inside(p);
    }
  }

  /** Nothing can be read behind a part of the last row. */
  lemma NothingBehindPart(q: string, r: Row, t: Row, y: string)
    requires Proper(r, true) && Proper(t, true) && RestOf(q, r) && !HoldsOpenHeader(Picture(r))
    ensures q + End(r) + "" != RowKey(t) + y
  {
    if q + End(r) + "" == RowKey(t) + y {
      hide RowKey, Proper, HoldsOpenHeader, Picture, End, RestOf;
      var f := RowBehindPart(q, r, "", t, y);
      NameIsInKey(t);
    }
  }

  lemma ClearTail(a: seq<Row>)
    requires a != [] && AllProper(a, true) && Clear(a, true)
    ensures Clear(a[1..], true) && AllProper(a[1..], true) && Proper(a[0], true)
    ensures !HoldsHeader(a[0].name) && !HoldsOpenHeader(Picture(a[0])) && (|a| > 1 ==> !HoldsEnd(a[1].name))
  {
    hide HoldsHeader, HoldsOpenHeader, HoldsEnd, HoldsLateEnd, Picture, Proper;
  }

  /** Behind a part of a row fewer rows can be read than with it. */
  lemma {:induction false} FewerBehindPart(q: string, r: Row, rest: seq<Row>, b: seq<Row>)
    requires Proper(r, true) && RestOf(q, r) && !HoldsOpenHeader(Picture(r))
    requires AllProper(rest, true) && AllProper(b, true) && Clear(rest, true)
    requires rest != [] ==> !HoldsEnd(rest[0].name)
    requires q + End(r) + RosterKey(rest) == RosterKey(b)
    ensures |b| <= |rest|
    decreases |rest|, 1
  {
    hide RowKey, RosterKey, Proper, HoldsHeader, HoldsOpenHeader, HoldsEnd, HoldsLateEnd, Picture, RestOf, End;
    if b != [] {
      RosterKeyFront(b);
      if rest == [] {
        NoRowsNoKey();
        NothingBehindPart(q, r, b[0], RosterKey(b[1..]));
      } else {
        RosterKeyFront(rest);
        ClearTail(rest);
        hide Clear;
        var v := FirstRowBehindPart(q, r, rest[0], b[0], RosterKey(rest[1..]), RosterKey(b[1..]));
        if v.Whole? {
          FrontRow(v.first, b[1..]);
          HeadersTellRowsApart(rest, [v.first] + b[1..]);
        } else {
          FewerBehindPart(v.q, rest[0], rest[1..], b[1..]);
        }
      }
    }
  }

  lemma FirstOfSeveral(a: seq<Row>, b: seq<Row>) returns (v: Reading)
    requires AllProper(a, true) && AllProper(b, true) && Clear(a, true)
    requires |a| > 1 && b != [] && RosterKey(a) == RosterKey(b)
    ensures match v
      case AsItIs => TileOf(a[0], false) == TileOf(b[0], false) && RosterKey(a[1..]) == RosterKey(b[1..])
      case Whole(first) => Proper(first, true) && RosterKey([first] + b[1..]) == RosterKey(a[1..])
      case Inside(q) => RestOf(q, a[1]) && RosterKey(b[1..]) == q + End(a[1]) + RosterKey(a[2..])
  {
    hide RowKey, RosterKey, Proper, HoldsHeader, HoldsOpenHeader, HoldsEnd, HoldsLateEnd, TileOf, Picture, RestOf, End;
    RosterKeyFront(a);
    RosterKeyFront(b);
    RosterKeyFront(a[1..]);
    assert a[1..][1..] == a[2..];
    v := FirstRowByHeader(a[0], a[1], b[0], RosterKey(a[2..]), RosterKey(b[1..]));
    if v.Whole? {
      FrontRow(v.first, b[1..]);
    }
  }

  lemma OnlyRow(a: Row, b: seq<Row>)
    requires Proper(a, true) && AllProper(b, true) && b != [] && RosterKey([a]) == RosterKey(b)
    requires !HoldsHeader(a.name) && !HoldsOpenHeader(Picture(a))
    ensures |b| == 1 && TileOf(a, false) == TileOf(b[0], false)
  {
    hide RowKey, RosterKey, Proper, HoldsHeader, HoldsOpenHeader, TileOf, Picture;
    var none: seq<Row> := [];
    FrontRow(a, none);
    assert [a] + none == [a];
    NoRowsNoKey();
    RosterKeyFront(b);
    LastRowIsRead(a, b[0], b[1..]);
  }

  lemma {:induction false} HeadersTellRowsApart(a: seq<Row>, b: seq<Row>)
    requires AllProper(a, true) && AllProper(b, true) && Clear(a, true)
    requires RosterKey(a) == RosterKey(b)
    ensures |b| <= |a| && (|b| == |a| ==> Tiles(a, false) == Tiles(b, false))
    decreases |a|, 0
  {
    hide RowKey, RosterKey, Proper, HoldsHeader, HoldsOpenHeader, HoldsEnd, HoldsLateEnd, TileOf, Picture, Tiles;
    hide RestOf, End;
    if a == [] {
      NoRowsNoKey();
      EmptyKeyNoRows(b);
      assert a == b;
    } else if |a| == 1 && b != [] {
      assert a == [a[0]];
      OnlyRow(a[0], b);
      assert a[1..] == b[1..];
      SameTilesInFront(a, b);
    } else if b != [] {
      ClearTail(a);
      ClearTail(a[1..]);
      assert a[1..][1..] == a[2..];
      var v := FirstOfSeveral(a, b);
      hide Clear;
      match v
      case AsItIs =>
        HeadersTellRowsApart(a[1..], b[1..]);
        if |a| == |b| {
          SameTilesInFront(a, b);
        }
      case Whole(first) =>
        HeadersTellRowsApart(a[1..], [first] + b[1..]);
      case Inside(q) =>
        FewerBehindPart(q, a[1], a[2..], b[1..]);
    }
  }

  /** Equal roster keys of as many rows mean equal rows, but for their rings, when one of the rosters is clear. */
  lemma RosterKeyFaithful(a: seq<Row>, b: seq<Row>, bars: bool)
    requires AllProper(a, bars) && AllProper(b, bars) && Clear(a, bars)
    requires |a| == |b| && RosterKey(a) == RosterKey(b)
    ensures Tiles(a, false) == Tiles(b, false)
  {
    hide RosterKey, RowKey, HoldsHeader, HoldsOpenHeader, HoldsEnd, HoldsLateEnd, HoldsTail, Proper, TileOf;
    if bars {
      HeadersTellRowsApart(a, b);
    } else if |a| == 1 {
      RosterKeyFront(a);
      RosterKeyFront(b);
      assert a[1..] == b[1..] == [];
      NoRowsNoKey();
      assert RowKey(a[0]) == RowKey(a[0]) + "" == RowKey(b[0]) + "" == RowKey(b[0]);
      OneRowIsRead(a[0], b[0]);
      SameTilesInFront(a, b);
    } else {
      TailsTellRowsApart(a, b);
    }
  }

  // ----- Rosters that are not clear -----

  /** The row whose key has the given parts. */
  function ReadRow(name: string, stream: string, flags: string, picture: string, tone: int): Row
    requires AreFlags(flags)
  {
    Row(name, stream, flags[0] == 'm', flags[1] == 'v', flags[2] == 'r', flags[3] == 'h', flags[4] == 'p',
        flags[5] == 'g', |picture| > 1, picture, picture, tone, false)
  }

  lemma ReadRowKey(name: string, s: string, i: int, k: int, picture: string, tone: int)
    requires HeaderAt(s, i, k) && 0 <= tone < AVATAR_TONES
    ensures
      var r := ReadRow(name, s[i + 1..k], s[k + 1..k + 7], picture, tone);
      && RowKey(r) == name + Between(s, i, k + 8) + picture + EndOf(tone)
      && r.name == name && (picture != "" ==> Proper(r, true))
      && (picture != "" && OneBar(picture) ==> Proper(r, false))
  {
    var f := s[k + 1..k + 7];
    var r := ReadRow(name, s[i + 1..k], f, picture, tone);
    hide IsStreamId, Decimal;
    assert Flags(r) == f;
    assert s[i..k + 8] == "|" + s[i + 1..k] + "|" + f + "p";
    assert Header(r) == s[i..k + 8] && Picture(r) == picture && End(r) == EndOf(tone);
  }

  function ToneAt(s: string, e: int): int
    requires EndAt(s, e)
  {
    s[e + 1] as int - '0' as int
  }

  lemma EndText(s: string, e: int)
    requires EndAt(s, e)
    ensures 0 <= ToneAt(s, e) < AVATAR_TONES && Between(s, e, e + 3) == EndOf(ToneAt(s, e))
  {
    assert Decimal(ToneAt(s, e)) == [Digit(ToneAt(s, e))];
    assert s[e..e + 3] == [s[e], s[e + 1], s[e + 2]];
  }

  /** A roster with the key of `a`, as long as `a` and drawn otherwise. */
  predicate IsTwin(a: seq<Row>, b: seq<Row>, bars: bool) {
    AllProper(b, bars) && |b| == |a| && RosterKey(b) == RosterKey(a) && Tiles(b, false) != Tiles(a, false)
  }

  lemma OneRowTwin(a: seq<Row>, i: nat, r: Row, bars: bool)
    requires AllProper(a, bars) && i < |a| && Proper(r, bars)
    requires RowKey(r) == RowKey(a[i]) && TileOf(r, false) != TileOf(a[i], false)
    ensures IsTwin(a, a[i := r], bars)
  {
    hide RowKey, Proper, TileOf;
    var b := a[i := r];
    assert RowKeys(b) == RowKeys(a);
    assert Tiles(b, false)[i] != Tiles(a, false)[i];
  }

  lemma TwoRowsInside(front: seq<Row>, r: Row, t: Row, back: seq<Row>)
    ensures RosterKey(front + ([r] + ([t] + back))) == RosterKey(front) + (RowKey(r) + RowKey(t) + RosterKey(back))
  {
    hide RowKey, RosterKey;
    RosterKeyJoins(front, [r] + ([t] + back));
    FrontRow(r, [t] + back);
    FrontRow(t, back);
    ThreeParts(RowKey(r), RowKey(t), RosterKey(back));
  }

  lemma TwoRowsSameKey(a: seq<Row>, i: nat, r: Row, t: Row)
    requires i + 1 < |a| && RowKey(r) + RowKey(t) == RowKey(a[i]) + RowKey(a[i + 1])
    ensures RosterKey(a[i := r][i + 1 := t]) == RosterKey(a)
  {
    hide RowKey, RosterKey;
    var b, front, back := a[i := r][i + 1 := t], a[..i], a[i + 2..];
    assert a == front + ([a[i]] + ([a[i + 1]] + back));
    assert b == front + ([r] + ([t] + back));
    TwoRowsInside(front, a[i], a[i + 1], back);
    TwoRowsInside(front, r, t, back);
  }

  lemma TwoRowTwin(a: seq<Row>, i: nat, r: Row, t: Row, bars: bool)
    requires AllProper(a, bars) && i + 1 < |a| && Proper(r, bars) && Proper(t, bars)
    requires RowKey(r) + RowKey(t) == RowKey(a[i]) + RowKey(a[i + 1])
    requires TileOf(r, false) != TileOf(a[i], false)
    ensures IsTwin(a, a[i := r][i + 1 := t], bars)
  {
    hide RowKey, Proper, TileOf, RosterKey;
    TwoRowsSameKey(a, i, r, t);
    assert Tiles(a[i := r][i + 1 := t], false)[i] != Tiles(a, false)[i];
  }

  /** A name that holds a tail is read as two rows. */
  lemma TailInAName(r: Row) returns (t: Row, y: string)
    requires HoldsTail(r.name)
    ensures Proper(t, false) && |t.name| < |r.name| && r.name == RowKey(t) + y
  {
    var s := r.name;
    var i, k, e :| 0 <= i < k < e < |s| && TailAt(s, i, k, e);
    t, y := TailReads(s, i, k, e);
  }

  lemma TailReads(s: string, i: int, k: int, e: int) returns (t: Row, y: string)
    requires TailAt(s, i, k, e)
    ensures Proper(t, false) && |t.name| == i && s == RowKey(t) + y
  {
    hide Before, Between, After, EndOf, ToneAt, RowKey, Proper, HeaderAt, EndAt;
    EndText(s, e);
    TailPicture(s, i, k, e);
    hide TailAt;
    y := After(s, e + 3);
    t := HeaderReads(Before(s, i), s, i, k, Between(s, k + 8, e), ToneAt(s, e));
    CutTwice(s, i, k + 8, e, e + 3);
  }

  lemma TailPicture(s: string, i: int, k: int, e: int)
    requires TailAt(s, i, k, e)
    ensures HeaderAt(s, i, k) && EndAt(s, e) && 0 <= i < k + 8 <= e < e + 3 <= |s| && |Before(s, i)| == i
    ensures var p := Between(s, k + 8, e); p != "" && OneBar(p)
  {
  }

  /** A row read from a header in a text. */
  lemma HeaderReads(name: string, s: string, i: int, k: int, picture: string, tone: int) returns (t: Row)
    requires HeaderAt(s, i, k) && 0 <= tone < AVATAR_TONES
    ensures RowKey(t) == name + Between(s, i, k + 8) + picture + EndOf(tone)
    ensures t.name == name && (picture != "" ==> Proper(t, true))
    ensures picture != "" && OneBar(picture) ==> Proper(t, false)
  {
    t := ReadRow(name, s[i + 1..k], s[k + 1..k + 7], picture, tone);
    ReadRowKey(name, s, i, k, picture, tone);
  }

  lemma SplitsInTwo(a: Row, t: Row, y: string)
    requires Proper(a, false) && a.name == RowKey(t) + y
    ensures Proper(a.(name := y), false) && RowKey(a) == RowKey(t) + RowKey(a.(name := y))
  {
    hide RowKey, IsStreamId;
    NameSplits(a, RowKey(t), y);
  }

  /** A row takes the key of another into its name. */
  lemma NameTakes(r: Row, key: string, bars: bool)
    requires Proper(r, bars)
    ensures var u := r.(name := key + r.name); Proper(u, bars) && RowKey(u) == key + RowKey(r)
  {
    hide RowKey, IsStreamId;
    var u := r.(name := key + r.name);
    assert u.(name := r.name) == r;
    NameSplits(u, key, r.name);
  }

  /** The second of the two rows goes into the name of the next one, or the first takes in the one before. */
  lemma TailInANameTwins(a: seq<Row>, n: nat) returns (b: seq<Row>)
    requires AllProper(a, false) && n < |a| && |a| > 1 && HoldsTail(a[n].name)
    ensures IsTwin(a, b, false)
  {
    hide HoldsTail, RowKey, IsTwin, Proper;
    var r, y := TailInAName(a[n]);
    var t := a[n].(name := y);
    SplitsInTwo(a[n], r, y);
    if n + 1 < |a| {
      var next := a[n + 1];
      var u := next.(name := RowKey(t) + next.name);
      NameTakes(next, RowKey(t), false);
      ThreeParts(RowKey(r), RowKey(t), RowKey(next));
      b := a[n := r][n + 1 := u];
      OtherName(r, a[n]);
      TwoRowTwin(a, n, r, u, false);
    } else {
      var last := a[n - 1];
      var u := r.(name := RowKey(last) + r.name);
      NameTakes(r, RowKey(last), false);
      ThreeParts(RowKey(last), RowKey(r), RowKey(t));
      NameIsInKey(last);
      OtherName(u, last);
      b := a[n - 1 := u][n := t];
      TwoRowTwin(a, n - 1, u, t, false);
    }
  }

  lemma OtherName(a: Row, b: Row)
    requires |a.name| != |b.name|
    ensures TileOf(a, false) != TileOf(b, false)
  {
    assert TileOf(a, false).name == a.name && TileOf(b, false).name == b.name;
  }

  lemma NameIsInKey(r: Row)
    ensures |r.name| < |RowKey(r)|
  {
  }

  /** A header in a name is read as the row's own, with the rest of the row as its picture. */
  lemma HeaderInAName(r: Row) returns (t: Row)
    requires Proper(r, true) && HoldsHeader(r.name)
    ensures Proper(t, true) && RowKey(t) == RowKey(r) && |t.name| < |r.name|
  {
    var s := r.name;
    var i, k :| 0 <= i < k < |s| && HeaderAt(s, i, k);
    assert |Before(s, i)| == i && 0 <= i < k + 8 <= |s|;
    var x, h, y := Before(s, i), Between(s, i, k + 8), After(s, k + 8);
    t := HeaderReads(x, s, i, k, y + Header(r) + Picture(r), r.avatarTone);
    hide Before, Between, After, EndOf, Header, Picture, HeaderAt, Proper;
    CutAt(s, i, k + 8);
    MiddleParts(x, h, y, Header(r), Picture(r), End(r));
  }

  lemma MiddleParts(x: string, g: string, y: string, h: string, p: string, e: string)
    ensures x + g + (y + h + p) + e == (x + g + y) + h + p + e
  {
  }

  /** A header in a picture is read as the row's own, with the row up to there as its name. */
  lemma HeaderInAPicture(r: Row) returns (t: Row)
    requires Proper(r, true) && HoldsOpenHeader(Picture(r))
    ensures Proper(t, true) && RowKey(t) == RowKey(r) && |t.name| > |r.name|
  {
    var s := Picture(r);
    var i, k :| 0 <= i < k < |s| - 8 && HeaderAt(s, i, k);
    assert 0 <= i < k + 8 < |s|;
    assert After(s, k + 8) != "";
    var x, h, y := Before(s, i), Between(s, i, k + 8), After(s, k + 8);
    var name := r.name + Header(r) + x;
    assert |name| > |r.name|;
    t := HeaderReads(name, s, i, k, y, r.avatarTone);
    hide Before, Between, After, EndOf, Header, Picture, HeaderAt, Proper;
    CutAt(s, i, k + 8);
    InnerParts(r.name + Header(r), x, h, y, End(r));
  }

  lemma InnerParts(n: string, x: string, h: string, y: string, e: string)
    ensures (n + x) + h + y + e == n + (x + h + y) + e
  {
  }

  /** An end in a later name is read as the end of the row before. */
  lemma EndInAName(r: Row, next: Row) returns (t: Row, u: Row)
    requires Proper(r, true) && Proper(next, true) && HoldsEnd(next.name)
    ensures Proper(t, true) && Proper(u, true) && RowKey(t) + RowKey(u) == RowKey(r) + RowKey(next)
    ensures TileOf(t, false) != TileOf(r, false)
  {
    var s := next.name;
    var e :| 0 <= e < |s| && EndAt(s, e);
    EndText(s, e);
    var x, q, y, tone := Before(s, e), Between(s, e, e + 3), After(s, e + 3), ToneAt(s, e);
    var p := Picture(r) + End(r) + x;
    assert |p| > |Picture(r)|;
    t := PictureReads(r, p, tone);
    u := next.(name := y);
    hide Before, Between, After, EndOf, ToneAt, EndAt, TileOf, Picture, Proper;
    AnyName(next, u.name, true);
    CutAt(s, e, e + 3);
    NameSplits(next, x + q, y);
    hide Header, End;
    LastParts(r.name + Header(r), Picture(r), End(r), x, q);
    assert RowKey(t) == RowKey(r) + (x + q);
    hide RowKey;
    ThreeParts(RowKey(r), x + q, RowKey(u));
  }

  /** A row with another picture and tone. */
  lemma PictureReads(r: Row, picture: string, tone: int) returns (t: Row)
    requires Proper(r, true) && 0 <= tone < AVATAR_TONES && picture != ""
    ensures Proper(t, true) && RowKey(t) == r.name + Header(r) + picture + EndOf(tone)
    ensures |picture| != |Picture(r)| ==> TileOf(t, false) != TileOf(r, false)
  {
    t := WithPicture(r, picture, tone);
    WithPictureKey(r, picture, tone);
    assert TileOf(t, false).picture == picture && TileOf(r, false).picture == Picture(r);
  }

  lemma LastParts(n: string, p: string, e: string, x: string, q: string)
    ensures n + (p + e + x) + q == n + p + e + (x + q)
  {
  }

  /** An end in a picture is read as the row's own, with the rest of the row in the next name. */
  lemma EndInAPicture(r: Row, next: Row) returns (t: Row, u: Row)
    requires Proper(r, true) && Proper(next, true) && HoldsLateEnd(Picture(r))
    ensures Proper(t, true) && Proper(u, true) && RowKey(t) + RowKey(u) == RowKey(r) + RowKey(next)
    ensures TileOf(t, false) != TileOf(r, false)
  {
    var s := Picture(r);
    var e :| 0 < e < |s| && EndAt(s, e);
    EndText(s, e);
    assert 0 < |Before(s, e)| < |s|;
    var x, q, y, tone := Before(s, e), Between(s, e, e + 3), After(s, e + 3), ToneAt(s, e);
    var rest := y + End(r);
    t := PictureReads(r, x, tone);
    u := next.(name := rest + next.name);
    hide Before, Between, After, EndOf, ToneAt, EndAt, TileOf, Picture, Proper;
    AnyName(next, u.name, true);
    CutAt(s, e, e + 3);
    hide Header, End;
    PictureParts(r.name + Header(r), x, q, y, End(r));
    assert RowKey(r) == RowKey(t) + rest;
    hide RowKey;
    NameTakes(next, rest, true);
    ThreeParts(RowKey(t), rest, RowKey(next));
  }

  lemma PictureParts(n: string, x: string, q: string, y: string, e: string)
    ensures n + x + q + (y + e) == n + (x + q + y) + e
  {
  }

  /** A roster that is not clear has a twin. */
  lemma UnclearRosterHasATwin(a: seq<Row>, bars: bool) returns (b: seq<Row>)
    requires AllProper(a, bars) && !Clear(a, bars)
    ensures IsTwin(a, b, bars)
  {
    hide IsTwin, HoldsHeader, HoldsOpenHeader, HoldsEnd, HoldsLateEnd, HoldsTail, Picture, Proper, RowKey;
    if !bars {
      var i :| 0 <= i < |a| && HoldsTail(a[i].name);
      b := TailInANameTwins(a, i);
    } else if i :| 0 <= i < |a| && HoldsHeader(a[i].name) {
      var t := HeaderInAName(a[i]);
      OtherName(t, a[i]);
      b := a[i := t];
      OneRowTwin(a, i, t, true);
    } else if i :| 0 <= i < |a| && HoldsOpenHeader(Picture(a[i])) {
      var t := HeaderInAPicture(a[i]);
      OtherName(t, a[i]);
      b := a[i := t];
      OneRowTwin(a, i, t, true);
    } else if i :| 0 < i < |a| && HoldsEnd(a[i].name) {
      var t, u := EndInAName(a[i - 1], a[i]);
      b := a[i - 1 := t][i := u];
      TwoRowTwin(a, i - 1, t, u, true);
    } else {
      var i :| 0 <= i < |a| - 1 && HoldsLateEnd(Picture(a[i]));
      var t, u := EndInAPicture(a[i], a[i + 1]);
      b := a[i := t][i + 1 := u];
      TwoRowTwin(a, i, t, u, true);
    }
  }

  /** Two rosters of two people, from any three: the second takes another's place, and the key is the same. */
  lemma NamesMakeTwins(r: Row, s: Row, t: Row, bars: bool)
    requires Proper(r, bars) && Proper(s, bars) && Proper(t, bars)
    ensures AllProper([r, t.(name := RowKey(s) + t.name)], bars)
    ensures IsTwin([r, t.(name := RowKey(s) + t.name)], [s.(name := RowKey(r) + s.name), t], bars)
  {
    hide RowKey, IsTwin, Proper;
    var u, v := t.(name := RowKey(s) + t.name), s.(name := RowKey(r) + s.name);
    NameTakes(t, RowKey(s), bars);
    NameTakes(s, RowKey(r), bars);
    NameIsInKey(r);
    OtherName(v, r);
    ThreeParts(RowKey(r), RowKey(s), RowKey(t));
    var a := [r, u];
    TwoRowTwin(a, 0, v, t, bars);
    assert a[0 := v][1 := t] == [v, t];
  }

  predicate IsBlank(c: char) { c == ' ' || c == '\t' || c == '\n' || c == '\r' }

  /** The first character of a name that is not blank, a small ASCII letter as its capital; none in a blank name. */
  function LetterOf(name: string): string {
    if name == "" then ""
    else if IsBlank(name[0]) then LetterOf(name[1..])
    else if 'a' <= name[0] <= 'z' then [name[0] - 'a' + 'A']
    else [name[0]]
  }

  /** A row as the presenter makes it: the letter is that of the name; a blank name takes one from the identity. */
  predicate Lettered(r: Row) { r.hasAvatar || LetterOf(r.name) == "" || r.avatarLetter == LetterOf(r.name) }

  lemma {:induction false} LetterComesFirst(x: string, y: string)
    requires LetterOf(x) != ""
    ensures LetterOf(x + y) == LetterOf(x)
  {
    if IsBlank(x[0]) {
      LetterComesFirst(x[1..], y);
      assert (x + y)[1..] == x[1..] + y;
    }
  }

  /** A row that takes another's key into its name shows that one's letter. */
  lemma TakenLetter(r: Row, s: Row)
    requires LetterOf(r.name) != "" && (s.hasAvatar || s.avatarLetter == LetterOf(r.name))
    ensures Lettered(s.(name := RowKey(r) + s.name))
  {
    var tail := Header(r) + Picture(r) + End(r) + s.name;
    LetterComesFirst(r.name, tail);
    hide Header, Picture, End, LetterOf;
    assert RowKey(r) + s.name == r.name + tail;
  }

  /** These are rows as the presenter makes them when the names begin with one letter, or the later two have photos. */
  lemma PresenterMakesTwins(r: Row, s: Row, t: Row)
    requires Lettered(r) && Lettered(s) && Lettered(t) && LetterOf(r.name) != "" && LetterOf(s.name) != ""
    requires s.hasAvatar || s.avatarLetter == LetterOf(r.name)
    requires t.hasAvatar || t.avatarLetter == LetterOf(s.name)
    ensures forall x :: x in [r, t.(name := RowKey(s) + t.name)] ==> Lettered(x)
    ensures forall x :: x in [s.(name := RowKey(r) + s.name), t] ==> Lettered(x)
  {
    TakenLetter(r, s);
    TakenLetter(s, t);
    hide RowKey, Lettered;
  }

  /** Exactly the clear rosters are told apart by their key from all others of their length. */
  lemma ClearIsExact(a: seq<Row>, bars: bool)
    requires AllProper(a, bars)
    ensures Clear(a, bars) <==> forall b :: !IsTwin(a, b, bars)
  {
    if Clear(a, bars) {
      forall b ensures !IsTwin(a, b, bars) {
        hide RosterKey, Tiles, Proper, Clear;
        if AllProper(b, bars) && |b| == |a| && RosterKey(b) == RosterKey(a) {
          RosterKeyFaithful(a, b, bars);
        }
      }
    } else {
      var b := UnclearRosterHasATwin(a, bars);
    }
  }

  // ----- Rings -----

  /** Whether a row's speaking ring differs, or the number of rows. */
  predicate RingsDiffer(before: seq<Row>, after: seq<Row>) {
    |before| != |after| || exists i :: 0 <= i < |before| && before[i].speaking != after[i].speaking
  }

  method SpeakingChanged(before: seq<Row>, after: seq<Row>) returns (changed: bool)
    ensures changed == RingsDiffer(before, after)
  {
    if |before| != |after| {
      return true;
    }
    for i := 0 to |before|
      invariant forall j :: 0 <= j < i ==> before[j].speaking == after[j].speaking
    {
      if before[i].speaking != after[i].speaking {
        return true;
      }
    }
    return false;
  }

  /** A ring belongs to a stream: rows of one stream ring together. */
  predicate RingsByStream(rows: seq<Row>) {
    forall i, j :: 0 <= i < |rows| && 0 <= j < |rows| && rows[i].stream == rows[j].stream ==>
      rows[i].speaking == rows[j].speaking
  }

  /** The streams a speaking key lists. */
  function SpeakingStreams(rows: seq<Row>): seq<string> {
    if rows == [] then []
    else (if rows[0].speaking then [rows[0].stream] else []) + SpeakingStreams(rows[1..])
  }

  lemma NobodySpeaks()
    ensures SpeakingKey([]) == ""
  {
  }

  lemma SpeakingKeyFront(rows: seq<Row>)
    requires rows != []
    ensures SpeakingKey(rows) ==
      if rows[0].speaking then rows[0].stream + ";" + SpeakingKey(rows[1..]) else SpeakingKey(rows[1..])
  {
    ConcatFront(RingKeys(rows));
    assert RingKeys(rows)[1..] == RingKeys(rows[1..]);
    assert "" + SpeakingKey(rows[1..]) == SpeakingKey(rows[1..]);
  }

  lemma {:induction false} SpeakingStreamsAre(rows: seq<Row>, s: string)
    ensures s in SpeakingStreams(rows) <==> exists i :: 0 <= i < |rows| && rows[i].speaking && rows[i].stream == s
  {
    if rows != [] {
      SpeakingStreamsAre(rows[1..], s);
      if exists i :: 0 <= i < |rows| && rows[i].speaking && rows[i].stream == s {
        var i :| 0 <= i < |rows| && rows[i].speaking && rows[i].stream == s;
        if i > 0 {
          assert rows[1..][i - 1].speaking && rows[1..][i - 1].stream == s;
        }
      }
      if exists i :: 0 <= i < |rows[1..]| && rows[1..][i].speaking && rows[1..][i].stream == s {
        var i :| 0 <= i < |rows[1..]| && rows[1..][i].speaking && rows[1..][i].stream == s;
        assert rows[i + 1].speaking && rows[i + 1].stream == s;
      }
    }
  }

  /** Equal speaking keys list the same streams in the same order. */
  lemma {:induction false} SpeakingKeyFaithful(a: seq<Row>, b: seq<Row>)
    requires forall r :: r in a ==> ';' !in r.stream
    requires forall r :: r in b ==> ';' !in r.stream
    ensures SpeakingKey(a) == SpeakingKey(b) <==> SpeakingStreams(a) == SpeakingStreams(b)
    decreases |a| + |b|
  {
    hide SpeakingKey;
    if a != [] {
      SpeakingKeyFront(a);
    }
    if b != [] {
      SpeakingKeyFront(b);
    }
    if a != [] && !a[0].speaking {
      SpeakingKeyFaithful(a[1..], b);
    } else if b != [] && !b[0].speaking {
      SpeakingKeyFaithful(a, b[1..]);
    } else if a != [] && b != [] {
      var x, y := SpeakingKey(a[1..]), SpeakingKey(b[1..]);
      SpeakingKeyFaithful(a[1..], b[1..]);
      if SpeakingKey(a) == SpeakingKey(b) {
        CutIsUnique(a[0].stream, x, b[0].stream, y, ';');
      }
      if SpeakingStreams(a) == SpeakingStreams(b) {
        assert SpeakingStreams(a)[0] == a[0].stream && SpeakingStreams(b)[0] == b[0].stream;
        assert SpeakingStreams(a)[1..] == SpeakingStreams(a[1..]);
        assert SpeakingStreams(b)[1..] == SpeakingStreams(b[1..]);
      }
    } else {
      NobodySpeaks();
    }
  }

  /** With equal roster keys, the speaking keys differ exactly when some row's ring differs. */
  lemma RingChangesShow(a: seq<Row>, b: seq<Row>, bars: bool)
    requires AllProper(a, bars) && AllProper(b, bars) && RingsByStream(a) && RingsByStream(b)
    requires Clear(a, bars) && |a| == |b| && RosterKey(a) == RosterKey(b)
    ensures SpeakingKey(a) != SpeakingKey(b) <==> RingsDiffer(a, b)
    ensures SpeakingKey(a) == SpeakingKey(b) <==> Tiles(a, true) == Tiles(b, true)
  {
    hide RosterKey, SpeakingKey, AllProper, Clear, Tiles, SpeakingStreams;
    RosterKeyFaithful(a, b, bars);
    StreamsAreNumbers(a, bars);
    StreamsAreNumbers(b, bars);
    SpeakingKeyFaithful(a, b);
    SameTilesButRings(a, b);
    if RingsDiffer(a, b) {
      var i :| 0 <= i < |a| && a[i].speaking != b[i].speaking;
      SpeakingStreamsAre(a, a[i].stream);
      SpeakingStreamsAre(b, a[i].stream);
    } else {
      SameRingsSameStreams(a, b);
    }
  }

  lemma StreamsAreNumbers(rows: seq<Row>, bars: bool)
    requires AllProper(rows, bars)
    ensures forall r :: r in rows ==> ';' !in r.stream
  {
    forall r | r in rows ensures ';' !in r.stream {
      assert Proper(r, bars);
      StreamIdIsDigits(r.stream);
    }
  }

  lemma SameTilesButRings(a: seq<Row>, b: seq<Row>)
    requires Tiles(a, false) == Tiles(b, false)
    ensures |a| == |b| && forall i :: 0 <= i < |a| ==> a[i].stream == b[i].stream
    ensures RingsDiffer(a, b) <==> Tiles(a, true) != Tiles(b, true)
  {
    assert |Tiles(a, false)| == |Tiles(b, false)|;
    forall i | 0 <= i < |a|
      ensures a[i].stream == b[i].stream
      ensures a[i].speaking == b[i].speaking <==> Tiles(a, true)[i] == Tiles(b, true)[i]
    {
      assert Tiles(a, false)[i] == Tiles(b, false)[i];
    }
    if RingsDiffer(a, b) {
      var i :| 0 <= i < |a| && a[i].speaking != b[i].speaking;
      assert Tiles(a, true)[i] != Tiles(b, true)[i];
    }
  }

  lemma {:induction false} SameRingsSameStreams(a: seq<Row>, b: seq<Row>)
    requires |a| == |b|
    requires forall i :: 0 <= i < |a| ==> a[i].stream == b[i].stream && a[i].speaking == b[i].speaking
    ensures SpeakingStreams(a) == SpeakingStreams(b)
  {
    if a != [] {
      SameRingsSameStreams(a[1..], b[1..]);
    }
  }
}
