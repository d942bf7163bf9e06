/**
 * The speakers of a group call: the spotlight, which one speaker takes and holds, and the rings on the tiles.
 * Levels are reals, times are milliseconds, streams are told apart by their names.
 */
module ActiveSpeaker {
  import opened Text

  const SPEAKING_LEVEL := 0.08
  const SPEAK_FOR_MS := 600
  const HOLD_MS := 3000
  const RING_MS := 500

  datatype Level = Level(stream: string, level: real)

  datatype Speaker = Speaker(heard: map<string, int>, since: map<string, int>, current: string, currentSince: int)

  const SILENT := Speaker(map[], map[], "", 0)

  /** The streams at or above the speaking level. */
  function Talkers(levels: seq<Level>): set<string> {
    set i | 0 <= i < |levels| && levels[i].level >= SPEAKING_LEVEL :: levels[i].stream
  }

  function SinceOf(p: Speaker, stream: string, now: int): int {
    if stream in p.since then p.since[stream] else now
  }

  /** Whether entry `l` may take the spotlight: it has spoken for long enough. */
  predicate Candidate(p: Speaker, l: Level, now: int) {
    l.level >= SPEAKING_LEVEL && now - SinceOf(p, l.stream, now) >= SPEAK_FOR_MS
  }

  /** The first loudest candidate, or no stream at level 0. */
  function Loudest(p: Speaker, levels: seq<Level>, now: int): Level {
    if levels == [] then Level("", 0.0)
    else
      var best, l := Loudest(p, levels[..|levels| - 1], now), levels[|levels| - 1];
      if Candidate(p, l, now) && l.level > best.level then l else best
  }

  predicate Gives(p: Speaker, levels: seq<Level>, now: int) {
    p.current == "" || (now - p.currentSince >= HOLD_MS && p.current !in Talkers(levels))
  }

  function SinceAfter(p: Speaker, talkers: set<string>, now: int): map<string, int> {
    map s | s in talkers :: SinceOf(p, s, now)
  }

  function HeardAfter(p: Speaker, talkers: set<string>, now: int): map<string, int> {
    p.heard + map s | s in talkers :: now
  }

  function Updated(p: Speaker, levels: seq<Level>, now: int): Speaker {
    var since, heard := SinceAfter(p, Talkers(levels), now), HeardAfter(p, Talkers(levels), now);
    var loudest := Loudest(p, levels, now).stream;
    if loudest == "" || loudest == p.current || !Gives(p, levels, now)
    then Speaker(heard, since, p.current, p.currentSince)
    else Speaker(heard, since, loudest, now)
  }

  /** The streams with a ring. */
  function Ring(p: Speaker, now: int): set<string> { set s | s in p.heard && now - p.heard[s] <= RING_MS }

  function Pruned(p: Speaker, now: int): Speaker { p.(heard := map s | s in Ring(p, now) :: p.heard[s]) }

  // ----- Sorted streams -----

  predicate Ascending(s: seq<string>) { forall i, j :: 0 <= i < j < |s| ==> Less(s[i], s[j]) }

  lemma LessIsOneWay(a: string, b: string)
    requires Less(a, b)
    ensures !Less(b, a) && a != b
  {
    LessIsStrict(a);
    if Less(b, a) { LessIsTransitive(a, b, a); }
  }

  lemma FirstIsIn(a: seq<string>)
    requires a != []
    ensures a[0] in a
  {
  }

  lemma FirstIsLeast(a: seq<string>, x: string)
    requires Ascending(a) && x in a
    ensures x == a[0] || (Less(a[0], x) && x in a[1..])
  {
    var i :| 0 <= i < |a| && a[i] == x;
    if i > 0 { assert a[1..][i - 1] == x; }
  }

  lemma RestOfAscending(a: seq<string>, x: string)
    requires Ascending(a) && a != []
    ensures x in a[1..] <==> x in a && x != a[0]
  {
    if x in a { FirstIsLeast(a, x); }
    if x in a[1..] {
      var i :| 0 <= i < |a| - 1 && a[1..][i] == x;
      assert Less(a[0], a[i + 1]);
      LessIsOneWay(a[0], x);
    }
  }

  /** One ascending list holds a given set of streams: the order of a hash map does not show. */
  lemma {:induction false} AscendingIsUnique(a: seq<string>, b: seq<string>)
    requires Ascending(a) && Ascending(b) && forall x :: x in a <==> x in b
    ensures a == b
  {
    if a == [] {
      if b != [] { FirstIsIn(b); }
    } else {
      assert a[0] in a && b[0] in b;
      FirstIsLeast(a, b[0]);
      FirstIsLeast(b, a[0]);
      assert a[0] == b[0] by {
        if Less(a[0], b[0]) { LessIsOneWay(a[0], b[0]); }
      }
      forall x ensures x in a[1..] <==> x in b[1..] {
        RestOfAscending(a, x);
        RestOfAscending(b, x);
      }
      AscendingIsUnique(a[1..], b[1..]);
      assert a == [a[0]] + a[1..] && b == [b[0]] + b[1..];
    }
  }

  lemma InsertedAscends(s: seq<string>, x: string, i: nat)
    requires Ascending(s) && i <= |s|
    requires (forall k :: 0 <= k < i ==> Less(s[k], x)) && forall k :: i <= k < |s| ==> Less(x, s[k])
    ensures Ascending(s[..i] + [x] + s[i..])
  {
    hide Less;
    var r := s[..i] + [x] + s[i..];
    forall m, n | 0 <= m < n < |r| ensures Less(r[m], r[n]) {
      assert r[m] == (if m < i then s[m] else if m == i then x else s[m - 1]);
      assert r[n] == (if n < i then s[n] else if n == i then x else s[n - 1]);
    }
  }

  lemma InsertedHolds(s: seq<string>, x: string, i: nat)
    requires i <= |s|
    ensures forall y :: y in s[..i] + [x] + s[i..] <==> y in s || y == x
  {
    assert s == s[..i] + s[i..];
  }

  /** One stream in its place among ascending others. */
  method InsertSorted(s: seq<string>, x: string) returns (r: seq<string>)
    requires Ascending(s) && x !in s
    ensures Ascending(r) && forall y :: y in r <==> y in s || y == x
  {
    hide Less;
    var i := 0;
    while i < |s| && Less(s[i], x)
      invariant i <= |s| && forall k :: 0 <= k < i ==> Less(s[k], x)
    {
      i := i + 1;
    }
    forall k | i <= k < |s| ensures Less(x, s[k]) {
      LessIsTotal(s[i], x);
      if k > i { LessIsTransitive(x, s[i], s[k]); }
    }
    InsertedAscends(s, x, i);
    InsertedHolds(s, x, i);
    hide Ascending;
    r := s[..i] + [x] + s[i..];
  }

  // ----- The speaker, in place -----

  class CallActiveSpeaker {
    var heard: map<string, int>
    var since: map<string, int>
    var current: string
    var currentSince: int

    function Contents(): Speaker
      reads this
    {
      Speaker(heard, since, current, currentSince)
    }

    constructor ()
      ensures Contents() == SILENT
    {
      heard, since, current, currentSince := map[], map[], "", 0;
    }

    method Update(levels: seq<Level>, now: int) returns (spotlit: string)
      modifies this
      ensures Contents() == Updated(old(Contents()), levels, now) && spotlit == current
    {
      ghost var was := Contents();
      var speaking: map<string, int> := map[];
      var loudest, loudestLevel := "", 0.0;
      for i := 0 to |levels|
        invariant since == was.since && current == was.current && currentSince == was.currentSince
        invariant Scan(heard, speaking, Level(loudest, loudestLevel)) == Scanned(was, levels[..i], now)
      {
        assert levels[..i + 1][..i] == levels[..i];
        var l := levels[i];
        if l.level < SPEAKING_LEVEL { continue; }
        heard := heard[l.stream := now];
        var start := if l.stream in since then since[l.stream] else now;
        if l.stream !in speaking { speaking := speaking[l.stream := start]; }
        if now - start >= SPEAK_FOR_MS && l.level > loudestLevel {
          loudest, loudestLevel := l.stream, l.level;
        }
      }
      assert levels[..|levels|] == levels;
      ScannedIs(was, levels, now);
      SinceKeys(was, Talkers(levels), now);
      hide Talkers, SinceAfter, HeardAfter, Loudest, Scanned;
      since := speaking;
      if loudest == "" || loudest == current { return current; }
      var currentSpeaking := current in since;
      if current == "" || (now - currentSince >= HOLD_MS && !currentSpeaking) {
        current := loudest;
        currentSince := now;
      }
      return current;
    }

    /** The streams with a ring, in ascending order; streams past their time are forgotten. */
    method Speaking(now: int) returns (streams: seq<string>)
      modifies this`heard
      ensures Contents() == Pruned(old(Contents()), now)
      ensures Ascending(streams) && forall s :: s in streams <==> s in Ring(old(Contents()), now)
    {
      ghost var was := Contents();
      var rest := heard.Keys;
      streams := [];
      while rest != {}
        invariant rest <= was.heard.Keys
        invariant heard == map s | s in was.heard && (s in rest || now - was.heard[s] <= RING_MS) :: was.heard[s]
        invariant Ascending(streams)
        invariant forall s :: s in streams <==> s in was.heard && s !in rest && now - was.heard[s] <= RING_MS
        decreases |rest|
      {
        var s :| s in rest;
        rest := rest - {s};
        if now - heard[s] > RING_MS {
          heard := heard - {s};
        } else {
          streams := InsertSorted(streams, s);
        }
      }
    }

    method Reset()
      modifies this
      ensures Contents() == SILENT
    {
      heard, since, current, currentSince := map[], map[], "", 0;
    }
  }

  lemma TalkersGrow(levels: seq<Level>, i: nat)
    requires i < |levels|
    ensures Talkers(levels[..i + 1])
         == Talkers(levels[..i]) + if levels[i].level >= SPEAKING_LEVEL then {levels[i].stream} else {}
  {
    var a, b := levels[..i], levels[..i + 1];
    assert forall k :: 0 <= k < i ==> a[k] == b[k];
    assert b[i] == levels[i];
    forall s | s in Talkers(a) ensures s in Talkers(b) {
      var k :| 0 <= k < i && a[k].level >= SPEAKING_LEVEL && a[k].stream == s;
      assert b[k].stream == s;
    }
  }

  /** One more talker: it is heard now, and its run goes on or starts. */
  lemma MapsGrow(p: Speaker, talkers: set<string>, s: string, now: int)
    ensures HeardAfter(p, talkers + {s}, now) == HeardAfter(p, talkers, now)[s := now]
    ensures SinceAfter(p, talkers + {s}, now) ==
      if s in talkers then SinceAfter(p, talkers, now) else SinceAfter(p, talkers, now)[s := SinceOf(p, s, now)]
  {
    HeardGrows(p, talkers, s, now);
    hide HeardAfter;
    assert s in talkers ==> talkers + {s} == talkers;
  }

  lemma HeardGrows(p: Speaker, talkers: set<string>, s: string, now: int)
    ensures HeardAfter(p, talkers + {s}, now) == HeardAfter(p, talkers, now)[s := now]
  {
  }

  lemma SinceKeys(p: Speaker, talkers: set<string>, now: int)
    ensures SinceAfter(p, talkers, now).Keys == talkers
  {
  }

  /** What the scan of the levels gathers, entry by entry. */
  datatype Scan = Scan(heard: map<string, int>, speaking: map<string, int>, best: Level)

  function Heeded(p: Speaker, c: Scan, l: Level, now: int): Scan {
    if l.level < SPEAKING_LEVEL then c
    else
      var start := SinceOf(p, l.stream, now);
      Scan(c.heard[l.stream := now],
           if l.stream in c.speaking then c.speaking else c.speaking[l.stream := start],
           if now - start >= SPEAK_FOR_MS && l.level > c.best.level then l else c.best)
  }

  function Scanned(p: Speaker, levels: seq<Level>, now: int): Scan {
    if levels == [] then Scan(p.heard, map[], Level("", 0.0))
    else Heeded(p, Scanned(p, levels[..|levels| - 1], now), levels[|levels| - 1], now)
  }

  /** The scan's maps and its best entry are those of the set of talkers. */
  lemma {:induction false} ScannedIs(p: Speaker, levels: seq<Level>, now: int)
    ensures Scanned(p, levels, now)
         == Scan(HeardAfter(p, Talkers(levels), now), SinceAfter(p, Talkers(levels), now), Loudest(p, levels, now))
  {
    if levels != [] {
      var n := |levels| - 1;
      var talkers, l := Talkers(levels[..n]), levels[n];
      ScannedIs(p, levels[..n], now);
      TalkersGrow(levels, n);
      assert levels[..n + 1] == levels;
      MapsGrow(p, talkers, l.stream, now);
      SinceKeys(p, talkers, now);
      hide Talkers, SinceAfter, HeardAfter;
      assert talkers + {} == talkers;
    }
  }

  // ----- Runs since the last reset -----

  datatype Event = Update(levels: seq<Level>, now: int) | Ask(now: int)

  function Step(p: Speaker, e: Event): Speaker {
    match e
    case Update(levels, now) => Updated(p, levels, now)
    case Ask(now) => Pruned(p, now)
  }

  function Run(events: seq<Event>): Speaker {
    if events == [] then SILENT else Step(Run(events[..|events| - 1]), events[|events| - 1])
  }

  predicate TalksAt(e: Event, s: string) { e.Update? && s in Talkers(e.levels) }

  /** The updates from `k` on, and they alone, are the current unbroken run of `s` at the speaking level. */
  ghost predicate UnbrokenFrom(events: seq<Event>, s: string, k: int) {
    && 0 <= k < |events| && TalksAt(events[k], s)
    && (forall m :: k <= m < |events| && events[m].Update? ==> TalksAt(events[m], s))
    && (forall m :: 0 <= m < k && events[m].Update? && (forall n :: m < n < k ==> events[n].Ask?) ==>
         !TalksAt(events[m], s))
  }

  lemma StepKeepsSince(p: Speaker, e: Event, s: string)
    ensures s in Step(p, e).since <==> if e.Ask? then s in p.since else TalksAt(e, s)
    ensures s in Step(p, e).since ==> Step(p, e).since[s] == SinceOf(p, s, e.now)
  {
  }

  lemma UnbrokenGoesOn(events: seq<Event>, s: string, k: int)
    requires events != [] && UnbrokenFrom(events[..|events| - 1], s, k)
    requires events[|events| - 1].Ask? || TalksAt(events[|events| - 1], s)
    ensures UnbrokenFrom(events, s, k)
  {
  }

  /** A stream not known before starts its run with this update. */
  lemma UnbrokenStarts(events: seq<Event>, s: string)
    requires events != [] && TalksAt(events[|events| - 1], s) && s !in Run(events[..|events| - 1]).since
    ensures UnbrokenFrom(events, s, |events| - 1)
  {
    var k := |events| - 1;
    forall m | 0 <= m < k && events[m].Update? && (forall i :: m < i < k ==> events[i].Ask?)
      ensures !TalksAt(events[m], s)
    {
      LastUpdateDecides(events[..k], s, m);
    }
  }

  lemma {:induction false} SinceHasItsStart(events: seq<Event>, s: string) returns (k: nat)
    requires s in Run(events).since
    ensures UnbrokenFrom(events, s, k) && Run(events).since[s] == events[k].now
  {
    var n := |events| - 1;
    var front := events[..n];
    StepKeepsSince(Run(front), events[n], s);
    hide Step, UnbrokenFrom, TalksAt;
    if s in Run(front).since {
      k := SinceHasItsStart(front, s);
      assert k < n && front[k] == events[k] by { InRange(front, s, k); }
      UnbrokenGoesOn(events, s, k);
    } else {
      k := n;
      UnbrokenStarts(events, s);
    }
  }

  lemma InRange(events: seq<Event>, s: string, k: int)
    requires UnbrokenFrom(events, s, k)
    ensures 0 <= k < |events|
  {
  }

  lemma {:induction false} LastUpdateDecides(events: seq<Event>, s: string, m: nat)
    requires m < |events| && events[m].Update? && forall i :: m < i < |events| ==> events[i].Ask?
    ensures s in Run(events).since <==> TalksAt(events[m], s)
  {
    StepKeepsSince(Run(events[..|events| - 1]), events[|events| - 1], s);
    hide Step, TalksAt;
    if m < |events| - 1 { LastUpdateDecides(events[..|events| - 1], s, m); }
  }

  lemma {:induction false} UnbrokenIsKnown(events: seq<Event>, s: string, k: int)
    requires UnbrokenFrom(events, s, k)
    ensures s in Run(events).since
  {
    var n := |events| - 1;
    if events[n].Ask? { UnbrokenIsKnown(events[..n], s, k); }
  }

  lemma UnbrokenIsOne(events: seq<Event>, s: string, j: int, k: int)
    requires UnbrokenFrom(events, s, j) && UnbrokenFrom(events, s, k)
    ensures j == k
  {
    if j < k {
      LastBefore(events, s, j, k);
    } else if k < j {
      LastBefore(events, s, k, j);
    }
  }

  lemma LastBefore(events: seq<Event>, s: string, j: nat, k: nat)
    requires j < k <= |events| && TalksAt(events[j], s)
    requires forall m :: j <= m < k && events[m].Update? ==> TalksAt(events[m], s)
    ensures exists m :: j <= m < k && TalksAt(events[m], s) && forall n :: m < n < k ==> events[n].Ask?
    decreases k
  {
    if TalksAt(events[k - 1], s) {
    } else {
      LastBefore(events, s, j, k - 1);
      var m :| j <= m < k - 1 && TalksAt(events[m], s) && forall n :: m < n < k - 1 ==> events[n].Ask?;
      assert forall n :: m < n < k ==> events[n].Ask?;
    }
  }

  /** `since` is exactly the start of each stream's current unbroken run at the speaking level. */
  lemma SinceIsTheStart(events: seq<Event>, s: string)
    ensures s in Run(events).since <==> exists k :: UnbrokenFrom(events, s, k)
    ensures forall k :: UnbrokenFrom(events, s, k) ==> s in Run(events).since && Run(events).since[s] == events[k].now
  {
    if s in Run(events).since { var k := SinceHasItsStart(events, s); }
    forall k | UnbrokenFrom(events, s, k) ensures s in Run(events).since && Run(events).since[s] == events[k].now {
      UnbrokenIsKnown(events, s, k);
      var j := SinceHasItsStart(events, s);
      UnbrokenIsOne(events, s, j, k);
    }
  }

  // ----- The spotlight -----

  lemma {:induction false} LoudestIsLoudest(p: Speaker, levels: seq<Level>, now: int)
    ensures var best := Loudest(p, levels, now);
      && best.level >= 0.0
      && (forall i :: 0 <= i < |levels| && Candidate(p, levels[i], now) ==> levels[i].level <= best.level)
      && (best != Level("", 0.0) ==> exists i :: 0 <= i < |levels| && levels[i] == best && Candidate(p, best, now))
  {
    if levels != [] {
      var n := |levels| - 1;
      var front := levels[..n];
      LoudestIsLoudest(p, front, now);
      var best := Loudest(p, front, now);
      if best != Level("", 0.0) {
        var i :| 0 <= i < n && front[i] == best && Candidate(p, best, now);
        assert levels[i] == best;
      }
      assert forall i :: 0 <= i < n ==> front[i] == levels[i];
    }
  }

  /**
   * A stream takes the spotlight only after 600 ms of unbroken speaking, as the loudest of those, and only from
   * nobody or from somebody who is not speaking in this update.
   */
  lemma SpotlightIsEarned(events: seq<Event>, levels: seq<Level>, now: int)
    ensures
      var p, all := Run(events), events + [Update(levels, now)];
      var q := Run(all);
      q.current != p.current ==>
        && (p.current == "" || p.current !in Talkers(levels))
        && SpokeLong(all, q.current, now)
        && exists i :: 0 <= i < |levels| && levels[i].stream == q.current
             && forall j :: 0 <= j < |levels| && levels[j].level >= SPEAKING_LEVEL
                            && SpokeLong(all, levels[j].stream, now) ==>
                  levels[j].level <= levels[i].level
  {
    var u := Update(levels, now);
    var p, all := Run(events), events + [u];
    assert all[..|events|] == events && all[|events|] == u;
    var q := Run(all);
    assert q == Updated(p, levels, now);
    if q.current != p.current {
      LoudestIsLoudest(p, levels, now);
      var best := Loudest(p, levels, now);
      hide Loudest;
      var i :| 0 <= i < |levels| && levels[i] == best && Candidate(p, best, now);
      CandidateSpokeLong(events, levels, now, i);
      forall j | 0 <= j < |levels| && levels[j].level >= SPEAKING_LEVEL && SpokeLong(all, levels[j].stream, now)
        ensures levels[j].level <= levels[i].level
      {
        CandidateSpokeLong(events, levels, now, j);
      }
    }
  }

  /** The stream's current unbroken run at the speaking level is 600 ms old. */
  ghost predicate SpokeLong(events: seq<Event>, s: string, now: int) {
    exists k :: UnbrokenFrom(events, s, k) && now - events[k].now >= SPEAK_FOR_MS
  }

  lemma CandidateSpokeLong(events: seq<Event>, levels: seq<Level>, now: int, i: nat)
    requires i < |levels| && levels[i].level >= SPEAKING_LEVEL
    ensures Candidate(Run(events), levels[i], now) <==> SpokeLong(events + [Update(levels, now)], levels[i].stream, now)
  {
    var all, s := events + [Update(levels, now)], levels[i].stream;
    assert all[..|events|] == events && all[|events|] == Update(levels, now);
    assert s in Talkers(levels);
    assert Run(all) == Updated(Run(events), levels, now);
    var k := SinceHasItsStart(all, s);
    SinceIsTheStart(all, s);
  }

  /** Whether the spotlight moved at event i. */
  predicate Moves(events: seq<Event>, i: nat)
    requires i < |events|
  {
    Run(events[..i + 1]).current != Run(events[..i]).current
  }

  lemma {:induction false} MoveIsRemembered(events: seq<Event>, i: nat)
    requires i < |events| && Moves(events, i)
    ensures Run(events).current != "" && Run(events).currentSince >= events[i].now
  {
    var n := |events| - 1;
    assert events[..n + 1] == events;
    if i < n {
      assert events[..n][..i] == events[..i] && events[..n][..i + 1] == events[..i + 1];
      MoveIsRemembered(events[..n], i);
    }
  }

  /** Two moves of the spotlight are at least 3000 ms apart. */
  lemma MovesAreApart(events: seq<Event>, i: nat, j: nat)
    requires i < j < |events| && Moves(events, i) && Moves(events, j)
    ensures events[j].now - events[i].now >= HOLD_MS
  {
    assert events[..j][..i] == events[..i] && events[..j][..i + 1] == events[..i + 1];
    MoveIsRemembered(events[..j], i);
    assert events[..j + 1][..j] == events[..j];
  }

  // ----- The rings -----

  /** `k` is the last update in which `s` spoke. */
  predicate SpokeLast(events: seq<Event>, s: string, k: int) {
    && 0 <= k < |events| && TalksAt(events[k], s)
    && forall m :: k < m < |events| ==> !TalksAt(events[m], s)
  }

  /** No question since event `k` came more than 500 ms after it. */
  predicate AskedInTime(events: seq<Event>, k: nat)
    requires k < |events|
  {
    forall m :: k < m < |events| && events[m].Ask? ==> events[m].now - events[k].now <= RING_MS
  }

  /** `k` is the last update in which `s` spoke, and no question since came too late for it. */
  predicate HeardLast(events: seq<Event>, s: string, k: int) {
    SpokeLast(events, s, k) && AskedInTime(events, k)
  }

  /** One event more: what it does to the last update in which `s` spoke. */
  lemma HeardLastStep(events: seq<Event>, s: string, k: int)
    requires events != []
    ensures
      var n := |events| - 1;
      HeardLast(events, s, k) <==>
        if TalksAt(events[n], s) then k == n
        else HeardLast(events[..n], s, k) && (events[n].Ask? ==> events[n].now - events[k].now <= RING_MS)
  {
  }

  lemma {:induction false} HeardIsHeardLast(events: seq<Event>, s: string)
    ensures s in Run(events).heard <==> exists k :: HeardLast(events, s, k)
    ensures forall k :: HeardLast(events, s, k) ==> s in Run(events).heard && Run(events).heard[s] == events[k].now
  {
    if events != [] {
      var n := |events| - 1;
      HeardIsHeardLast(events[..n], s);
      StepHears(Run(events[..n]), events[n], s);
      forall k ensures HeardLast(events, s, k) <==>
        if TalksAt(events[n], s) then k == n
        else HeardLast(events[..n], s, k) && (events[n].Ask? ==> events[n].now - events[k].now <= RING_MS)
      {
        HeardLastStep(events, s, k);
      }
      forall k | HeardLast(events[..n], s, k) ensures 0 <= k < n && events[..n][k] == events[k] {}
      hide Step, TalksAt, HeardLast;
    }
  }

  lemma StepHears(p: Speaker, e: Event, s: string)
    ensures TalksAt(e, s) ==> s in Step(p, e).heard && Step(p, e).heard[s] == e.now
    ensures !TalksAt(e, s) ==>
      && (s in Step(p, e).heard <==> s in p.heard && (e.Ask? ==> e.now - p.heard[s] <= RING_MS))
      && (s in Step(p, e).heard ==> Step(p, e).heard[s] == p.heard[s])
  {
  }

  /** Over every run, whatever the clock does: who has a ring. */
  lemma RingExactly(events: seq<Event>, now: int, s: string)
    ensures s in Ring(Run(events), now) <==> exists k :: HeardLast(events, s, k) && now - events[k].now <= RING_MS
  {
    HeardIsHeardLast(events, s);
  }

  /** Time does not step back. */
  ghost predicate Steady(events: seq<Event>, now: int) {
    && (forall i, j :: 0 <= i <= j < |events| ==> events[i].now <= events[j].now)
    && (forall i :: 0 <= i < |events| ==> events[i].now <= now)
  }

  /** `s` was at the speaking level in some update within the last 500 ms. */
  ghost predicate HeardWithin(events: seq<Event>, now: int, s: string) {
    exists k :: 0 <= k < |events| && TalksAt(events[k], s) && now - events[k].now <= RING_MS
  }

  /**
   * Whatever the clock does: who has a ring was heard within 500 ms; and who was heard has a ring if and only if the
   * last of these updates is within 500 ms too and no question since came more than 500 ms after it.
   */
  lemma RingIffHeardInTime(events: seq<Event>, now: int, s: string)
    ensures s in Ring(Run(events), now) ==> HeardWithin(events, now, s)
    ensures HeardWithin(events, now, s) ==> exists k :: SpokeLast(events, s, k)
    ensures forall k :: SpokeLast(events, s, k) ==>
      (s in Ring(Run(events), now) <==> now - events[k].now <= RING_MS && AskedInTime(events, k))
  {
    RingExactly(events, now, s);
    hide Run, TalksAt;
    if HeardWithin(events, now, s) {
      var k :| 0 <= k < |events| && TalksAt(events[k], s) && now - events[k].now <= RING_MS;
      var last := LastTalk(events, s, k);
      assert SpokeLast(events, s, last);
    }
    forall j, k | SpokeLast(events, s, j) && SpokeLast(events, s, k) ensures j == k {}
  }

  /** When time does not step back the rings are exactly the streams heard within 500 ms, however questions prune. */
  lemma RingIsWhoWasHeard(events: seq<Event>, now: int, s: string)
    requires Steady(events, now)
    ensures s in Ring(Run(events), now) <==> HeardWithin(events, now, s)
  {
    RingIffHeardInTime(events, now, s);
    hide Run, TalksAt;
    if HeardWithin(events, now, s) {
      var j :| 0 <= j < |events| && TalksAt(events[j], s) && now - events[j].now <= RING_MS;
      var k :| SpokeLast(events, s, k);
      assert j <= k;
    }
  }

  lemma LastTalk(events: seq<Event>, s: string, k: nat) returns (last: nat)
    requires k < |events| && TalksAt(events[k], s)
    ensures k <= last < |events| && TalksAt(events[last], s)
    ensures forall m :: last < m < |events| ==> !TalksAt(events[m], s)
  {
    last := |events| - 1;
    while !TalksAt(events[last], s)
      decreases last
      invariant k <= last < |events| && forall m :: last < m < |events| ==> !TalksAt(events[m], s)
    {
      last := last - 1;
    }
  }

  /** With a clock that steps back a ring is lost: a question from the future forgot the stream. */
  lemma ClockStepLosesARing()
    ensures exists events, now, s :: HeardWithin(events, now, s) && s !in Ring(Run(events), now)
  {
    var u, q := Update([Level("a", 1.0)], 1000), Ask(2000);
    var events := [u, q];
    assert u.levels[0].stream in Talkers(u.levels);
    assert TalksAt(events[0], "a") && HeardWithin(events, 1000, "a");
    RingExactly(events, 1000, "a");
    assert !TalksAt(events[1], "a") && events[1].Ask? && events[1].now - events[0].now > RING_MS;
  }
}
