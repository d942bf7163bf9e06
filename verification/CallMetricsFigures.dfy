/**
 * The figures of a call's summary: what its media ticks add up to, and that the summary of every run says exactly
 * that.
 */
module CallMetricsFigures {
  import opened CallMetrics
  import opened CallMetricsRuns

  /** The first tick connects the call; the others follow. */
  function MediaOf(trace: seq<Sample>): Media
    requires trace != []
  {
    var n := |trace| - 1;
    var s := trace[n];
    if n == 0 then Counted(Started(Based(NO_MEDIA, s.tick.health), s.tick), s.tick, s.now, s.now)
    else Counted(MediaOf(trace[..n]), s.tick, s.now, trace[0].now)
  }

  /** The first tick connects the call: the tracker takes a call for connected from a time other than 0 on. */
  predicate Connects(trace: seq<Sample>) {
    trace != [] ==> trace[0].tick.connected && trace[0].now != 0
  }

  ghost predicate Steady(trace: seq<Sample>) {
    forall m, n :: 0 <= m <= n < |trace| ==> trace[m].now <= trace[n].now
  }

  // ----- Time -----

  lemma {:induction false} SumUpdated(s: seq<int>, i: nat, v: int)
    requires i < |s|
    ensures Sum(s[i := v]) == Sum(s) - s[i] + v
  {
    var n := |s| - 1;
    if i == n {
      assert s[i := v][..n] == s[..n];
    } else {
      assert s[i := v][..n] == s[..n][i := v];
      SumUpdated(s[..n], i, v);
    }
  }

  /** The time the trace spent at quality q: each tick accounts for the time since the one before it. */
  function TimeIn(trace: seq<Sample>, q: Quality): int {
    var n := |trace| - 1;
    if n <= 0 then 0
    else TimeIn(trace[..n], q) + if trace[n].tick.quality == q then trace[n].now - trace[n - 1].now else 0
  }

  /** The time at quality q that counts for nothing: a tick at time 0 is taken for none, and the next has no time. */
  function LostIn(trace: seq<Sample>, q: Quality): int {
    var n := |trace| - 1;
    if n <= 0 then 0
    else LostIn(trace[..n], q) + if trace[n - 1].now == 0 && trace[n].tick.quality == q then trace[n].now else 0
  }

  /** The sum of the times of all ticks that follow a tick at time 0. */
  function Lost(trace: seq<Sample>): int {
    var n := |trace| - 1;
    if n <= 0 then 0 else Lost(trace[..n]) + if trace[n - 1].now == 0 then trace[n].now else 0
  }

  lemma TimeStep(trace: seq<Sample>)
    requires |trace| > 1
    ensures var n := |trace| - 1;
      MediaOf(trace).time == Timed(MediaOf(trace[..n]).time, trace[n].tick.quality, trace[n].now)
  {
  }

  lemma TimeStarts(trace: seq<Sample>)
    requires |trace| == 1
    ensures MediaOf(trace).time == Time(trace[0].now, [0, 0, 0, 0, 0, 0], 0)
  {
    assert NO_MEDIA.time.quality[trace[0].tick.quality := 0] == NO_MEDIA.time.quality;
  }

  lemma LastTickIs(trace: seq<Sample>)
    requires trace != []
    ensures MediaOf(trace).time.lastTick == trace[|trace| - 1].now
  {
  }

  /** Each bucket is the time at its quality, but for what is lost. */
  lemma {:induction false} BucketIsTimeIn(trace: seq<Sample>, q: Quality)
    requires trace != []
    ensures MediaOf(trace).time.quality[q] == TimeIn(trace, q) - LostIn(trace, q)
    ensures MediaOf(trace).time.noAudio == TimeIn(trace, NO_AUDIO) - LostIn(trace, NO_AUDIO)
  {
    var n := |trace| - 1;
    if n == 0 {
      TimeStarts(trace);
    } else {
      BucketIsTimeIn(trace[..n], q);
      TimeStep(trace);
      LastTickIs(trace[..n]);
      hide MediaOf;
    }
  }

  /** The bucket of one more tick takes the time since the last one, unless that came at time 0. */
  lemma OneMoreTick(trace: seq<Sample>, s: Sample)
    requires trace != []
    ensures var t, u := MediaOf(trace).time, MediaOf(trace + [s]).time;
      u.lastTick == s.now && Sum(u.quality) == Sum(t.quality) + if t.lastTick != 0 then s.now - t.lastTick else 0
  {
    var t := MediaOf(trace).time;
    assert (trace + [s])[..|trace|] == trace;
    TimeStep(trace + [s]);
    hide MediaOf, Sum;
    var dt := if t.lastTick != 0 then s.now - t.lastTick else 0;
    SumUpdated(t.quality, s.tick.quality, t.quality[s.tick.quality] + dt);
  }

  /** The six buckets add up to the time since the call connected, but for what is lost. */
  lemma {:induction false} TimeIsCounted(trace: seq<Sample>)
    requires trace != []
    ensures Sum(MediaOf(trace).time.quality) == trace[|trace| - 1].now - trace[0].now - Lost(trace)
  {
    var n := |trace| - 1;
    if n == 0 {
      SumOfZeros(6);
      assert seq(6, _ => 0) == [0, 0, 0, 0, 0, 0];
      TimeStarts(trace);
    } else {
      TimeIsCounted(trace[..n]);
      LastTickIs(trace[..n]);
      hide MediaOf, Sum;
      OneMoreTick(trace[..n], trace[n]);
      assert trace[..n] + [trace[n]] == trace;
    }
  }

  /** They add up to all of it if and only if nothing is lost; without a tick at time 0 nothing is. */
  lemma TimeIsConserved(trace: seq<Sample>)
    requires trace != []
    ensures Sum(MediaOf(trace).time.quality) == trace[|trace| - 1].now - trace[0].now <==> Lost(trace) == 0
    ensures (forall n :: 0 <= n < |trace| - 1 ==> trace[n].now != 0) ==> Lost(trace) == 0
  {
    TimeIsCounted(trace);
    if forall n :: 0 <= n < |trace| - 1 ==> trace[n].now != 0 {
      NoZeroNoLoss(trace);
    }
  }

  lemma {:induction false} NoZeroNoLoss(trace: seq<Sample>)
    requires forall n :: 0 <= n < |trace| - 1 ==> trace[n].now != 0
    ensures Lost(trace) == 0
  {
    if |trace| > 1 { NoZeroNoLoss(trace[..|trace| - 1]); }
  }

  /** Time that does not step back: a tick at 0 loses time exactly when a later tick does not come at 0 too. */
  lemma {:induction false} LostWhenPastZero(trace: seq<Sample>)
    requires Steady(trace)
    ensures Lost(trace) >= 0
    ensures Lost(trace) == 0 <==>
      (forall m :: 0 <= m < |trace| && trace[m].now == 0 ==> trace[|trace| - 1].now == 0)
  {
    var n := |trace| - 1;
    if n > 0 {
      var front := trace[..n];
      LostWhenPastZero(front);
      assert forall m :: 0 <= m < n ==> front[m] == trace[m];
    }
  }

  /** A clock that steps back to 0 loses the half second after it. */
  lemma ATickAtZeroLosesTime(a: MediaTick, b: MediaTick, c: MediaTick)
    ensures var t := [Sample(a, 1000), Sample(b, 0), Sample(c, 500)];
      Lost(t) == 500 && t[2].now - t[0].now == -500 && Sum(MediaOf(t).time.quality) == -1000
  {
    var t := [Sample(a, 1000), Sample(b, 0), Sample(c, 500)];
    TimeIsCounted(t);
    hide MediaOf, Sum;
    assert t[..2][..1] == t[..1];
    assert Lost(t[..1]) == 0 && Lost(t[..2]) == 0;
  }

  lemma {:induction false} SumOfZeros(n: nat)
    ensures Sum(seq(n, _ => 0)) == 0
  {
    if n > 0 {
      assert seq(n, _ => 0)[..n - 1] == seq(n - 1, _ => 0);
      SumOfZeros(n - 1);
    }
  }

  lemma {:induction false} BucketsArePositive(trace: seq<Sample>, q: Quality)
    requires trace != [] && Steady(trace)
    ensures MediaOf(trace).time.quality[q] >= 0
  {
    var n := |trace| - 1;
    if n == 0 {
      TimeStarts(trace);
    } else {
      BucketsArePositive(trace[..n], q);
      TimeStep(trace);
      LastTickIs(trace[..n]);
      hide MediaOf;
    }
  }

  // ----- Percentages -----

  lemma PercentIsNear(ms: int, total: int)
    requires total > 0
    ensures
      var p := Percent(ms, total);
      total * p - Count(ms < 0) * (total - 1) <= 100 * ms <= total * p + Count(ms >= 0) * (total - 1)
  {
    if ms >= 0 {
      assert ms * 100 == total * (ms * 100 / total) + ms * 100 % total;
    } else {
      assert -ms * 100 == total * (-ms * 100 / total) + -ms * 100 % total;
    }
  }

  /** How many times are negative: a clock that steps back can make a bucket so. */
  function Negatives(ms: seq<int>): (n: nat)
    ensures n <= |ms| && (n == 0 <==> forall i :: 0 <= i < |ms| ==> ms[i] >= 0)
  {
    if ms == [] then 0 else Negatives(ms[..|ms| - 1]) + Count(ms[|ms| - 1] < 0)
  }

  lemma {:induction false} AllNegative(ms: seq<int>)
    requires Negatives(ms) == |ms|
    ensures Sum(ms) <= 0
  {
    if ms != [] { AllNegative(ms[..|ms| - 1]); }
  }

  lemma SumStep(s: seq<int>)
    requires s != []
    ensures Sum(s) == Sum(s[..|s| - 1]) + s[|s| - 1]
  {
  }

  /** Each percentage truncates less than one point, a negative one upward. */
  lemma {:induction false} PercentsAreNear(ms: seq<int>, total: int)
    requires total > 0
    ensures var sum := Sum(seq(|ms|, i requires 0 <= i < |ms| => Percent(ms[i], total)));
      && total * sum - Negatives(ms) * (total - 1) <= 100 * Sum(ms)
      && 100 * Sum(ms) <= total * sum + (|ms| - Negatives(ms)) * (total - 1)
  {
    var percents := seq(|ms|, i requires 0 <= i < |ms| => Percent(ms[i], total));
    if ms != [] {
      var n := |ms| - 1;
      PercentsAreNear(ms[..n], total);
      var front := seq(n, i requires 0 <= i < n => Percent(ms[..n][i], total));
      assert percents[..n] == front;
      PercentIsNear(ms[n], total);
      var k := Negatives(ms[..n]);
      assert Negatives(ms) == k + Count(ms[n] < 0);
      hide Percent, Sum, Negatives;
      SumStep(percents);
      SumStep(ms);
      OneMoreIsNear(total, Sum(front), percents[n], Sum(ms[..n]), ms[n], k, n - k);
    }
  }

  lemma OneMoreIsNear(total: int, sum: int, p: int, all: int, ms: int, below: int, above: int)
    requires total * sum - below * (total - 1) <= 100 * all <= total * sum + above * (total - 1)
    requires total * p - Count(ms < 0) * (total - 1) <= 100 * ms <= total * p + Count(ms >= 0) * (total - 1)
    ensures total * (sum + p) - (below + Count(ms < 0)) * (total - 1) <= 100 * (all + ms)
    ensures 100 * (all + ms) <= total * (sum + p) + (above + Count(ms >= 0)) * (total - 1)
  {
    Distributes(total, sum, p);
    Distributes(total - 1, below, Count(ms < 0));
    Distributes(total - 1, above, Count(ms >= 0));
  }

  lemma Distributes(a: int, b: int, c: int)
    ensures a * (b + c) == a * b + a * c
  {
  }

  lemma Scaled(a: int, b: int, c: int)
    requires a >= 0 && b <= c
    ensures a * b <= a * c
  {
  }

  lemma Between(total: int, sum: int, n: nat)
    requires total > 0 && n < 6
    requires total * sum - n * (total - 1) <= 100 * total <= total * sum + (6 - n) * (total - 1)
    ensures 95 + n <= sum <= if n == 0 then 100 else 99 + n
  {
    Distributes(total, 100, n);
    Distributes(total, 94, n);
    if sum > 100 && n == 0 {
      Scaled(total, 101, sum);
    } else if sum > 99 + n {
      Scaled(total, 100 + n, sum);
    } else if sum < 95 + n {
      Scaled(total, sum, 94 + n);
    }
  }

  /**
   * The six percentages add up to 95 to 100 when any time passed; with n negative buckets, of a clock that steps back,
   * to 95 + n to 99 + n.
   */
  lemma PercentsAddUp(quality: Buckets)
    requires Sum(quality) > 0
    ensures
      var sum, n := Sum(Percents(quality)), Negatives(quality);
      n <= 5 && 95 + n <= sum <= if n == 0 then 100 else 99 + n
  {
    var total := Sum(quality);
    if Negatives(quality) == 6 { AllNegative(quality); }
    PercentsAreNear(quality, total);
    assert Percents(quality) == seq(|quality|, i requires 0 <= i < |quality| => Percent(quality[i], total));
    hide Sum, Percents, Percent, Negatives;
    Between(total, Sum(Percents(quality)), Negatives(quality));
  }

  lemma NoneIsNegative(trace: seq<Sample>)
    requires trace != [] && Steady(trace)
    ensures Negatives(MediaOf(trace).time.quality) == 0
  {
    forall q: Quality ensures MediaOf(trace).time.quality[q] >= 0 { BucketsArePositive(trace, q); }
    hide MediaOf, Steady, Negatives;
  }

  // ----- Reconnects, jitter, first frames -----

  /** Falling edges of the connection. */
  function Falls(trace: seq<Sample>): nat {
    var n := |trace| - 1;
    if n <= 0 then 0 else Falls(trace[..n]) + Count(trace[n - 1].tick.connected && !trace[n].tick.connected)
  }

  lemma {:induction false} ReconnectsAreFalls(trace: seq<Sample>)
    requires trace != [] && trace[0].tick.connected
    ensures MediaOf(trace).link.reconnects == Falls(trace)
    ensures MediaOf(trace).link.wasConnected == trace[|trace| - 1].tick.connected
  {
    if |trace| > 1 { ReconnectsAreFalls(trace[..|trace| - 1]); }
  }

  lemma {:induction false} JitterIsBounded(trace: seq<Sample>)
    requires trace != []
    ensures var j := MediaOf(trace).jitter;
      && j.samples == |trace| && j.max >= 0 && j.sum <= j.samples * j.max
      && forall n :: 0 <= n < |trace| ==> trace[n].tick.health.jitterTarget <= j.max
  {
    var n := |trace| - 1;
    if n > 0 {
      JitterIsBounded(trace[..n]);
      var j, k := MediaOf(trace[..n]).jitter, MediaOf(trace).jitter;
      var target := trace[n].tick.health.jitterTarget;
      assert k == Jittered(j, target);
      assert forall m :: 0 <= m < n ==> trace[m] == trace[..n][m];
      hide MediaOf;
      Grows(j.samples, j.max, k.max, target, j.sum);
    }
  }

  lemma Grows(samples: nat, max: int, more: int, target: int, sum: int)
    requires sum <= samples * max && max <= more && target <= more
    ensures sum + target <= (samples + 1) * more
  {
    assert samples * max <= samples * more;
  }

  lemma QuotientBelow(a: int, b: int, c: int)
    requires b > 0 && c >= 0 && a <= b * c
    ensures Quotient(a, b) <= c
  {
    var q := a / b;
    assert b * q <= a;
    if a >= 0 && q > c { Scaled(b, c + 1, q); }
  }

  /** The average jitter target never exceeds the maximum. */
  lemma AverageIsBelowTheMaximum(trace: seq<Sample>)
    requires trace != []
    ensures Average(MediaOf(trace).jitter) <= MediaOf(trace).jitter.max
  {
    JitterIsBounded(trace);
    var j := MediaOf(trace).jitter;
    hide MediaOf, Quotient;
    QuotientBelow(j.sum, j.samples, j.max);
  }

  /** Whether sample n is the first with audio received since the call connected. */
  ghost predicate FirstAudioAt(trace: seq<Sample>, n: int) {
    && 0 <= n < |trace| && HasAudio(trace, n)
    && forall m :: 0 <= m < n ==> !HasAudio(trace, m)
  }

  predicate HasAudio(trace: seq<Sample>, n: nat)
    requires n < |trace|
  {
    Delta(trace[n].tick.health.rxAudio, trace[0].tick.health.rxAudio) > 0
  }

  lemma FirstsStep(trace: seq<Sample>)
    requires |trace| > 1
    ensures var n := |trace| - 1;
      var m, more := MediaOf(trace[..n]), MediaOf(trace);
      && more.samples.base == m.samples.base
      && more.firsts.audio == FirstAt(m.firsts.audio, Delta(trace[n].tick.health.rxAudio, m.samples.base.rxAudio),
                                      trace[n].now, trace[0].now)
  {
    hide Delta, FirstAt, Timed, Linked, Jittered;
  }

  lemma FirstsStart(trace: seq<Sample>)
    requires |trace| == 1
    ensures MediaOf(trace).samples.base == trace[0].tick.health && !HasAudio(trace, 0)
    ensures MediaOf(trace).firsts.audio == -1
  {
  }

  /** Audio was received at sample n, and not before the call connected. */
  predicate InTime(trace: seq<Sample>, n: nat)
    requires n < |trace|
  {
    HasAudio(trace, n) && trace[n].now >= trace[0].now
  }

  /** The sample that counts: the first with audio in time; without any such, the last one with audio. */
  ghost predicate Counts(trace: seq<Sample>, n: int) {
    && 0 <= n < |trace| && HasAudio(trace, n)
    && if InTime(trace, n) then forall m :: 0 <= m < n ==> !InTime(trace, m)
       else
         && (forall m :: 0 <= m < |trace| ==> !InTime(trace, m))
         && (forall m :: n < m < |trace| ==> !HasAudio(trace, m))
  }

  /** Whatever the clock does: first_audio_ms is the time of the sample that counts, or -1 without any audio. */
  lemma {:induction false} FirstAudioExactly(trace: seq<Sample>)
    requires trace != []
    ensures MediaOf(trace).samples.base == trace[0].tick.health
    ensures
      var first := MediaOf(trace).firsts.audio;
      if forall n :: 0 <= n < |trace| ==> !HasAudio(trace, n) then first == -1
      else exists n :: Counts(trace, n) && first == trace[n].now - trace[0].now
  {
    hide MediaOf;
    var n := |trace| - 1;
    if n == 0 {
      FirstsStart(trace);
    } else {
      var front := trace[..n];
      FirstAudioExactly(front);
      FirstsStep(trace);
      var was, first := MediaOf(front).firsts.audio, MediaOf(trace).firsts.audio;
      hide Delta;
      assert forall m :: 0 <= m < n ==>
        (HasAudio(front, m) <==> HasAudio(trace, m)) && (InTime(front, m) <==> InTime(trace, m));
      if k :| Counts(front, k) && was == front[k].now - front[0].now {
        if was >= 0 || !HasAudio(trace, n) {
          assert Counts(trace, k);
        } else {
          assert Counts(trace, n);
        }
      } else if HasAudio(trace, n) {
        assert Counts(trace, n);
      }
    }
  }

  /** Whether sample n is the last with audio. */
  ghost predicate LastAudioAt(trace: seq<Sample>, n: int) {
    && 0 <= n < |trace| && HasAudio(trace, n)
    && forall m :: n < m < |trace| ==> !HasAudio(trace, m)
  }

  /** No sample with audio came in time, and the last one came when sample n did. */
  ghost predicate OnlyBefore(trace: seq<Sample>, n: nat)
    requires n < |trace|
  {
    && (forall m :: 0 <= m < |trace| ==> !InTime(trace, m))
    && (forall m :: LastAudioAt(trace, m) ==> trace[m].now == trace[n].now)
  }

  /**
   * first_audio_ms is the time of the first sample with audio if and only if that one is not before connecting, or
   * every one is and the last came at the same time. When time does not step back it always is.
   */
  lemma FirstAudioIsFirst(trace: seq<Sample>, n: nat)
    requires FirstAudioAt(trace, n)
    ensures MediaOf(trace).firsts.audio == trace[n].now - trace[0].now <==> InTime(trace, n) || OnlyBefore(trace, n)
    ensures Steady(trace) ==> InTime(trace, n)
  {
    FirstAudioExactly(trace);
    hide MediaOf, HasAudio;
    var k :| Counts(trace, k) && MediaOf(trace).firsts.audio == trace[k].now - trace[0].now;
    if InTime(trace, k) {
      assert !OnlyBefore(trace, n);
      assert InTime(trace, n) ==> k == n;
    } else {
      assert LastAudioAt(trace, k);
      LastIsOne(trace, k);
    }
  }

  lemma LastIsOne(trace: seq<Sample>, k: nat)
    requires LastAudioAt(trace, k)
    ensures forall m :: LastAudioAt(trace, m) ==> m == k
  {
    hide HasAudio;
  }

  // ----- The summary of a run -----

  /** Before the call connects its media ticks only set the base. */
  predicate Fresh(m: Media) {
    m == NO_MEDIA.(samples := NO_MEDIA.samples.(base := m.samples.base, haveBase := m.samples.haveBase))
  }

  lemma FreshStarts(m: Media, s: Sample)
    requires Fresh(m)
    ensures Counted(Started(Based(m, s.tick.health), s.tick), s.tick, s.now, s.now) == MediaOf([s])
    ensures Fresh(Based(m, s.tick.health))
  {
  }

  lemma StepMedia(c: Call, e: Event)
    requires c.head.id != "" && !Ends(c, e)
    ensures
      var m := Step(c, e).call.media;
      if !(e.Heard? && e.id == c.head.id) then m == c.media
      else if c.head.connected != 0 then
        m == Counted(Based(c.media, e.tick.health), e.tick, e.now, c.head.connected)
      else if !e.tick.connected then m == Based(c.media, e.tick.health)
      else e.now != 0 ==> m == Counted(Started(Based(c.media, e.tick.health), e.tick), e.tick, e.now, e.now)
  {
  }

  lemma {:induction false} BaseIsSet(trace: seq<Sample>)
    requires trace != []
    ensures MediaOf(trace).samples.haveBase
  {
    if |trace| > 1 { BaseIsSet(trace[..|trace| - 1]); }
  }

  ghost predicate Tallies(c: Call, t: seq<Sample>) {
    if t == [] then Fresh(c.media) && c.head.connected == 0
    else c.media == MediaOf(t) && c.head.connected == t[0].now
  }

  lemma TalliesOn(c: Call, t: seq<Sample>, e: Event)
    requires c.head.id != "" && !Ends(c, e) && Tallies(c, t) && Connects(Traced(t, e, c.head.id))
    ensures Tallies(Step(c, e).call, Traced(t, e, c.head.id))
  {
    var more := Traced(t, e, c.head.id);
    StepMedia(c, e);
    StepInSpan(c, e);
    hide Step, Setups, Summaries, Stalls, Ends;
    if more != t {
      assert more[..|t|] == t && more[|t|] == Sample(e.tick, e.now);
      if t == [] {
        FreshStarts(c.media, Sample(e.tick, e.now));
      } else {
        assert t[0] == more[0];
        BaseIsSet(t);
      }
    } else if e.Heard? && e.id == c.head.id {
      FreshStarts(c.media, Sample(e.tick, e.now));
    }
  }

  lemma SpanStartsFresh(events: seq<Event>, i: nat)
    requires Span(events, i, i + 1)
    ensures Tallies(CallAt(events, i + 1), Trace(events, events[i].id, i, i + 1))
  {
  }

  lemma TraceStep(events: seq<Event>, id: string, i: nat, k: nat)
    requires i + 1 < k <= |events|
    ensures var t, more := Trace(events, id, i, k - 1), Trace(events, id, i, k);
      more == Traced(t, events[k - 1], id) && (Connects(more) ==> Connects(t))
  {
    var t, more := Trace(events, id, i, k - 1), Trace(events, id, i, k);
    assert forall n :: 0 <= n < |t| ==> t[n] == more[n];
  }

  /** The tracked call's media is that of its trace. */
  lemma {:induction false} SpanMedia(events: seq<Event>, i: nat, k: nat)
    requires Span(events, i, k) && Connects(Trace(events, events[i].id, i, k))
    ensures Tallies(CallAt(events, k), Trace(events, events[i].id, i, k))
  {
    hide Step, Tallies, Connects, Traced, Trace;
    if k > i + 1 {
      assert !EndsAt(events, k - 1);
      hide Ends;
      TraceStep(events, events[i].id, i, k);
      SpanMedia(events, i, k - 1);
      SpanId(events, i, k - 1);
      TalliesOn(CallAt(events, k - 1), Trace(events, events[i].id, i, k - 1), events[k - 1]);
    } else {
      SpanStartsFresh(events, i);
    }
  }

  lemma {:induction false} TraceConnects(events: seq<Event>, id: string, i: nat, k: nat)
    requires k <= |events|
    ensures var t := Trace(events, id, i, k); t != [] ==> t[0].tick.connected
  {
    if k > i + 1 { TraceConnects(events, id, i, k - 1); }
  }

  /** All of a trace's figures. */
  lemma FiguresAddUp(t: seq<Sample>)
    requires t != [] && t[0].tick.connected
    ensures
      var m, took := MediaOf(t), t[|t| - 1].now - t[0].now - Lost(t);
      var sum, n := Sum(Percents(m.time.quality)), Negatives(m.time.quality);
      && Sum(m.time.quality) == took
      && (forall q: Quality :: m.time.quality[q] == TimeIn(t, q) - LostIn(t, q))
      && m.time.noAudio == TimeIn(t, NO_AUDIO) - LostIn(t, NO_AUDIO)
      && (took > 0 ==> n <= 5 && 95 + n <= sum <= if n == 0 then 100 else 99 + n)
      && (Steady(t) ==> n == 0)
      && m.link.reconnects == Falls(t) && Average(m.jitter) <= m.jitter.max
  {
    var m := MediaOf(t);
    hide TimeIn, LostIn, Lost, MediaOf, Sum, Percents, Average, Negatives, Steady, Falls;
    TimeIsCounted(t);
    forall q: Quality ensures m.time.quality[q] == TimeIn(t, q) - LostIn(t, q) {
      BucketIsTimeIn(t, q);
    }
    BucketIsTimeIn(t, NO_AUDIO);
    ReconnectsAreFalls(t);
    AverageIsBelowTheMaximum(t);
    if Sum(m.time.quality) > 0 { PercentsAddUp(m.time.quality); }
    if Steady(t) { NoneIsNegative(t); }
  }

  /** The last line of a call that connected tells the media of its trace. */
  lemma SummaryIs(events: seq<Event>, i: nat, j: nat)
    requires j < |events| && Span(events, i, j) && EndsAt(events, j)
    requires !PlacedAgain(events[j], events[i].id)
    requires var t := Trace(events, events[i].id, i, j); t != [] && t[0].now != 0
    ensures
      var t, lines := Trace(events, events[i].id, i, j), Lines(events, i, j + 1);
      && t[0].tick.connected && lines != [] && lines[|lines| - 1].Summary?
      && var s := lines[|lines| - 1];
      && s.call == events[i].id && s.media == MediaOf(t) && s.percents == Percents(s.media.time.quality)
      && s.jbAvg == Average(s.media.jitter) && s.load.stalls == Stalls(lines)
  {
    var c, e := CallAt(events, j), events[j];
    TraceConnects(events, events[i].id, i, j);
    SpanState(events, i, j);
    SpanMedia(events, i, j);
    LastLineIs(c, e);
    LinesStep(events, i, j);
    CountsAdd(Lines(events, i, j), Step(c, e).lines);
    CountsOfOne(EndLine(c, c.head.lastSeen, e.thermal));
    hide Step, Lines, Setups, Summaries, Stalls, CallAt, Trace, Ends, MediaOf, Percents, Average;
  }

  /**
   * The summary of a call that connected, at a time other than 0: its quality times add up to the time from
   * connecting to the last media tick, less what follows ticks at time 0; its reconnects are the falling edges of the
   * connection, its average jitter target is at most the maximum, its stalls are the stall lines of the call. When any
   * time was counted its percentages add up to 95 to 100, with n negative buckets to 95 + n to 99 + n; when time does
   * not step back none is negative.
   */
  lemma SummaryAddsUp(events: seq<Event>, i: nat, j: nat)
    requires j < |events| && Span(events, i, j) && EndsAt(events, j)
    requires !PlacedAgain(events[j], events[i].id)
    requires var t := Trace(events, events[i].id, i, j); t != [] && t[0].now != 0
    ensures
      var t, lines := Trace(events, events[i].id, i, j), Lines(events, i, j + 1);
      var took := t[|t| - 1].now - t[0].now - Lost(t);
      && lines != [] && lines[|lines| - 1].Summary?
      && var s := lines[|lines| - 1];
      && s.call == events[i].id && s.media == MediaOf(t)
      && Sum(s.media.time.quality) == took
      && (forall q: Quality :: s.media.time.quality[q] == TimeIn(t, q) - LostIn(t, q))
      && s.media.time.noAudio == TimeIn(t, NO_AUDIO) - LostIn(t, NO_AUDIO)
      && (took > 0 ==>
        var n := Negatives(s.media.time.quality);
        n <= 5 && 95 + n <= Sum(s.percents) <= if n == 0 then 100 else 99 + n)
      && (Steady(t) ==> Negatives(s.media.time.quality) == 0)
      && s.media.link.reconnects == Falls(t)
      && s.jbAvg <= s.media.jitter.max
      && s.load.stalls == Stalls(lines)
  {
    var t := Trace(events, events[i].id, i, j);
    hide Step, Lines, Stalls, Trace, Ends, Span;
    hide TimeIn, LostIn, Lost, MediaOf, Sum, Percents, Average, Negatives, Falls, Steady;
    SummaryIs(events, i, j);
    FiguresAddUp(t);
  }

  // ----- What the screen drew -----

  /** The frames drawn after event i and before event k. */
  function FramesOf(events: seq<Event>, i: nat, k: nat): (frames: seq<Event>)
    requires k <= |events|
    ensures forall n :: 0 <= n < |frames| ==> frames[n].Frame?
  {
    if k <= i + 1 then []
    else if events[k - 1].Frame? then FramesOf(events, i, k - 1) + [events[k - 1]]
    else FramesOf(events, i, k - 1)
  }

  function TilesOf(frames: seq<Event>): Tiles
    requires forall n :: 0 <= n < |frames| ==> frames[n].Frame?
  {
    if frames == [] then NO_TILES else Framed(TilesOf(frames[..|frames| - 1]), frames[|frames| - 1])
  }

  function IsOn(e: Event, self: bool): bool
    requires e.Frame?
  {
    if self then e.selfOn else e.peerOn
  }

  /** The time between frames that both show the tile. */
  function ShownTime(frames: seq<Event>, self: bool): int
    requires forall n :: 0 <= n < |frames| ==> frames[n].Frame?
  {
    var n := |frames| - 1;
    if n <= 0 then 0
    else
      ShownTime(frames[..n], self)
        + if IsOn(frames[n - 1], self) && IsOn(frames[n], self) then frames[n].now - frames[n - 1].now else 0
  }

  lemma {:induction false} TileTimesAddUp(frames: seq<Event>)
    requires forall n :: 0 <= n < |frames| ==> frames[n].Frame? && frames[n].now > 0
    ensures TilesOf(frames).selfMs == ShownTime(frames, true) && TilesOf(frames).peerMs == ShownTime(frames, false)
    ensures frames != [] ==> TilesOf(frames).lastFrame == frames[|frames| - 1].now
    ensures TilesOf(frames).selfShown <= |frames| && TilesOf(frames).peerShown <= |frames|
    ensures frames != [] ==> TilesOf(frames).selfOn == frames[|frames| - 1].selfOn
    ensures frames != [] ==> TilesOf(frames).peerOn == frames[|frames| - 1].peerOn
  {
    if frames != [] { TileTimesAddUp(frames[..|frames| - 1]); }
  }

  lemma {:induction false} ShownTimeIsBounded(frames: seq<Event>, self: bool)
    requires frames != [] && forall n :: 0 <= n < |frames| ==> frames[n].Frame?
    requires forall m, n :: 0 <= m <= n < |frames| ==> frames[m].now <= frames[n].now
    ensures 0 <= ShownTime(frames, self) <= frames[|frames| - 1].now - frames[0].now
  {
    if |frames| > 1 { ShownTimeIsBounded(frames[..|frames| - 1], self); }
  }

  lemma StepTiles(c: Call, e: Event)
    requires c.head.id != "" && !Ends(c, e)
    ensures Step(c, e).call.tiles == if e.Frame? then Framed(c.tiles, e) else c.tiles
  {
  }

  lemma SpanStartsBare(events: seq<Event>, i: nat)
    requires Span(events, i, i + 1)
    ensures CallAt(events, i + 1).tiles == NO_TILES
  {
  }

  /** The tracked call's tiles are those of the frames drawn since it began. */
  lemma {:induction false} SpanTiles(events: seq<Event>, i: nat, k: nat)
    requires Span(events, i, k)
    ensures CallAt(events, k).tiles == TilesOf(FramesOf(events, i, k))
  {
    hide Step, Framed;
    if k > i + 1 {
      assert !EndsAt(events, k - 1);
      hide Ends;
      var frames, e := FramesOf(events, i, k - 1), events[k - 1];
      assert (frames + [e])[..|frames|] == frames;
      SpanTiles(events, i, k - 1);
      SpanId(events, i, k - 1);
      StepTiles(CallAt(events, k - 1), e);
    } else {
      SpanStartsBare(events, i);
    }
  }

  /**
   * The summary's tile times: the time between frames of the call that both showed the tile, never more than the time
   * the frames span.
   */
  lemma SummaryTellsTheTiles(events: seq<Event>, i: nat, j: nat)
    requires j < |events| && Span(events, i, j) && EndsAt(events, j) && !PlacedAgain(events[j], events[i].id)
    requires CallAt(events, j).head.connected != 0
    requires var f := FramesOf(events, i, j);
      && f != [] && (forall n :: 0 <= n < |f| ==> f[n].now > 0)
      && forall m, n :: 0 <= m <= n < |f| ==> f[m].now <= f[n].now
    ensures
      var f, lines := FramesOf(events, i, j), Lines(events, i, j + 1);
      && lines != [] && lines[|lines| - 1].Summary?
      && var t := lines[|lines| - 1].tiles;
      && t.selfMs == ShownTime(f, true) && t.peerMs == ShownTime(f, false)
      && 0 <= t.selfMs <= f[|f| - 1].now - f[0].now && 0 <= t.peerMs <= f[|f| - 1].now - f[0].now
  {
    var f := FramesOf(events, i, j);
    SpanId(events, i, j);
    SpanTiles(events, i, j);
    LinesStep(events, i, j);
    LastLineIs(CallAt(events, j), events[j]);
    hide Step, Lines, CallAt, FramesOf, Ends;
    TileTimesAddUp(f);
    ShownTimeIsBounded(f, true);
    ShownTimeIsBounded(f, false);
  }
}
