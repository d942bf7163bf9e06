/**
 * What the metrics lines of a call say, over every run: one setup for every call, a summary for those that connected,
 * and figures that add up. A call's span runs from the event that begins it to the event that ends it.
 */
module CallMetricsRuns {
  import opened CallMetrics
  import opened Wrappers

  /** The tracked call before event k. */
  function CallAt(events: seq<Event>, k: nat): Call
    requires k <= |events|
  {
    if k == 0 then NO_CALL else Step(CallAt(events, k - 1), events[k - 1]).call
  }

  /** Whether `e` begins a call. */
  predicate Begins(c: Call, e: Event) {
    (e.Outbound? || (e.Ring? && e.id != c.head.id)) && e.id != ""
  }

  /** Whether `e` ends the tracked call: another call, the same call placed again, or the grace over. */
  predicate Ends(c: Call, e: Event) {
    || e.Outbound?
    || (e.Ring? && e.id != c.head.id)
    || (e.Tick? && !e.live && e.now - c.head.lastSeen >= END_GRACE_MS)
  }

  predicate EndsAt(events: seq<Event>, k: nat)
    requires k < |events|
  {
    Ends(CallAt(events, k), events[k])
  }

  /** A call began at event i and was not ended before event k. */
  ghost predicate Span(events: seq<Event>, i: nat, k: nat) {
    && i < k <= |events| && Begins(CallAt(events, i), events[i])
    && forall m :: i < m < k ==> !EndsAt(events, m)
  }

  /** The lines of the events after i and before k. */
  function Lines(events: seq<Event>, i: nat, k: nat): seq<Line>
    requires k <= |events|
  {
    if k <= i + 1 then [] else Lines(events, i, k - 1) + Step(CallAt(events, k - 1), events[k - 1]).lines
  }

  datatype Sample = Sample(tick: MediaTick, now: int)

  /** The samples of call `id` after one more event: its media ticks from the first connected one on. */
  function Traced(t: seq<Sample>, e: Event, id: string): seq<Sample> {
    if e.Heard? && e.id == id && (e.tick.connected || t != []) then t + [Sample(e.tick, e.now)] else t
  }

  /** The samples of call `id` after event i and before event k. */
  function Trace(events: seq<Event>, id: string, i: nat, k: nat): seq<Sample>
    requires k <= |events|
  {
    if k <= i + 1 then [] else Traced(Trace(events, id, i, k - 1), events[k - 1], id)
  }

  function Count(b: bool): nat { if b then 1 else 0 }

  function Setups(lines: seq<Line>): nat {
    if lines == [] then 0 else Setups(lines[..|lines| - 1]) + Count(lines[|lines| - 1].Setup?)
  }

  function Summaries(lines: seq<Line>): nat {
    if lines == [] then 0 else Summaries(lines[..|lines| - 1]) + Count(lines[|lines| - 1].Summary?)
  }

  function Stalls(lines: seq<Line>): nat {
    if lines == [] then 0 else Stalls(lines[..|lines| - 1]) + Count(lines[|lines| - 1].Stall?)
  }

  lemma {:induction false} CountsAdd(a: seq<Line>, b: seq<Line>)
    ensures Setups(a + b) == Setups(a) + Setups(b) && Summaries(a + b) == Summaries(a) + Summaries(b)
    ensures Stalls(a + b) == Stalls(a) + Stalls(b)
  {
    if b == [] {
      assert a + b == a;
    } else {
      CountsAdd(a, b[..|b| - 1]);
      assert (a + b)[..|a + b| - 1] == a + b[..|b| - 1];
    }
  }

  // ----- One setup, one summary -----

  /** What one event that does not end the call does to it. */
  lemma StepInSpan(c: Call, e: Event)
    requires c.head.id != "" && !Ends(c, e)
    ensures
      var f, joins := Step(c, e), e.Heard? && e.id == c.head.id && e.tick.connected && c.head.connected == 0;
      && f.call.head.id == c.head.id && f.call.head.role == c.head.role
      && f.call.head.connected == (if joins then e.now else c.head.connected)
      && Setups(f.lines) == Count(joins) && Summaries(f.lines) == 0
      && f.call.load.stalls == c.load.stalls + Stalls(f.lines)
  {
    if e.Heard? && e.id == c.head.id {
      var v := WithVitals(c, e.thermal);
      assert Setups(v.lines) == Summaries(v.lines) == Stalls(v.lines) == 0;
      CountsAdd(v.lines, [SetupLine(c.head.(connected := e.now), e.tick.path, "connected", e.now)]);
    }
  }

  /** What the lines emitted since call `id` began, and its trace, say of the call. */
  ghost predicate Reported(c: Call, id: string, lines: seq<Line>, t: seq<Sample>) {
    && c.head.id == id != "" && Summaries(lines) == 0 && c.load.stalls == Stalls(lines)
    && (t == [] ==> c.head.connected == 0 && Setups(lines) == 0)
    && (t != [] && t[0].now != 0 ==> c.head.connected == t[0].now && Setups(lines) == 1)
    && (t != [] && t[0].now == 0 ==> Setups(lines) >= 1 && (c.head.connected != 0 ==> Setups(lines) >= 2))
  }

  lemma ReportedOn(c: Call, e: Event, lines: seq<Line>, t: seq<Sample>)
    requires Reported(c, c.head.id, lines, t) && !Ends(c, e)
    ensures Reported(Step(c, e).call, c.head.id, lines + Step(c, e).lines, Traced(t, e, c.head.id))
  {
    StepInSpan(c, e);
    CountsAdd(lines, Step(c, e).lines);
    hide Step, Setups, Summaries, Stalls;
  }

  lemma SpanStartsUnreported(events: seq<Event>, i: nat)
    requires Span(events, i, i + 1)
    ensures Reported(CallAt(events, i + 1), events[i].id, [], [])
  {
  }

  lemma {:induction false} SpanState(events: seq<Event>, i: nat, k: nat)
    requires Span(events, i, k)
    ensures Reported(CallAt(events, k), events[i].id, Lines(events, i, k), Trace(events, events[i].id, i, k))
  {
    hide Reported, Step, Ends, Traced;
    if k > i + 1 {
      assert !EndsAt(events, k - 1);
      SpanState(events, i, k - 1);
      var c, id := CallAt(events, k - 1), events[i].id;
      var lines, t := Lines(events, i, k - 1), Trace(events, id, i, k - 1);
      assert c.head.id == id by { ReportedIsOf(c, id, lines, t); }
      ReportedOn(c, events[k - 1], lines, t);
    } else {
      SpanStartsUnreported(events, i);
    }
  }

  lemma ReportedIsOf(c: Call, id: string, lines: seq<Line>, t: seq<Sample>)
    requires Reported(c, id, lines, t)
    ensures c.head.id == id
  {
  }

  /** One setup; and exactly when the call connected, one summary, at the end. */
  predicate Proper(lines: seq<Line>, connected: bool) {
    && Setups(lines) == 1 && Summaries(lines) == Count(connected)
    && (connected ==> lines[|lines| - 1].Summary?)
  }

  /** The tracked call is placed again under its id. */
  predicate PlacedAgain(e: Event, id: string) { e.Outbound? && e.id == id }

  /**
   * A call that ends, whatever ends it, emitted exactly one call.setup, and a call.summary after it exactly when it
   * connected: if and only if it was not placed again under its own id and did not first connect at time 0.
   */
  lemma EveryCallIsReportedOnce(events: seq<Event>, i: nat, j: nat)
    requires j < |events| && Span(events, i, j) && EndsAt(events, j)
    ensures
      var id := events[i].id;
      var t := Trace(events, id, i, j);
      Proper(Lines(events, i, j + 1), t != []) <==> !PlacedAgain(events[j], id) && !(t != [] && t[0].now == 0)
  {
    SpanState(events, i, j);
    var c, e := CallAt(events, j), events[j];
    var last := Step(c, e).lines;
    CountsAdd(Lines(events, i, j), last);
    assert last == if PlacedAgain(e, c.head.id) then [] else [EndLine(c, c.head.lastSeen, e.thermal)];
    hide Step, Lines;
    CountsOfOne(EndLine(c, c.head.lastSeen, e.thermal));
    hide Trace, Stalls;
    assert Lines(events, i, j + 1) == Lines(events, i, j) + last by { LinesStep(events, i, j); }
    assert Setups([]) == Summaries([]) == 0;
  }

  lemma LinesStep(events: seq<Event>, i: nat, j: nat)
    requires i < j < |events|
    ensures Lines(events, i, j + 1) == Lines(events, i, j) + Step(CallAt(events, j), events[j]).lines
  {
  }

  lemma CountsOfOne(line: Line)
    ensures Setups([line]) == Count(line.Setup?) && Summaries([line]) == Count(line.Summary?)
    ensures Stalls([line]) == Count(line.Stall?)
  {
    assert [line][..0] == [];
    assert Setups([]) == 0 && Summaries([]) == 0 && Stalls([]) == 0;
  }

  // ----- The end of a call without a connection -----

  ghost predicate Declined(events: seq<Event>, i: nat, k: nat)
    requires i < k <= |events| && (events[i].Outbound? || events[i].Ring?)
  {
    exists m :: i < m < k && events[m] == Decline(events[i].id)
  }

  /** When call `id` was accepted: its first accept at a time other than 0. */
  function AcceptTime(events: seq<Event>, id: string, i: nat, k: nat): int
    requires k <= |events|
  {
    if k <= i + 1 then 0
    else
      var t, e := AcceptTime(events, id, i, k - 1), events[k - 1];
      if t == 0 && e.Accept? && e.id == id then e.now else t
  }

  lemma {:induction false} AcceptTimeIsTheFirst(events: seq<Event>, id: string, i: nat, k: nat)
    requires k <= |events|
    ensures var t := AcceptTime(events, id, i, k);
      if t == 0 then forall m :: i < m < k && events[m].Accept? && events[m].id == id ==> events[m].now == 0
      else exists m :: i < m < k && events[m].Accept? && events[m].id == id && events[m].now == t
                       && forall l :: i < l < m && events[l].Accept? && events[l].id == id ==> events[l].now == 0
  {
    if k > i + 1 { AcceptTimeIsTheFirst(events, id, i, k - 1); }
  }

  lemma StepTells(c: Call, e: Event)
    requires c.head.id != "" && !Ends(c, e)
    ensures var h := Step(c, e).call.head;
      && h.role == c.head.role && h.outbound == c.head.outbound && h.ring == c.head.ring
      && (h.declined <==> c.head.declined || e == Decline(c.head.id))
      && h.accept == (if c.head.accept == 0 && e.Accept? && e.id == c.head.id then e.now else c.head.accept)
  {
  }

  lemma TellStep(events: seq<Event>, i: nat, k: nat)
    requires i + 1 < k <= |events| && (events[i].Outbound? || events[i].Ring?)
    ensures Declined(events, i, k) <==> Declined(events, i, k - 1) || events[k - 1] == Decline(events[i].id)
  {
  }

  lemma SpanId(events: seq<Event>, i: nat, k: nat)
    requires Span(events, i, k)
    ensures CallAt(events, k).head.id == events[i].id != ""
  {
    SpanState(events, i, k);
  }

  /** What the head says of the events since the call began. */
  ghost predicate Tells(h: Head, events: seq<Event>, i: nat, k: nat)
    requires i < k <= |events| && (events[i].Outbound? || events[i].Ring?)
  {
    && h.role == (if events[i].Outbound? then Caller else Callee)
    && h.outbound == (if events[i].Outbound? then events[i].now else 0)
    && h.ring == (if events[i].Ring? then events[i].now else 0)
    && (h.declined <==> Declined(events, i, k)) && h.accept == AcceptTime(events, events[i].id, i, k)
  }

  lemma SpanStarts(events: seq<Event>, i: nat)
    requires Span(events, i, i + 1)
    ensures Tells(CallAt(events, i + 1).head, events, i, i + 1)
  {
  }

  lemma TellsOn(c: Call, events: seq<Event>, i: nat, k: nat)
    requires i + 1 < k <= |events| && (events[i].Outbound? || events[i].Ring?)
    requires Tells(c.head, events, i, k - 1) && c.head.id == events[i].id != "" && !Ends(c, events[k - 1])
    ensures Tells(Step(c, events[k - 1]).call.head, events, i, k)
  {
    StepTells(c, events[k - 1]);
    TellStep(events, i, k);
    hide Step, Ends, Declined;
  }

  lemma {:induction false} SpanTells(events: seq<Event>, i: nat, k: nat)
    requires Span(events, i, k)
    ensures Tells(CallAt(events, k).head, events, i, k)
  {
    hide Tells, Ends, Step;
    if k > i + 1 {
      assert !EndsAt(events, k - 1);
      SpanTells(events, i, k - 1);
      SpanId(events, i, k - 1);
      TellsOn(CallAt(events, k - 1), events, i, k);
    } else {
      SpanStarts(events, i);
    }
  }

  /** Without a connection a call tells the reason: declined, not connected, failed after an accept, or missed. */
  lemma UnconnectedCallsSayWhy(events: seq<Event>, i: nat, j: nat)
    requires j < |events| && Span(events, i, j) && EndsAt(events, j)
    requires !PlacedAgain(events[j], events[i].id) && Trace(events, events[i].id, i, j) == []
    ensures var lines := Lines(events, i, j + 1);
      && lines != [] && lines[|lines| - 1].Setup? && lines[|lines| - 1].call == events[i].id
      && lines[|lines| - 1].result ==
           (if Declined(events, i, j) then "declined" else if events[i].Outbound? then "not_connected"
            else if AcceptTime(events, events[i].id, i, j) != 0 then "failed" else "missed")
  {
    SpanState(events, i, j);
    SpanTells(events, i, j);
    LinesStep(events, i, j);
    LastLineIs(CallAt(events, j), events[j]);
    hide Step, Ends, Lines, Setups, Summaries, Stalls, Declined, AcceptTime, CallAt, Trace;
  }

  lemma LastLineIs(c: Call, e: Event)
    requires c.head.id != "" && Ends(c, e) && !PlacedAgain(e, c.head.id)
    ensures Step(c, e).lines == [EndLine(c, c.head.lastSeen, e.thermal)]
  {
  }

  /** What a connecting call's setup line says: `begin` began the call, `tick` connects it, `accept` accepted it. */
  predicate TellsTheTimes(s: Line, begin: Event, tick: Event, accept: int)
    requires (begin.Outbound? || begin.Ring?) && tick.Heard?
  {
    var from := if accept != 0 then accept else if begin.Outbound? then begin.now else 0;
    && s.Setup? && s.call == begin.id && s.role == (if begin.Outbound? then Caller else Callee)
    && s.result == "connected" && s.path == Some(tick.tick.path) && s.waited == None
    && s.connect == (if from != 0 then Some(tick.now - from) else None)
    && s.answer == (if begin.Ring? && begin.now != 0 && accept != 0 then Some(accept - begin.now) else None)
  }

  /**
   * The setup line of the media tick that connects a call: how long the ringing took to be accepted, and how long the
   * connecting took from the accept, or else from placing the call.
   */
  lemma ConnectingTellsTheTimes(events: seq<Event>, i: nat, j: nat)
    requires j < |events| && Span(events, i, j) && events[j].Heard? && events[j].id == events[i].id
    requires events[j].tick.connected && events[j].now != 0 && Trace(events, events[i].id, i, j) == []
    ensures Lines(events, i, j + 1) != []
    ensures TellsTheTimes(Lines(events, i, j + 1)[|Lines(events, i, j + 1)| - 1], events[i], events[j],
                          AcceptTime(events, events[i].id, i, j))
  {
    SpanState(events, i, j);
    SpanTells(events, i, j);
    LinesStep(events, i, j);
    hide Step, Ends, Lines, Declined, AcceptTime, CallAt, Trace, Summaries, Stalls, Setups;
    var c, e := CallAt(events, j), events[j];
    SetupTells(c.head, events[i], e);
    JoiningEmits(c, e);
    hide SetupLine, TellsTheTimes, Tells, Reported;
    LastOfJoined(Lines(events, i, j), Step(c, e).lines);
  }

  lemma LastOfJoined(a: seq<Line>, b: seq<Line>)
    requires b != []
    ensures a + b != [] && (a + b)[|a + b| - 1] == b[|b| - 1]
  {
  }

  lemma SetupTells(h: Head, begin: Event, tick: Event)
    requires (begin.Outbound? || begin.Ring?) && tick.Heard? && tick.now != 0 && h.id == begin.id
    requires h.role == (if begin.Outbound? then Caller else Callee)
    requires h.outbound == (if begin.Outbound? then begin.now else 0)
    requires h.ring == (if begin.Ring? then begin.now else 0)
    ensures TellsTheTimes(SetupLine(h.(connected := tick.now), tick.tick.path, "connected", tick.now), begin, tick,
                          h.accept)
  {
  }

  lemma JoiningEmits(c: Call, e: Event)
    requires c.head.id != "" && e.Heard? && e.id == c.head.id && e.tick.connected && c.head.connected == 0
    ensures var lines := Step(c, e).lines;
      lines != [] && lines[|lines| - 1] == SetupLine(c.head.(connected := e.now), e.tick.path, "connected", e.now)
  {
  }
}
