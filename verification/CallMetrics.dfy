/**
 * The metrics of one call at a time: what the UI feeds in, the lines it gets back. Times are milliseconds of a clock
 * the caller reads; 0 stands for "not yet" in the fields.
 */
module CallMetrics {
  import opened Wrappers

  const END_GRACE_MS := 3000
  const STALL_MS := 1000
  const STALL_MAX_MS := 60_000

  datatype Role = NoRole | Caller | Callee

  /** A call's quality, from Excellent (0) to NoAudio (5). */
  type Quality = q: int | 0 <= q <= 5 witness 1

  const NO_AUDIO: Quality := 5

  /** The engine's figures the tracker decides on: cumulative frames received, the jitter target, whether it runs. */
  datatype Health = Health(rxAudio: nat, rxVideo: nat, jitterTarget: int, running: bool)

  const NO_HEALTH := Health(0, 0, 0, false)

  /** Time per quality. */
  type Buckets = s: seq<int> | |s| == 6 witness [0, 0, 0, 0, 0, 0]

  datatype MediaTick = MediaTick(connected: bool, path: string, quality: Quality, health: Health)

  datatype Head = Head(
    id: string, role: Role, video: bool, declined: bool, outbound: int, ring: int, accept: int, connected: int,
    lastSeen: int)

  const NO_HEAD := Head("", NoRole, false, false, 0, 0, 0, 0, 0)

  /** The path of a connected call, and how often the connection was lost. */
  datatype Link = Link(path: string, pathChanges: nat, reconnects: nat, wasConnected: bool)

  /** The time spent at each quality, up to the last media tick. */
  datatype Time = Time(lastTick: int, quality: Buckets, noAudio: int)

  datatype Firsts = Firsts(audio: int, video: int)

  datatype Jitter = Jitter(max: int, sum: int, samples: nat)

  /** The engine's figures when the call started, and in the last sample taken while it ran. */
  datatype Samples = Samples(haveBase: bool, base: Health, last: Health, haveRunning: bool, stopped: bool)

  /** What the media ticks of a connected call add up to. */
  datatype Media = Media(link: Link, time: Time, firsts: Firsts, jitter: Jitter, samples: Samples)

  const NO_MEDIA := Media(Link("", 0, 0, true), Time(0, [0, 0, 0, 0, 0, 0], 0), Firsts(-1, -1), Jitter(0, 0, 0),
                          Samples(false, NO_HEALTH, NO_HEALTH, false, false))

  datatype Tiles = Tiles(
    lastFrame: int, selfOn: bool, peerOn: bool, selfMs: int, peerMs: int, selfShown: nat, peerShown: nat)

  const NO_TILES := Tiles(0, false, false, 0, 0, 0, 0)

  datatype Load = Load(stalls: nat, stallMax: int, thermalMax: int, thermalLast: int)

  const NO_LOAD := Load(0, 0, -1, -1)

  datatype Call = Call(head: Head, media: Media, tiles: Tiles, load: Load)

  const NO_CALL := Call(NO_HEAD, NO_MEDIA, NO_TILES, NO_LOAD)

  datatype Line =
    | Setup(call: string, role: Role, video: bool, result: string, answer: Option<int>, connect: Option<int>,
            path: Option<string>, waited: Option<int>)
    | Summary(call: string, role: Role, video: bool, durationMs: int, rxAudio: nat, jbAvg: int, percents: seq<int>,
              media: Media, tiles: Tiles, load: Load)
    | Stall(call: string, stuckMs: int)
    | Thermal(call: string, state: int, from: int)

  datatype Event =
    | Outbound(id: string, video: bool, now: int, thermal: int)
    | Ring(id: string, video: bool, now: int, thermal: int)
    | Accept(id: string, voiceOnly: bool, now: int)
    | Decline(id: string)
    | Heard(id: string, tick: MediaTick, now: int, thermal: int)
    | Latency(ms: int)
    | Tick(live: bool, now: int, thermal: int)
    | Frame(selfOn: bool, selfNew: bool, peerOn: bool, peerNew: bool, now: int)

  /** What an event leaves: the call, and the lines to emit. */
  datatype Fed = Fed(call: Call, lines: seq<Line>)

  function Max(a: int, b: int): int { if a >= b then a else b }

  /** A counter's growth; a counter that restarted counts from 0. */
  function Delta(now: nat, base: nat): nat { if now >= base then now - base else now }

  /** Division that truncates toward 0. */
  function Quotient(a: int, b: int): int
    requires b > 0
  {
    if a >= 0 then a / b else -((-a) / b)
  }

  function Sum(s: seq<int>): int { if s == [] then 0 else Sum(s[..|s| - 1]) + s[|s| - 1] }

  function Percent(ms: int, total: int): int { if total > 0 then Quotient(ms * 100, total) else 0 }

  function Percents(quality: seq<int>): (percents: seq<int>)
    ensures |percents| == |quality|
  {
    seq(|quality|, q requires 0 <= q < |quality| => Percent(quality[q], Sum(quality)))
  }

  function SetupLine(h: Head, path: string, result: string, now: int): Line {
    var answer := if h.ring != 0 && h.accept != 0 then Some(h.accept - h.ring) else None;
    if h.connected != 0 then
      var from := if h.accept != 0 then h.accept else h.outbound;
      Setup(h.id, h.role, h.video, result, answer, if from != 0 then Some(h.connected - from) else None, Some(path),
            None)
    else
      var from := if h.accept != 0 then h.accept else if h.outbound != 0 then h.outbound else h.ring;
      Setup(h.id, h.role, h.video, result, answer, None, None, Some(now - from))
  }

  function UnconnectedResult(h: Head): string {
    if h.declined then "declined"
    else if h.role == Callee then if h.accept != 0 then "failed" else "missed"
    else "not_connected"
  }

  function Average(j: Jitter): int { if j.samples > 0 then Quotient(j.sum, j.samples) else 0 }

  function EndLine(c: Call, end: int, thermal: int): Line {
    if c.head.connected == 0 then SetupLine(c.head, c.media.link.path, UnconnectedResult(c.head), end)
    else
      Summary(c.head.id, c.head.role, c.head.video, Max(end - c.head.connected, 1),
              Delta(c.media.samples.last.rxAudio, c.media.samples.base.rxAudio), Average(c.media.jitter),
              Percents(c.media.time.quality), c.media, c.tiles,
              c.load.(thermalMax := Max(c.load.thermalMax, thermal)))
  }

  function Begun(c: Call, id: string, role: Role, video: bool, now: int, thermal: int): Fed {
    var outbound, ring := if role == Caller then now else 0, if role == Callee then now else 0;
    var h := Head(id, role, video, false, outbound, ring, 0, 0, now);
    Fed(Call(h, NO_MEDIA, NO_TILES, Load(0, 0, thermal, thermal)),
        if c.head.id != "" && c.head.id != id then [EndLine(c, c.head.lastSeen, thermal)] else [])
  }

  function WithVitals(c: Call, thermal: int): Fed {
    if thermal < 0 || thermal == c.load.thermalLast then Fed(c, [])
    else
      Fed(c.(load := c.load.(thermalLast := thermal, thermalMax := Max(c.load.thermalMax, thermal))),
          [Thermal(c.head.id, thermal, c.load.thermalLast)])
  }

  function Linked(l: Link, t: MediaTick): Link {
    var moved := t.path != "" && t.path != l.path;
    Link(if moved then t.path else l.path, if moved then l.pathChanges + 1 else l.pathChanges,
         if !t.connected && l.wasConnected then l.reconnects + 1 else l.reconnects, t.connected)
  }

  function Timed(p: Time, q: Quality, now: int): Time {
    var dt := if p.lastTick != 0 then now - p.lastTick else 0;
    Time(now, p.quality[q := p.quality[q] + dt], if q == NO_AUDIO then p.noAudio + dt else p.noAudio)
  }

  function FirstAt(first: int, frames: nat, now: int, connected: int): int {
    if first < 0 && frames > 0 then now - connected else first
  }

  function FirstsAt(f: Firsts, h: Health, base: Health, now: int, connected: int): Firsts {
    Firsts(FirstAt(f.audio, Delta(h.rxAudio, base.rxAudio), now, connected),
           FirstAt(f.video, Delta(h.rxVideo, base.rxVideo), now, connected))
  }

  function Jittered(j: Jitter, target: int): Jitter { Jitter(Max(j.max, target), j.sum + target, j.samples + 1) }

  /** A sample of a stopped engine is all zeros: the last running one is kept. */
  function Sampled(s: Samples, h: Health): Samples {
    Samples(s.haveBase, s.base, if h.running then h else s.last, s.haveRunning || h.running, !h.running)
  }

  /** One media tick of a connected call. */
  function Counted(m: Media, t: MediaTick, now: int, connected: int): Media {
    Media(Linked(m.link, t), Timed(m.time, t.quality, now),
          FirstsAt(m.firsts, t.health, m.samples.base, now, connected),
          Jittered(m.jitter, t.health.jitterTarget), Sampled(m.samples, t.health))
  }

  function Based(m: Media, h: Health): Media {
    if m.samples.haveBase then m else m.(samples := m.samples.(base := h, haveBase := true))
  }

  /** The counters start anew where the call connects. */
  function Started(m: Media, t: MediaTick): Media {
    m.(link := m.link.(path := t.path), samples := m.samples.(base := t.health))
  }

  function MediaHeard(c: Call, t: MediaTick, now: int, thermal: int): Fed
  {
    var v, m := WithVitals(c, thermal), Based(c.media, t.health);
    if t.connected && c.head.connected == 0 then
      var joined := c.head.(connected := now);
      var started := Started(m, t);
      Fed(Call(joined, if now == 0 then started else Counted(started, t, now, now), c.tiles, v.call.load),
          v.lines + [SetupLine(joined, t.path, "connected", now)])
    else if c.head.connected == 0 then Fed(Call(c.head, m, c.tiles, v.call.load), v.lines)
    else Fed(Call(c.head, Counted(m, t, now, c.head.connected), c.tiles, v.call.load), v.lines)
  }

  function Framed(t: Tiles, e: Event): Tiles
    requires e.Frame?
  {
    var dt := if t.lastFrame > 0 then e.now - t.lastFrame else 0;
    Tiles(e.now, e.selfOn, e.peerOn,
          t.selfMs + if e.selfOn && t.selfOn then dt else 0,
          t.peerMs + if e.peerOn && t.peerOn then dt else 0,
          t.selfShown + if e.selfOn && e.selfNew then 1 else 0,
          t.peerShown + if e.peerOn && e.peerNew then 1 else 0)
  }

  function Step(c: Call, e: Event): Fed
  {
    match e
    case Outbound(id, video, now, thermal) => Begun(c, id, Caller, video, now, thermal)
    case Ring(id, video, now, thermal) =>
      if c.head.id == id then Fed(c, []) else Begun(c, id, Callee, video, now, thermal)
    case Accept(id, voiceOnly, now) =>
      if c.head.id != id || c.head.accept != 0 then Fed(c, [])
      else Fed(c.(head := c.head.(accept := now, video := c.head.video && !voiceOnly)), [])
    case Decline(id) => if c.head.id == id then Fed(c.(head := c.head.(declined := true)), []) else Fed(c, [])
    case Heard(id, tick, now, thermal) =>
      if c.head.id != id || id == "" then Fed(c, []) else MediaHeard(c, tick, now, thermal)
    case Latency(ms) =>
      if c.head.id == "" || ms < STALL_MS || ms >= STALL_MAX_MS then Fed(c, [])
      else
        Fed(c.(load := c.load.(stalls := c.load.stalls + 1, stallMax := Max(c.load.stallMax, ms))),
            [Stall(c.head.id, ms)])
    case Tick(live, now, thermal) =>
      if c.head.id == "" then Fed(c, [])
      else if live then Fed(c.(head := c.head.(lastSeen := now)), [])
      else if now - c.head.lastSeen < END_GRACE_MS then Fed(c, [])
      else Fed(NO_CALL, [EndLine(c, c.head.lastSeen, thermal)])
    case Frame(_, _, _, _, _) => if c.head.id == "" then Fed(c, []) else Fed(c.(tiles := Framed(c.tiles, e)), [])
  }

  // ----- The tracker, in place -----

  class CallMetricsTracker {
    var head: Head
    var media: Media
    var tiles: Tiles
    var load: Load

    function Contents(): Call
      reads this
    {
      Call(head, media, tiles, load)
    }

    constructor ()
      ensures Contents() == NO_CALL
    {
      head, media, tiles, load := NO_HEAD, NO_MEDIA, NO_TILES, NO_LOAD;
    }

    method Begin(id: string, role: Role, video: bool, now: int, thermal: int) returns (lines: seq<Line>)
      modifies this
      ensures media == NO_MEDIA && tiles == NO_TILES && load == Load(0, 0, thermal, thermal)
      ensures head == Head(id, role, video, false, 0, 0, 0, 0, now)
      ensures lines == Begun(old(Contents()), id, role, video, now, thermal).lines
    {
      lines := [];
      if head.id != "" && head.id != id {
        var line := End(head.lastSeen, thermal);
        lines := [line];
      }
      head, media, tiles := NO_HEAD.(id := id, role := role, video := video, lastSeen := now), NO_MEDIA, NO_TILES;
      load := NO_LOAD.(thermalMax := thermal, thermalLast := thermal);
    }

    method NoteOutbound(id: string, video: bool, now: int, thermal: int) returns (lines: seq<Line>)
      modifies this
      ensures Fed(Contents(), lines) == Step(old(Contents()), Outbound(id, video, now, thermal))
    {
      lines := Begin(id, Caller, video, now, thermal);
      head := head.(outbound := now);
    }

    method NoteRing(id: string, video: bool, now: int, thermal: int) returns (lines: seq<Line>)
      modifies this
      ensures Fed(Contents(), lines) == Step(old(Contents()), Ring(id, video, now, thermal))
    {
      if head.id == id { return []; }
      lines := Begin(id, Callee, video, now, thermal);
      head := head.(ring := now);
    }

    method NoteAccept(id: string, voiceOnly: bool, now: int)
      modifies this
      ensures Fed(Contents(), []) == Step(old(Contents()), Accept(id, voiceOnly, now))
    {
      if head.id != id || head.accept != 0 { return; }
      head := head.(accept := now);
      if voiceOnly { head := head.(video := false); }
    }

    method NoteDecline(id: string)
      modifies this
      ensures Fed(Contents(), []) == Step(old(Contents()), Decline(id))
    {
      if head.id == id { head := head.(declined := true); }
    }

    method NoteVitals(thermal: int, lines: seq<Line>) returns (more: seq<Line>)
      modifies this`load
      ensures Contents() == WithVitals(old(Contents()), thermal).call
      ensures more == lines + WithVitals(old(Contents()), thermal).lines
    {
      if thermal < 0 || thermal == load.thermalLast { return lines; }
      more := lines + [Thermal(head.id, thermal, load.thermalLast)];
      load := load.(thermalLast := thermal, thermalMax := Max(load.thermalMax, thermal));
    }

    method NoteMedia(id: string, tick: MediaTick, now: int, thermal: int) returns (lines: seq<Line>)
      modifies this
      ensures Fed(Contents(), lines) == Step(old(Contents()), Heard(id, tick, now, thermal))
    {
      lines := [];
      if head.id != id || id == "" { return; }
      lines := NoteVitals(thermal, lines);
      hide WithVitals;
      if !media.samples.haveBase { media := media.(samples := media.samples.(base := tick.health, haveBase := true)); }
      if tick.connected && head.connected == 0 {
        head := head.(connected := now);
        media := media.(link := media.link.(path := tick.path), samples := media.samples.(base := tick.health));
        lines := lines + [SetupLine(head, media.link.path, "connected", now)];
      }
      if head.connected == 0 { return; }
      CountTick(tick, now);
    }

    /** What one media tick adds to a connected call. */
    method CountTick(tick: MediaTick, now: int)
      modifies this`media
      ensures media == Counted(old(media), tick, now, head.connected)
    {
      var link := media.link;
      if tick.path != "" && tick.path != link.path {
        link := link.(path := tick.path, pathChanges := link.pathChanges + 1);
      }
      if !tick.connected && link.wasConnected { link := link.(reconnects := link.reconnects + 1); }
      link := link.(wasConnected := tick.connected);
      assert link == Linked(media.link, tick);
      hide Linked;
      var time, q := media.time, tick.quality;
      var dt := if time.lastTick != 0 then now - time.lastTick else 0;
      time := time.(lastTick := now, quality := time.quality[q := time.quality[q] + dt]);
      if q == NO_AUDIO { time := time.(noAudio := time.noAudio + dt); }
      assert time == Timed(media.time, q, now);
      hide Timed;
      var firsts, h, base := media.firsts, tick.health, media.samples.base;
      if firsts.audio < 0 && Delta(h.rxAudio, base.rxAudio) > 0 { firsts := firsts.(audio := now - head.connected); }
      if firsts.video < 0 && Delta(h.rxVideo, base.rxVideo) > 0 { firsts := firsts.(video := now - head.connected); }
      assert firsts == FirstsAt(media.firsts, h, base, now, head.connected);
      hide FirstsAt, Max;
      var jitter, samples := media.jitter, media.samples;
      jitter := Jitter(Max(jitter.max, h.jitterTarget), jitter.sum + h.jitterTarget, jitter.samples + 1);
      if h.running { samples := samples.(last := h, haveRunning := true); }
      samples := samples.(stopped := !h.running);
      assert samples == Sampled(media.samples, h);
      hide Sampled;
      media := Media(link, time, firsts, jitter, samples);
    }

    method NoteUiLatency(ms: int) returns (lines: seq<Line>)
      modifies this
      ensures Fed(Contents(), lines) == Step(old(Contents()), Latency(ms))
    {
      if head.id == "" || ms < STALL_MS || ms >= STALL_MAX_MS { return []; }
      load := load.(stalls := load.stalls + 1, stallMax := Max(load.stallMax, ms));
      return [Stall(head.id, ms)];
    }

    method NoteTick(live: bool, now: int, thermal: int) returns (lines: seq<Line>)
      modifies this
      ensures Fed(Contents(), lines) == Step(old(Contents()), Tick(live, now, thermal))
    {
      if head.id == "" { return []; }
      if live {
        head := head.(lastSeen := now);
        return [];
      }
      if now - head.lastSeen < END_GRACE_MS { return []; }
      var line := End(head.lastSeen, thermal);
      head, media, tiles, load := NO_HEAD, NO_MEDIA, NO_TILES, NO_LOAD;
      return [line];
    }

    method NoteVideoFrame(selfOn: bool, selfNew: bool, peerOn: bool, peerNew: bool, now: int)
      modifies this
      ensures Fed(Contents(), []) == Step(old(Contents()), Frame(selfOn, selfNew, peerOn, peerNew, now))
    {
      if head.id == "" { return; }
      var selfMs, peerMs := tiles.selfMs, tiles.peerMs;
      if tiles.lastFrame > 0 {
        var dt := now - tiles.lastFrame;
        if selfOn && tiles.selfOn { selfMs := selfMs + dt; }
        if peerOn && tiles.peerOn { peerMs := peerMs + dt; }
      }
      tiles := Tiles(now, selfOn, peerOn, selfMs, peerMs,
                     tiles.selfShown + if selfOn && selfNew then 1 else 0,
                     tiles.peerShown + if peerOn && peerNew then 1 else 0);
    }

    method End(end: int, thermal: int) returns (line: Line)
      ensures line == EndLine(Contents(), end, thermal)
    {
      if head.connected == 0 { return SetupLine(head, media.link.path, UnconnectedResult(head), end); }
      var total, q, percents := 0, 0, [];
      while q < |media.time.quality|
        invariant q <= |media.time.quality| && total == Sum(media.time.quality[..q])
      {
        assert media.time.quality[..q + 1][..q] == media.time.quality[..q];
        total, q := total + media.time.quality[q], q + 1;
      }
      assert media.time.quality[..q] == media.time.quality;
      q := 0;
      while q < |media.time.quality|
        invariant q <= |media.time.quality| && percents == Percents(media.time.quality)[..q]
      {
        percents, q := percents + [Percent(media.time.quality[q], total)], q + 1;
      }
      line := Summary(head.id, head.role, head.video, Max(end - head.connected, 1),
                      Delta(media.samples.last.rxAudio, media.samples.base.rxAudio), Average(media.jitter), percents,
                      media, tiles, load.(thermalMax := Max(load.thermalMax, thermal)));
    }
  }
}
