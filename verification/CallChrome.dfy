/**
 * The call chrome's sync gate: each poll it compares the snapshot it gave the shell last with the newest one and
 * picks the cheapest redraw. The module proves that this is never seen: after every poll the screen shows what a
 * full redraw would show, but for audio meters held back less than 200 ms.
 *
 * The roughly 90 fields of a layer are grouped by the redraw they need; every field of the source appears once.
 */
module CallChrome {
  import opened RosterKeys

  datatype Mode = Expanded | Minimized | Immersive

  /** Which layers show and for which call. */
  datatype Identity = Identity(ringActive: bool, inCallActive: bool, ringCallId: string, inCallId: string)

  /** Button presence, mode and the other facts the markup is built from. */
  datatype Controls = Controls(
    showSpeaker: bool, showCamera: bool, showFlip: bool, showInvite: bool, showMakeGroup: bool, groupInvite: string,
    guests: string, ringGuestHint: string, showRetry: bool, calling: bool, showRoster: bool, stageVisible: bool,
    mode: Mode, spotlight: string, spotlightFill: bool, minimizedCorner: int, ringShowPricing: bool,
    ringAcceptChargeEnabled: bool)

  /** What is fixed when the phone page is built. */
  datatype Page = Page(
    phone: bool, ringTitle: string, ringSubtitle: string, ringAvatar: string, title: string, video: bool,
    avatars: string, failed: bool, failedText: string, storyActive: bool, storyStage: int, storySteps: string,
    sheetOpen: bool)

  datatype StoryLine = StoryLine(time: string, text: string, secure: bool)

  /** The lines of the story sheet: in the markup while the sheet is open, nowhere otherwise. */
  datatype Story = Story(lines: seq<StoryLine>, how: string)

  /** Bound fields redrawn together with the whole call group. */
  datatype Labels = Labels(
    statusHint: string, callerLabel: string, mediaLabel: string, title: string, muted: bool, cameraOn: bool,
    cameraFront: bool, speakerOn: bool, remoteVideo: bool, localPreview: bool, peerLabel: string,
    remotePlaceholder: string, participantCount: int, pulse: bool, conflict: bool, eyebrow: string,
    conflictHint: string, acceptLabel: string, voiceAnswerLabel: string, declineLabel: string, pricingLabel: string,
    acceptChargeLabel: string, acceptChargeHint: string, acceptShort: string, voiceShort: string)

  /** Bound fields redrawn one variable at a time. */
  datatype Parts = Parts(
    subtitle: string, elapsed: string, qualityBars: int, qualityOk: bool, qualityWarn: bool, qualityError: bool,
    qualityLabel: string, qualityHint: string, resultText: string, resultFading: bool, signalShown: bool,
    signalBars: int, signalTone: int, signalWord: string, noticeText: string, noticeWarn: bool, noticeFading: bool,
    showDebugSubtitle: bool, debugSubtitle: string)

  /** The audio meters. */
  datatype Levels = Levels(mic: int, peer: int, micHint: string, peerHint: string)

  /** The snapshot the gate compares. */
  datatype Layer = Layer(
    identity: Identity, controls: Controls, page: Page, story: Story, labels: Labels, roster: string, parts: Parts,
    speaking: string, levels: Levels)

  /** The presenter's state a layer is captured from, and the state the shell draws from. */
  datatype Chrome = Chrome(
    identity: Identity, controls: Controls, page: Page, story: Story, labels: Labels, roster: seq<Row>,
    spotlightRows: seq<Row>, stripRows: seq<Row>, parts: Parts, levels: Levels)

  // ----- The spotlight -----

  /** The rows whose stream is (`same`) or is not the spotlit one. */
  function Pick(rows: seq<Row>, spotlit: string, same: bool): (picked: seq<Row>)
    ensures forall r :: r in picked ==> r in rows
  {
    if rows == [] then []
    else
      var last := rows[|rows| - 1];
      Pick(rows[..|rows| - 1], spotlit, same) + if (last.stream == spotlit) == same then [last] else []
  }

  function SpotlightRows(rows: seq<Row>, spotlit: string): seq<Row> {
    if spotlit == "" then [] else Pick(rows, spotlit, true)
  }

  function StripRows(rows: seq<Row>, spotlit: string): seq<Row> {
    if spotlit == "" then [] else Pick(rows, spotlit, false)
  }

  /** The rows with their rings as the list of speaking streams says. */
  function Ringed(rows: seq<Row>, shown: set<string>): (out: seq<Row>)
    ensures |out| == |rows|
    ensures forall i :: 0 <= i < |rows| ==> out[i] == rows[i].(speaking := rows[i].stream in shown)
  {
    seq(|rows|, i requires 0 <= i < |rows| => rows[i].(speaking := rows[i].stream in shown))
  }

  /** The user's choice of a stream to spotlight, or of the grid. */
  datatype Choice = Choice(stream: string, grid: bool)

  predicate InCall(rows: seq<Row>, stream: string) {
    exists i :: 0 <= i < |rows| && rows[i].stream == stream
  }

  /** The first of the others. */
  function Peer(rows: seq<Row>, isLocal: seq<bool>): string
    requires |isLocal| == |rows|
  {
    if rows == [] then ""
    else if !isLocal[0] then rows[0].stream
    else Peer(rows[1..], isLocal[1..])
  }

  /** The chosen stream while it is in the call; else, but for the grid, the active speaker of a group or the peer. */
  function Spotlit(rows: seq<Row>, isLocal: seq<bool>, group: bool, choice: Choice, speaker: string): string
    requires |isLocal| == |rows|
  {
    if choice.stream != "" && InCall(rows, choice.stream) then choice.stream
    else if choice.grid then ""
    else if group then if speaker != "" && InCall(rows, speaker) then speaker else ""
    else Peer(rows, isLocal)
  }

  method HasStream(rows: seq<Row>, stream: string) returns (found: bool)
    ensures found == InCall(rows, stream)
  {
    for i := 0 to |rows|
      invariant forall j :: 0 <= j < i ==> rows[j].stream != stream
    {
      if rows[i].stream == stream {
        return true;
      }
    }
    return false;
  }

  method ResolveSpotlight(rows: seq<Row>, isLocal: seq<bool>, group: bool, choice: Choice, speaker: string)
    returns (spotlit: string)
    requires |isLocal| == |rows|
    ensures spotlit == Spotlit(rows, isLocal, group, choice, speaker)
  {
    if choice.stream != "" {
      var chosen := HasStream(rows, choice.stream);
      if chosen {
        return choice.stream;
      }
    }
    if choice.grid {
      return "";
    }
    if group {
      var speaks := HasStream(rows, speaker);
      return if speaker != "" && speaks then speaker else "";
    }
    for i := 0 to |rows|
      invariant Peer(rows, isLocal) == Peer(rows[i..], isLocal[i..])
    {
      if !isLocal[i] {
        return rows[i].stream;
      }
      assert rows[i..][1..] == rows[i + 1..] && isLocal[i..][1..] == isLocal[i + 1..];
    }
    return "";
  }

  method RingRows(rows: seq<Row>, shown: set<string>) returns (roster: seq<Row>)
    ensures roster == Ringed(rows, shown)
  {
    roster := rows;
    for i := 0 to |rows|
      invariant |roster| == |rows|
      invariant forall j :: 0 <= j < i ==> roster[j] == rows[j].(speaking := rows[j].stream in shown)
      invariant forall j :: i <= j < |rows| ==> roster[j] == rows[j]
    {
      roster := roster[i := roster[i].(speaking := roster[i].stream in shown)];
    }
    assert roster == Ringed(rows, shown);
  }

  method SplitRows(roster: seq<Row>, spotlit: string) returns (spotlightRows: seq<Row>, stripRows: seq<Row>)
    ensures spotlightRows == SpotlightRows(roster, spotlit)
    ensures stripRows == StripRows(roster, spotlit)
  {
    spotlightRows, stripRows := [], [];
    if spotlit != "" {
      for i := 0 to |roster|
        invariant spotlightRows == Pick(roster[..i], spotlit, true)
        invariant stripRows == Pick(roster[..i], spotlit, false)
      {
        assert roster[..i + 1][..i] == roster[..i];
        if spotlit == roster[i].stream {
          spotlightRows := spotlightRows + [roster[i]];
        } else {
          stripRows := stripRows + [roster[i]];
        }
      }
      assert roster[..|roster|] == roster;
    }
  }

  method ApplySpotlight(rows: seq<Row>, isLocal: seq<bool>, group: bool, choice: Choice, speaker: string,
                        shown: set<string>)
    returns (spotlit: string, kept: Choice, roster: seq<Row>, spotlightRows: seq<Row>, stripRows: seq<Row>)
    requires |isLocal| == |rows|
    ensures spotlit == Spotlit(rows, isLocal, group, choice, speaker)
    ensures kept == if InCall(rows, choice.stream) then choice else choice.(stream := "")
    ensures roster == Ringed(rows, shown) && RingsByStream(roster)
    ensures spotlightRows == SpotlightRows(roster, spotlit)
    ensures stripRows == StripRows(roster, spotlit)
  {
    spotlit := ResolveSpotlight(rows, isLocal, group, choice, speaker);
    SpotlitIsInCall(rows, isLocal, group, choice, speaker);
    kept := choice;
    if choice.stream != "" && spotlit != choice.stream {
      kept := kept.(stream := "");
    }
    roster := RingRows(rows, shown);
    spotlightRows, stripRows := SplitRows(roster, spotlit);
  }

  lemma {:induction false} PeerIsInCall(rows: seq<Row>, isLocal: seq<bool>)
    requires |isLocal| == |rows| && Peer(rows, isLocal) != ""
    ensures InCall(rows, Peer(rows, isLocal))
  {
    if !isLocal[0] {
      assert rows[0].stream == Peer(rows, isLocal);
    } else {
      PeerIsInCall(rows[1..], isLocal[1..]);
      var i :| 0 <= i < |rows[1..]| && rows[1..][i].stream == Peer(rows, isLocal);
      assert rows[i + 1].stream == Peer(rows, isLocal);
    }
  }

  lemma SpotlitIsInCall(rows: seq<Row>, isLocal: seq<bool>, group: bool, choice: Choice, speaker: string)
    requires |isLocal| == |rows|
    ensures
      var spotlit := Spotlit(rows, isLocal, group, choice, speaker);
      spotlit != "" ==> InCall(rows, spotlit)
  {
    if Peer(rows, isLocal) != "" {
      PeerIsInCall(rows, isLocal);
    }
  }

  lemma PickOneMore(rows: seq<Row>, r: Row, spotlit: string, same: bool)
    ensures
      var more, front := multiset(Pick(rows + [r], spotlit, same)), multiset(Pick(rows, spotlit, same));
      more == if (r.stream == spotlit) == same then front + multiset{r} else front
  {
    assert (rows + [r])[..|rows|] == rows;
    assert Pick(rows, spotlit, same) + [] == Pick(rows, spotlit, same);
  }

  lemma {:induction false} PickedAndTheRest(rows: seq<Row>, spotlit: string)
    ensures multiset(Pick(rows, spotlit, true)) + multiset(Pick(rows, spotlit, false)) == multiset(rows)
  {
    hide Pick;
    if rows == [] {
      NobodyPicked(spotlit);
    } else {
      var front, r := rows[..|rows| - 1], rows[|rows| - 1];
      PickedAndTheRest(front, spotlit);
      PickOneMore(front, r, spotlit, true);
      PickOneMore(front, r, spotlit, false);
      assert rows == front + [r];
      assert multiset(rows) == multiset(front) + multiset{r};
    }
  }

  lemma NobodyPicked(spotlit: string)
    ensures Pick([], spotlit, true) == [] && Pick([], spotlit, false) == []
  {
  }

  lemma {:induction false} PickedStreams(rows: seq<Row>, spotlit: string, same: bool)
    ensures forall r :: r in Pick(rows, spotlit, same) <==> r in rows && (r.stream == spotlit) == same
  {
    if rows != [] {
      var n := |rows| - 1;
      PickedStreams(rows[..n], spotlit, same);
      assert rows == rows[..n] + [rows[n]];
    }
  }

  /** Whoever is spotlit is in the call: the big tile has a row, and nobody is lost or shown twice. */
  lemma SpotlightShowsEveryone(rows: seq<Row>, isLocal: seq<bool>, group: bool, choice: Choice, speaker: string,
                               shown: set<string>)
    requires |isLocal| == |rows|
    ensures
      var spotlit, roster := Spotlit(rows, isLocal, group, choice, speaker), Ringed(rows, shown);
      var big, strip := SpotlightRows(roster, spotlit), StripRows(roster, spotlit);
      if spotlit == "" then big == strip == []
      else
        && big != [] && multiset(big) + multiset(strip) == multiset(roster)
        && (forall r :: r in big ==> r.stream == spotlit) && (forall r :: r in strip ==> r.stream != spotlit)
  {
    var spotlit, roster := Spotlit(rows, isLocal, group, choice, speaker), Ringed(rows, shown);
    SpotlitIsInCall(rows, isLocal, group, choice, speaker);
    hide Spotlit, Pick;
    if spotlit != "" {
      var i :| 0 <= i < |rows| && rows[i].stream == spotlit;
      PickedAndTheRest(roster, spotlit);
      PickedStreams(roster, spotlit, true);
      PickedStreams(roster, spotlit, false);
      assert roster[i].stream == spotlit && roster[i] in Pick(roster, spotlit, true);
    }
  }

  /** What is drawn of the picked rows depends only on what is drawn of the rows. */
  lemma OneMoreTile(rows: seq<Row>, r: Row, phone: bool)
    ensures Tiles(rows + [r], phone) == Tiles(rows, phone) + [TileOf(r, phone)]
  {
  }

  lemma {:induction false} PickFollowsTiles(a: seq<Row>, b: seq<Row>, spotlit: string, same: bool, phone: bool)
    requires Tiles(a, phone) == Tiles(b, phone)
    ensures Tiles(Pick(a, spotlit, same), phone) == Tiles(Pick(b, spotlit, same), phone)
  {
    hide TileOf, Tiles;
    assert |Tiles(a, phone)| == |Tiles(b, phone)|;
    if a != [] {
      var n := |a| - 1;
      assert Tiles(a, phone)[n] == Tiles(b, phone)[n];
      assert Tiles(a[..n], phone) == Tiles(a, phone)[..n];
      assert Tiles(b[..n], phone) == Tiles(b, phone)[..n];
      SameTileSameStream(a[n], b[n], phone);
      PickFollowsTiles(a[..n], b[..n], spotlit, same, phone);
      var front, rest := Pick(a[..n], spotlit, same), Pick(b[..n], spotlit, same);
      OneMoreTile(front, a[n], phone);
      OneMoreTile(rest, b[n], phone);
      assert front + [] == front && rest + [] == rest;
    }
  }

  lemma SameTileSameStream(a: Row, b: Row, phone: bool)
    requires TileOf(a, phone) == TileOf(b, phone)
    ensures a.stream == b.stream
  {
    assert TileOf(a, phone).stream == TileOf(b, phone).stream;
  }

  // ----- Capture and classification -----

  function Capture(c: Chrome): Layer {
    Layer(c.identity, c.controls, c.page, c.story, c.labels, RosterKey(c.roster), c.parts,
          if c.page.phone then SpeakingKey(c.roster) else "", c.levels)
  }

  datatype Update = None | DirtyOnly | Remount | LevelsOnly | PartsOnly

  function StatusKind(s: string): nat {
    if s == "" then 0 else if '0' <= s[0] <= '9' then 1 else 2
  }

  predicate StatusLabelChanged(synced: string, next: string) {
    synced != next && (StatusKind(synced) != StatusKind(next) || StatusKind(synced) == 2)
  }

  predicate MetersOnScreen(l: Layer) {
    l.identity.inCallActive && l.controls.mode == Expanded && !l.controls.showRoster && !l.page.phone
  }

  function Classify(synced: Layer, next: Layer): Update {
    if synced.identity != next.identity then Remount
    else if synced.controls != next.controls then Remount
    else if synced.page != next.page || (next.page.sheetOpen && synced.story != next.story) then Remount
    else if StatusLabelChanged(synced.parts.subtitle, next.parts.subtitle) then Remount
    else if synced.labels != next.labels || synced.roster != next.roster then DirtyOnly
    else if synced.parts != next.parts || synced.speaking != next.speaking then PartsOnly
    else if synced.levels != next.levels then if MetersOnScreen(next) then LevelsOnly else None
    else None
  }

  /** A layer with what is off the screen blanked: meters that do not show, the lines of a closed sheet. */
  function Seen(l: Layer): Layer {
    l.(levels := if MetersOnScreen(l) then l.levels else Levels(0, 0, "", ""),
       story := if l.page.sheetOpen then l.story else Story([], ""))
  }

  /** No update exactly when nothing on the screen differs. */
  lemma NoneIffNothingSeenDiffers(synced: Layer, next: Layer)
    ensures Classify(synced, next) == None <==> Seen(synced) == Seen(next)
  {
    assert Seen(synced).identity == synced.identity && Seen(next).identity == next.identity;
    assert Seen(synced).controls == synced.controls && Seen(next).controls == next.controls;
    assert Seen(synced).page == synced.page && Seen(next).page == next.page;
    assert Seen(synced).labels == synced.labels && Seen(next).labels == next.labels;
    assert Seen(synced).roster == synced.roster && Seen(next).roster == next.roster;
    assert Seen(synced).parts == synced.parts && Seen(next).parts == next.parts;
    assert Seen(synced).speaking == synced.speaking && Seen(next).speaking == next.speaking;
  }

  // ----- The shell -----

  datatype MeterVar = MicLevel | PeerLevel | MicHint | PeerHint

  datatype PartVar =
    | Subtitle | Elapsed | QualityBars | QualityOk | QualityWarn | QualityError | QualityLabel | QualityHint
    | ResultText | ResultFading | SignalShown | SignalBars | SignalTone | SignalWord | NoticeText | NoticeWarn
    | NoticeFading | ShowDebugSubtitle | DebugSubtitle

  datatype RowsVar = RosterRows | SpotlitRows | StripLineRows

  /** Both layers' bound fields that the gate calls labels. */
  datatype LabelVar =
    | StatusHint | CallerLabel | MediaLabel | Title | Muted | CameraOn | CameraFront | SpeakerOn | RemoteVideo
    | LocalPreview | PeerLabel | RemotePlaceholder | ParticipantCount | Pulse | Conflict | Eyebrow | ConflictHint
    | AcceptLabel | VoiceAnswerLabel | DeclineLabel | PricingLabel | AcceptChargeLabel | AcceptChargeHint
    | AcceptShort | VoiceShort

  /** The window-model variables of the call chrome that are redrawn where they stand. */
  datatype Variable = Meter(meter: MeterVar) | Part(part: PartVar) | Rows(rows: RowsVar) | Label(field: LabelVar)

  predicate MeterDiffers(v: MeterVar, p: Levels, q: Levels) {
    match v
    case MicLevel => p.mic != q.mic
    case PeerLevel => p.peer != q.peer
    case MicHint => p.micHint != q.micHint
    case PeerHint => p.peerHint != q.peerHint
  }

  predicate PartDiffers(v: PartVar, p: Parts, q: Parts) {
    match v
    case Subtitle => p.subtitle != q.subtitle
    case Elapsed => p.elapsed != q.elapsed
    case QualityBars => p.qualityBars != q.qualityBars
    case QualityOk => p.qualityOk != q.qualityOk
    case QualityWarn => p.qualityWarn != q.qualityWarn
    case QualityError => p.qualityError != q.qualityError
    case QualityLabel => p.qualityLabel != q.qualityLabel
    case QualityHint => p.qualityHint != q.qualityHint
    case ResultText => p.resultText != q.resultText
    case ResultFading => p.resultFading != q.resultFading
    case SignalShown => p.signalShown != q.signalShown
    case SignalBars => p.signalBars != q.signalBars
    case SignalTone => p.signalTone != q.signalTone
    case SignalWord => p.signalWord != q.signalWord
    case NoticeText => p.noticeText != q.noticeText
    case NoticeWarn => p.noticeWarn != q.noticeWarn
    case NoticeFading => p.noticeFading != q.noticeFading
    case ShowDebugSubtitle => p.showDebugSubtitle != q.showDebugSubtitle
    case DebugSubtitle => p.debugSubtitle != q.debugSubtitle
  }

  predicate RowsDiffer(v: RowsVar, before: Chrome, after: Chrome) {
    match v
    case RosterRows => RingsDiffer(before.roster, after.roster)
    case SpotlitRows => RingsDiffer(before.spotlightRows, after.spotlightRows)
    case StripLineRows => RingsDiffer(before.stripRows, after.stripRows)
  }

  /** Whether the value behind a variable differs, as the list of changed variables sees it: labels are not on it. */
  predicate Differs(v: Variable, before: Chrome, after: Chrome) {
    match v
    case Meter(m) => MeterDiffers(m, before.levels, after.levels)
    case Part(p) => PartDiffers(p, before.parts, after.parts)
    case Rows(r) => RowsDiffer(r, before, after)
    case Label(_) => false
  }

  const VARIABLES: seq<Variable> := [
    Meter(MicLevel), Meter(PeerLevel), Meter(MicHint), Meter(PeerHint), Part(Subtitle), Part(Elapsed),
    Part(QualityBars), Part(QualityOk), Part(QualityWarn), Part(QualityError), Part(QualityLabel), Part(QualityHint),
    Part(ResultText), Part(ResultFading), Part(SignalShown), Part(SignalBars), Part(SignalTone), Part(SignalWord),
    Part(NoticeText), Part(NoticeWarn), Part(NoticeFading), Part(ShowDebugSubtitle), Part(DebugSubtitle),
    Rows(RosterRows), Rows(SpotlitRows), Rows(StripLineRows)]

  /** The variables that differ, in the order they are listed. */
  method ChangedVariables(before: Chrome, after: Chrome) returns (out: seq<Variable>)
    ensures forall v :: v in out <==> v in VARIABLES && Differs(v, before, after)
    ensures |out| <= |VARIABLES|
  {
    out := [];
    for i := 0 to |VARIABLES|
      invariant forall v :: v in out <==> v in VARIABLES[..i] && Differs(v, before, after)
      invariant |out| <= i
    {
      if Differs(VARIABLES[i], before, after) {
        out := out + [VARIABLES[i]];
      }
      assert VARIABLES[..i + 1] == VARIABLES[..i] + [VARIABLES[i]];
    }
    assert VARIABLES[..|VARIABLES|] == VARIABLES;
  }

  /** The variables the shell redraws as the call group; the others on its list are in the markup. */
  const CALL_GROUP: set<Variable> := {
    Label(Pulse), Label(Conflict), Label(CallerLabel), Label(MediaLabel), Label(Eyebrow), Label(ConflictHint),
    Label(AcceptLabel), Label(VoiceAnswerLabel), Label(DeclineLabel), Label(PricingLabel), Label(AcceptChargeLabel),
    Label(AcceptChargeHint), Label(AcceptShort), Label(VoiceShort), Label(Title), Part(Subtitle), Label(StatusHint),
    Meter(MicLevel), Meter(PeerLevel), Meter(MicHint), Meter(PeerHint), Label(Muted), Label(CameraOn),
    Label(CameraFront), Label(SpeakerOn), Label(RemoteVideo), Label(LocalPreview), Part(Elapsed), Label(PeerLabel),
    Label(RemotePlaceholder), Label(ParticipantCount), Rows(RosterRows), Rows(SpotlitRows), Rows(StripLineRows),
    Part(QualityBars), Part(QualityOk), Part(QualityWarn), Part(QualityError), Part(QualityLabel), Part(QualityHint),
    Part(ShowDebugSubtitle), Part(DebugSubtitle), Part(ResultText), Part(ResultFading), Part(SignalShown),
    Part(SignalBars), Part(SignalTone), Part(SignalWord), Part(NoticeText), Part(NoticeWarn), Part(NoticeFading)}

  ghost function CallGroup(): iset<Variable> { iset v: Variable | v in CALL_GROUP }

  ghost function ChangedSet(before: Chrome, after: Chrome): iset<Variable> {
    iset v: Variable | Differs(v, before, after)
  }

  function RedrawnLevels(p: Levels, q: Levels, vars: iset<Variable>): Levels {
    Levels(
      if Meter(MicLevel) in vars then q.mic else p.mic,
      if Meter(PeerLevel) in vars then q.peer else p.peer,
      if Meter(MicHint) in vars then q.micHint else p.micHint,
      if Meter(PeerHint) in vars then q.peerHint else p.peerHint)
  }

  function RedrawnParts(p: Parts, q: Parts, vars: iset<Variable>): Parts {
    Parts(
      if Part(Subtitle) in vars then q.subtitle else p.subtitle,
      if Part(Elapsed) in vars then q.elapsed else p.elapsed,
      if Part(QualityBars) in vars then q.qualityBars else p.qualityBars,
      if Part(QualityOk) in vars then q.qualityOk else p.qualityOk,
      if Part(QualityWarn) in vars then q.qualityWarn else p.qualityWarn,
      if Part(QualityError) in vars then q.qualityError else p.qualityError,
      if Part(QualityLabel) in vars then q.qualityLabel else p.qualityLabel,
      if Part(QualityHint) in vars then q.qualityHint else p.qualityHint,
      if Part(ResultText) in vars then q.resultText else p.resultText,
      if Part(ResultFading) in vars then q.resultFading else p.resultFading,
      if Part(SignalShown) in vars then q.signalShown else p.signalShown,
      if Part(SignalBars) in vars then q.signalBars else p.signalBars,
      if Part(SignalTone) in vars then q.signalTone else p.signalTone,
      if Part(SignalWord) in vars then q.signalWord else p.signalWord,
      if Part(NoticeText) in vars then q.noticeText else p.noticeText,
      if Part(NoticeWarn) in vars then q.noticeWarn else p.noticeWarn,
      if Part(NoticeFading) in vars then q.noticeFading else p.noticeFading,
      if Part(ShowDebugSubtitle) in vars then q.showDebugSubtitle else p.showDebugSubtitle,
      if Part(DebugSubtitle) in vars then q.debugSubtitle else p.debugSubtitle)
  }

  function RedrawnLabels(p: Labels, q: Labels, vars: iset<Variable>): Labels {
    Labels(
      if Label(StatusHint) in vars then q.statusHint else p.statusHint,
      if Label(CallerLabel) in vars then q.callerLabel else p.callerLabel,
      if Label(MediaLabel) in vars then q.mediaLabel else p.mediaLabel,
      if Label(Title) in vars then q.title else p.title,
      if Label(Muted) in vars then q.muted else p.muted,
      if Label(CameraOn) in vars then q.cameraOn else p.cameraOn,
      if Label(CameraFront) in vars then q.cameraFront else p.cameraFront,
      if Label(SpeakerOn) in vars then q.speakerOn else p.speakerOn,
      if Label(RemoteVideo) in vars then q.remoteVideo else p.remoteVideo,
      if Label(LocalPreview) in vars then q.localPreview else p.localPreview,
      if Label(PeerLabel) in vars then q.peerLabel else p.peerLabel,
      if Label(RemotePlaceholder) in vars then q.remotePlaceholder else p.remotePlaceholder,
      if Label(ParticipantCount) in vars then q.participantCount else p.participantCount,
      if Label(Pulse) in vars then q.pulse else p.pulse,
      if Label(Conflict) in vars then q.conflict else p.conflict,
      if Label(Eyebrow) in vars then q.eyebrow else p.eyebrow,
      if Label(ConflictHint) in vars then q.conflictHint else p.conflictHint,
      if Label(AcceptLabel) in vars then q.acceptLabel else p.acceptLabel,
      if Label(VoiceAnswerLabel) in vars then q.voiceAnswerLabel else p.voiceAnswerLabel,
      if Label(DeclineLabel) in vars then q.declineLabel else p.declineLabel,
      if Label(PricingLabel) in vars then q.pricingLabel else p.pricingLabel,
      if Label(AcceptChargeLabel) in vars then q.acceptChargeLabel else p.acceptChargeLabel,
      if Label(AcceptChargeHint) in vars then q.acceptChargeHint else p.acceptChargeHint,
      if Label(AcceptShort) in vars then q.acceptShort else p.acceptShort,
      if Label(VoiceShort) in vars then q.voiceShort else p.voiceShort)
  }

  /** What was drawn, with the variables `vars` drawn again from `now`. */
  function Redrawn(drawn: Chrome, now: Chrome, vars: iset<Variable>): Chrome {
    drawn.(
      labels := RedrawnLabels(drawn.labels, now.labels, vars),
      parts := RedrawnParts(drawn.parts, now.parts, vars),
      levels := RedrawnLevels(drawn.levels, now.levels, vars),
      roster := if Rows(RosterRows) in vars then now.roster else drawn.roster,
      spotlightRows := if Rows(SpotlitRows) in vars then now.spotlightRows else drawn.spotlightRows,
      stripRows := if Rows(StripLineRows) in vars then now.stripRows else drawn.stripRows)
  }

  /** `state`: what the shell's window model holds; `drawn`: the values each part of the screen was last drawn with. */
  datatype Shell = Shell(state: Chrome, drawn: Chrome)

  /** The shell takes a snapshot and redraws as the update says. */
  ghost function Applied(shell: Shell, next: Chrome, update: Update): Shell {
    var drawn := match update
      case None => shell.drawn
      case Remount => next
      case DirtyOnly => Redrawn(shell.drawn, next, CallGroup())
      case LevelsOnly => Redrawn(shell.drawn, next, ChangedSet(shell.state, next))
      case PartsOnly => Redrawn(shell.drawn, next, ChangedSet(shell.state, next));
    Shell(next, drawn)
  }

  // ----- The gate -----

  const LEVEL_INTERVAL_MS: int := 200

  datatype Gate = Gate(synced: Layer, lastLevels: int, levelsPushed: bool)

  function Decision(g: Gate, next: Layer, now: int): (Gate, Update) {
    var update := Classify(g.synced, next);
    if update == LevelsOnly then
      if g.levelsPushed && now - g.lastLevels < LEVEL_INTERVAL_MS then (g, None)
      else (Gate(next, now, true), update)
    else (g.(synced := next), update)
  }

  class CallChromeSyncGate {
    var synced: Layer
    var lastLevels: int
    var levelsPushed: bool

    ghost function State(): Gate
      reads this
    {
      Gate(synced, lastLevels, levelsPushed)
    }

    constructor ()
      ensures State() == Gate(NO_LAYER, 0, false)
    {
      synced := NO_LAYER;
      lastLevels := 0;
      levelsPushed := false;
    }

    method Decide(next: Layer, now: int) returns (update: Update)
      modifies this
      ensures (State(), update) == Decision(old(State()), next, now)
    {
      update := Classify(synced, next);
      if update == LevelsOnly {
        if levelsPushed && now - lastLevels < LEVEL_INTERVAL_MS {
          return None;
        }
        lastLevels := now;
        levelsPushed := true;
      }
      synced := next;
    }
  }

  // ----- Runs -----

  const NO_CHROME := Chrome(
    Identity(false, false, "", ""),
    Controls(false, true, false, false, false, "", "", "", false, false, false, false, Expanded, "", true, 0, false,
             false),
    Page(false, "", "", "", "", false, "", false, "", false, 0, "", false),
    Story([], ""),
    Labels("", "", "", "", false, false, false, false, false, false, "", "", 0, false, false, "", "", "", "", "", "",
           "", "", "", ""),
    [], [], [],
    Parts("", "", 4, true, false, false, "", "", "", false, false, 4, 0, "", "", false, false, false, ""),
    Levels(0, 0, "", ""))

  const NO_LAYER := Capture(NO_CHROME)

  datatype World = World(gate: Gate, shell: Shell)

  /** One poll of the presenter's state `c` at time `now`. */
  datatype Poll = Poll(c: Chrome, now: int)

  ghost function UpdateOf(w: World, p: Poll): Update { Decision(w.gate, Capture(p.c), p.now).1 }

  ghost function Polled(w: World, p: Poll): World {
    var (gate, update) := Decision(w.gate, Capture(p.c), p.now);
    World(gate, if update == None then w.shell else Applied(w.shell, p.c, update))
  }

  ghost function Run(polls: seq<Poll>): World {
    if polls == [] then World(Gate(NO_LAYER, 0, false), Shell(NO_CHROME, NO_CHROME))
    else Polled(Run(polls[..|polls| - 1]), polls[|polls| - 1])
  }

  /** What is on the screen when it was drawn with `c`. */
  datatype View = View(
    identity: Identity, controls: Controls, page: Page, labels: Labels, parts: Parts, roster: seq<Tile>,
    spotlit: seq<Tile>, strip: seq<Tile>, levels: Levels, story: Story)

  predicate MetersOn(c: Chrome) {
    c.identity.inCallActive && c.controls.mode == Expanded && !c.controls.showRoster && !c.page.phone
  }

  function ViewOf(c: Chrome): View {
    View(c.identity, c.controls, c.page, c.labels, c.parts, Tiles(c.roster, c.page.phone),
         Tiles(c.spotlightRows, c.page.phone), Tiles(c.stripRows, c.page.phone),
         if MetersOn(c) then c.levels else Levels(0, 0, "", ""),
         if c.page.sheetOpen then c.story else Story([], ""))
  }

  /**
   * What the presenter hands over: proper rows, rings by stream, one count per row, and the rows split by the
   * spotlight (see ApplySpotlight). `bars` as in RosterKeys: whether the path of a photo may hold a bar.
   */
  predicate Consistent(c: Chrome, bars: bool) {
    && AllProper(c.roster, bars) && RingsByStream(c.roster)
    && c.labels.participantCount == |c.roster|
    && c.spotlightRows == SpotlightRows(c.roster, c.controls.spotlight)
    && c.stripRows == StripRows(c.roster, c.controls.spotlight)
  }

  predicate WellFormed(c: Chrome, bars: bool) { Consistent(c, bars) && Clear(c.roster, bars) }

  /** What the shell drew agrees with what it holds, and what it holds with what the gate believes. */
  ghost predicate InSync(w: World, bars: bool) {
    var s, d, g := w.shell.state, w.shell.drawn, w.gate.synced;
    && WellFormed(s, bars)
    && Seen(Capture(s)) == Seen(g)
    && ViewOf(d) == ViewOf(s)
    && d.levels == s.levels
  }

  /** Rows drawn alike before and after: equal keys give equal tiles in all three arrays. */
  lemma RowsFollowKeys(a: Chrome, b: Chrome, bars: bool)
    requires WellFormed(a, bars) && Consistent(b, bars)
    requires a.page.phone == b.page.phone && a.controls.spotlight == b.controls.spotlight && a.labels == b.labels
    requires Capture(a).roster == Capture(b).roster && Capture(a).speaking == Capture(b).speaking
    ensures Tiles(a.roster, a.page.phone) == Tiles(b.roster, b.page.phone)
    ensures Tiles(a.spotlightRows, a.page.phone) == Tiles(b.spotlightRows, b.page.phone)
    ensures Tiles(a.stripRows, a.page.phone) == Tiles(b.stripRows, b.page.phone)
  {
    RosterKeyFaithful(a.roster, b.roster, bars);
    if a.page.phone {
      RingChangesShow(a.roster, b.roster, bars);
    }
    hide Tiles, RosterKey, SpeakingKey, AllProper, Clear, RingsByStream;
    PickFollowsTiles(a.roster, b.roster, a.controls.spotlight, true, a.page.phone);
    PickFollowsTiles(a.roster, b.roster, a.controls.spotlight, false, a.page.phone);
  }

  /** Equal layers, as far as they are seen, are equal screens. */
  lemma SameSeenSameView(a: Chrome, b: Chrome, bars: bool)
    requires WellFormed(a, bars) && Consistent(b, bars)
    requires Seen(Capture(a)) == Seen(Capture(b))
    ensures ViewOf(a) == ViewOf(b)
  {
    var x, y := Seen(Capture(a)), Seen(Capture(b));
    assert x.identity == y.identity && x.controls == y.controls && x.page == y.page;
    assert x.roster == y.roster && x.speaking == y.speaking && x.labels == y.labels && x.parts == y.parts;
    assert x.levels == y.levels && x.story == y.story;
    RowsFollowKeys(a, b, bars);
  }

  /** An array whose rings did not change needs no redraw when the rest of its rows is the same. */
  lemma UnchangedRingsUnchangedTiles(a: seq<Row>, b: seq<Row>, phone: bool)
    requires Tiles(a, false) == Tiles(b, false)
    requires !RingsDiffer(a, b)
    ensures Tiles(a, phone) == Tiles(b, phone)
  {
    forall i | 0 <= i < |a| ensures Tiles(a, phone)[i] == Tiles(b, phone)[i] {
      assert Tiles(a, false)[i] == Tiles(b, false)[i];
    }
  }

  /** Tiles without rings, of all three arrays, follow the roster key alone. */
  lemma PlainRowsFollowKey(a: Chrome, b: Chrome, bars: bool)
    requires WellFormed(a, bars) && Consistent(b, bars) && a.labels == b.labels
    requires a.controls.spotlight == b.controls.spotlight && Capture(a).roster == Capture(b).roster
    ensures Tiles(a.roster, false) == Tiles(b.roster, false)
    ensures Tiles(a.spotlightRows, false) == Tiles(b.spotlightRows, false)
    ensures Tiles(a.stripRows, false) == Tiles(b.stripRows, false)
  {
    RosterKeyFaithful(a.roster, b.roster, bars);
    hide Tiles, RosterKey, SpeakingKey, AllProper, Clear, RingsByStream;
    PickFollowsTiles(a.roster, b.roster, a.controls.spotlight, true, false);
    PickFollowsTiles(a.roster, b.roster, a.controls.spotlight, false, false);
  }

  lemma ClockVars(p: Parts, q: Parts)
    ensures PartDiffers(Subtitle, p, q) <==> p.subtitle != q.subtitle
    ensures PartDiffers(Elapsed, p, q) <==> p.elapsed != q.elapsed
    ensures PartDiffers(ResultText, p, q) <==> p.resultText != q.resultText
    ensures PartDiffers(ResultFading, p, q) <==> p.resultFading != q.resultFading
  {
  }

  lemma QualityVars(p: Parts, q: Parts)
    ensures PartDiffers(QualityBars, p, q) <==> p.qualityBars != q.qualityBars
    ensures PartDiffers(QualityOk, p, q) <==> p.qualityOk != q.qualityOk
    ensures PartDiffers(QualityWarn, p, q) <==> p.qualityWarn != q.qualityWarn
    ensures PartDiffers(QualityError, p, q) <==> p.qualityError != q.qualityError
  {
  }

  lemma SubtitleVars(p: Parts, q: Parts)
    ensures PartDiffers(QualityLabel, p, q) <==> p.qualityLabel != q.qualityLabel
    ensures PartDiffers(QualityHint, p, q) <==> p.qualityHint != q.qualityHint
    ensures PartDiffers(ShowDebugSubtitle, p, q) <==> p.showDebugSubtitle != q.showDebugSubtitle
    ensures PartDiffers(DebugSubtitle, p, q) <==> p.debugSubtitle != q.debugSubtitle
  {
  }

  lemma SignalVars(p: Parts, q: Parts)
    ensures PartDiffers(SignalShown, p, q) <==> p.signalShown != q.signalShown
    ensures PartDiffers(SignalBars, p, q) <==> p.signalBars != q.signalBars
    ensures PartDiffers(SignalTone, p, q) <==> p.signalTone != q.signalTone
    ensures PartDiffers(SignalWord, p, q) <==> p.signalWord != q.signalWord
  {
  }

  lemma NoticeVars(p: Parts, q: Parts)
    ensures PartDiffers(NoticeText, p, q) <==> p.noticeText != q.noticeText
    ensures PartDiffers(NoticeWarn, p, q) <==> p.noticeWarn != q.noticeWarn
    ensures PartDiffers(NoticeFading, p, q) <==> p.noticeFading != q.noticeFading
  {
  }

  /** Parts: drawing the ones that differ draws them all. */
  lemma PartsAreCovered(p: Parts, q: Parts, vars: iset<Variable>)
    requires forall v: PartVar :: PartDiffers(v, p, q) ==> Part(v) in vars
    ensures RedrawnParts(p, q, vars) == q
  {
    hide PartDiffers;
    ClockVars(p, q);
    QualityVars(p, q);
    SubtitleVars(p, q);
    SignalVars(p, q);
    NoticeVars(p, q);
  }

  /** Meters: drawing the ones that differ draws them all. */
  lemma MetersAreCovered(p: Levels, q: Levels, vars: iset<Variable>)
    requires forall v: MeterVar :: MeterDiffers(v, p, q) ==> Meter(v) in vars
    ensures RedrawnLevels(p, q, vars) == q
  {
    assert MeterDiffers(MicLevel, p, q) <==> p.mic != q.mic;
    assert MeterDiffers(PeerLevel, p, q) <==> p.peer != q.peer;
    assert MeterDiffers(MicHint, p, q) <==> p.micHint != q.micHint;
    assert MeterDiffers(PeerHint, p, q) <==> p.peerHint != q.peerHint;
  }

  /** The roster arrays: one whose rings did not change is drawn as it would be now. */
  lemma RowsAreCovered(drawn: Chrome, before: Chrome, after: Chrome, phone: bool, bars: bool)
    requires WellFormed(before, bars) && Consistent(after, bars) && before.labels == after.labels
    requires before.controls.spotlight == after.controls.spotlight
    requires Capture(before).roster == Capture(after).roster
    requires Tiles(drawn.roster, phone) == Tiles(before.roster, phone)
    requires Tiles(drawn.spotlightRows, phone) == Tiles(before.spotlightRows, phone)
    requires Tiles(drawn.stripRows, phone) == Tiles(before.stripRows, phone)
    ensures
      var d := Redrawn(drawn, after, ChangedSet(before, after));
      && Tiles(d.roster, phone) == Tiles(after.roster, phone)
      && Tiles(d.spotlightRows, phone) == Tiles(after.spotlightRows, phone)
      && Tiles(d.stripRows, phone) == Tiles(after.stripRows, phone)
  {
    PlainRowsFollowKey(before, after, bars);
    hide RosterKey, RingsDiffer, WellFormed, Consistent, Capture, Tiles, RedrawnParts, RedrawnLevels, RedrawnLabels;
    var vars := ChangedSet(before, after);
    assert Rows(RosterRows) in vars <==> RowsDiffer(RosterRows, before, after);
    assert Rows(SpotlitRows) in vars <==> RowsDiffer(SpotlitRows, before, after);
    assert Rows(StripLineRows) in vars <==> RowsDiffer(StripLineRows, before, after);
    if !RowsDiffer(RosterRows, before, after) {
      UnchangedRingsUnchangedTiles(before.roster, after.roster, phone);
    }
    if !RowsDiffer(SpotlitRows, before, after) {
      UnchangedRingsUnchangedTiles(before.spotlightRows, after.spotlightRows, phone);
    }
    if !RowsDiffer(StripLineRows, before, after) {
      UnchangedRingsUnchangedTiles(before.stripRows, after.stripRows, phone);
    }
  }

  /**
   * The changed variables cover every difference: drawing them alone gives the screen of a full redraw, whenever
   * the gate asked for LevelsOnly or PartsOnly.
   */
  lemma ChangedVariablesCover(w: World, c: Chrome, bars: bool)
    requires InSync(w, bars) && Consistent(c, bars)
    requires Classify(w.gate.synced, Capture(c)) in {PartsOnly, LevelsOnly}
    ensures
      var d := Redrawn(w.shell.drawn, c, ChangedSet(w.shell.state, c));
      ViewOf(d) == ViewOf(c) && d.levels == c.levels
  {
    var s, d := w.shell.state, w.shell.drawn;
    SyncedFields(w, bars);
    PartialUpdateFields(w.gate.synced, Capture(c));
    assert c.identity == s.identity && c.controls == s.controls && c.page == s.page && c.labels == s.labels;
    assert Capture(s).roster == Capture(c).roster;
    SameLabelsRedrawn(d.labels, c.labels, ChangedSet(s, c));
    hide InSync, Classify, Capture, WellFormed, Consistent, Tiles, RedrawnParts, RedrawnLevels, RedrawnLabels;
    RowsAreCovered(d, s, c, c.page.phone, bars);
    PartsAndMetersAreCovered(s, c);
    hide ChangedSet;
  }

  lemma SameLabelsRedrawn(p: Labels, q: Labels, vars: iset<Variable>)
    requires p == q
    ensures RedrawnLabels(p, q, vars) == q
  {
  }

  lemma PartialUpdateFields(a: Layer, b: Layer)
    requires Classify(a, b) in {PartsOnly, LevelsOnly}
    ensures a.identity == b.identity && a.controls == b.controls && a.page == b.page && a.labels == b.labels
    ensures a.roster == b.roster && (b.page.sheetOpen ==> a.story == b.story)
  {
  }

  lemma LevelsOnlyFields(a: Layer, b: Layer)
    requires Classify(a, b) == LevelsOnly
    ensures a.parts == b.parts && a.speaking == b.speaking && MetersOnScreen(b)
  {
  }

  lemma PartsAndMetersAreCovered(s: Chrome, c: Chrome)
    ensures RedrawnParts(s.parts, c.parts, ChangedSet(s, c)) == c.parts
    ensures RedrawnLevels(s.levels, c.levels, ChangedSet(s, c)) == c.levels
  {
    var vars := ChangedSet(s, c);
    hide MeterDiffers, PartDiffers, RowsDiffer, RedrawnParts, RedrawnLevels;
    assert forall v: PartVar :: Part(v) in vars <==> PartDiffers(v, s.parts, c.parts);
    assert forall v: MeterVar :: Meter(v) in vars <==> MeterDiffers(v, s.levels, c.levels);
    PartsAreCovered(s.parts, c.parts, vars);
    MetersAreCovered(s.levels, c.levels, vars);
  }

  /** What being in sync means field by field. */
  lemma SyncedFields(w: World, bars: bool)
    requires InSync(w, bars)
    ensures
      var s, d, g := w.shell.state, w.shell.drawn, w.gate.synced;
      && d.identity == s.identity == g.identity && d.controls == s.controls == g.controls
      && d.page == s.page == g.page && d.labels == s.labels == g.labels && d.parts == s.parts == g.parts
      && Capture(s).roster == g.roster && Capture(s).speaking == g.speaking
      && (s.page.sheetOpen ==> d.story == s.story == g.story)
      && (MetersOn(s) ==> s.levels == g.levels)
      && Tiles(d.roster, s.page.phone) == Tiles(s.roster, s.page.phone)
      && Tiles(d.spotlightRows, s.page.phone) == Tiles(s.spotlightRows, s.page.phone)
      && Tiles(d.stripRows, s.page.phone) == Tiles(s.stripRows, s.page.phone)
  {
    var s, d, g := w.shell.state, w.shell.drawn, w.gate.synced;
    var x, y, v, u := Seen(Capture(s)), Seen(g), ViewOf(d), ViewOf(s);
    hide Tiles, WellFormed;
    assert x.identity == y.identity && x.controls == y.controls && x.page == y.page && x.labels == y.labels;
    assert x.roster == y.roster && x.parts == y.parts && x.levels == y.levels && x.story == y.story;
    assert x.speaking == y.speaking;
    assert v.identity == u.identity && v.controls == u.controls && v.page == u.page && v.labels == u.labels;
    assert v.parts == u.parts && v.roster == u.roster && v.spotlit == u.spotlit && v.strip == u.strip;
    assert v.levels == u.levels && v.story == u.story;
  }

  /** Meters that show may lag while the last meter push is under 200 ms old; nothing else may. */
  ghost predicate MetersLag(w: World, p: Poll) {
    && MetersOn(p.c) && w.gate.levelsPushed && p.now - w.gate.lastLevels < LEVEL_INTERVAL_MS
    && ViewOf(w.shell.drawn).(levels := p.c.levels) == ViewOf(p.c)
  }

  /** One poll: the screen shows the polled chrome, or all of it but meters held back. */
  lemma PollShows(w: World, p: Poll, bars: bool)
    requires InSync(w, bars) && WellFormed(p.c, bars)
    ensures InSync(Polled(w, p), bars)
    ensures ViewOf(Polled(w, p).shell.drawn) == ViewOf(p.c) || MetersLag(Polled(w, p), p)
  {
    var s, d, g, next := w.shell.state, w.shell.drawn, w.gate.synced, Capture(p.c);
    hide CallGroup, RedrawnParts, RedrawnLevels, RedrawnLabels, ChangedSet;
    NoneIffNothingSeenDiffers(g, next);
    match Classify(g, next)
    case None =>
      SameSeenSameView(s, p.c, bars);
    case Remount =>
    case DirtyOnly =>
      SyncedFields(w, bars);
      AllDrawnAgain(d, p.c);
    case PartsOnly =>
      ChangedVariablesCover(w, p.c, bars);
    case LevelsOnly =>
      if UpdateOf(w, p) == None {
        HeldShows(w, p.c, bars);
      } else {
        ChangedVariablesCover(w, p.c, bars);
      }
  }

  lemma LabelsAreInTheGroup(v: LabelVar)
    ensures Label(v) in CALL_GROUP
  {
    match v
    case StatusHint | CallerLabel | MediaLabel | Title | Muted | CameraOn | CameraFront | SpeakerOn
      | RemoteVideo | LocalPreview | PeerLabel | RemotePlaceholder | ParticipantCount | Pulse | Conflict
      | Eyebrow | ConflictHint | AcceptLabel | VoiceAnswerLabel | DeclineLabel | PricingLabel
      | AcceptChargeLabel | AcceptChargeHint | AcceptShort | VoiceShort =>
  }

  lemma PartsAreInTheGroup(v: PartVar)
    ensures Part(v) in CALL_GROUP
  {
    match v
    case Subtitle | Elapsed | QualityBars | QualityOk | QualityWarn | QualityError | QualityLabel | QualityHint
      | ResultText | ResultFading | SignalShown | SignalBars | SignalTone | SignalWord | NoticeText | NoticeWarn
      | NoticeFading | ShowDebugSubtitle | DebugSubtitle =>
  }

  /** The shell's list leaves out no label, part, meter or array of rows. */
  lemma CallGroupIsComplete(v: Variable)
    ensures v in CallGroup()
  {
    match v
    case Label(l) => LabelsAreInTheGroup(l);
    case Part(p) => PartsAreInTheGroup(p);
    case Meter(m) => { match m case MicLevel | PeerLevel | MicHint | PeerHint => }
    case Rows(r) => { match r case RosterRows | SpotlitRows | StripLineRows => }
  }

  lemma AllValuesRedrawn(d: Chrome, c: Chrome, vars: iset<Variable>)
    requires forall v: Variable :: v in vars
    ensures RedrawnLabels(d.labels, c.labels, vars) == c.labels
    ensures RedrawnParts(d.parts, c.parts, vars) == c.parts
    ensures RedrawnLevels(d.levels, c.levels, vars) == c.levels
  {
  }

  lemma AllDrawnAgain(d: Chrome, c: Chrome)
    requires d.identity == c.identity && d.controls == c.controls && d.page == c.page
    requires c.page.sheetOpen ==> d.story == c.story
    ensures
      var e := Redrawn(d, c, CallGroup());
      ViewOf(e) == ViewOf(c) && e.levels == c.levels
  {
    hide Tiles, CallGroup;
    forall v ensures v in CallGroup() {
      CallGroupIsComplete(v);
    }
    AllValuesRedrawn(d, c, CallGroup());
    hide RedrawnLabels, RedrawnParts, RedrawnLevels;
  }

  /** While meters are held back, everything else on the screen is already right. */
  lemma HeldShows(w: World, c: Chrome, bars: bool)
    requires InSync(w, bars) && Consistent(c, bars)
    requires Classify(w.gate.synced, Capture(c)) == LevelsOnly
    ensures ViewOf(w.shell.drawn).(levels := c.levels) == ViewOf(c)
  {
    SyncedFields(w, bars);
    PartialUpdateFields(w.gate.synced, Capture(c));
    LevelsOnlyFields(w.gate.synced, Capture(c));
    hide Classify, RosterKey, SpeakingKey;
    RowsFollowKeys(w.shell.state, c, bars);
    hide Tiles, WellFormed, Consistent, Capture, InSync;
  }

  lemma StartsInSync(bars: bool)
    ensures InSync(Run([]), bars)
  {
  }

  /**
   * The main result: after any sequence of polls the screen is the one a full redraw of the last poll would give;
   * only while the meters show may their values lag, and then the last meter push is under 200 ms old.
   */
  lemma {:induction false} ScreenIsAFullRedraw(polls: seq<Poll>, bars: bool)
    requires forall p :: p in polls ==> WellFormed(p.c, bars)
    ensures InSync(Run(polls), bars)
    ensures polls != [] ==>
      var p, w := polls[|polls| - 1], Run(polls);
      ViewOf(w.shell.drawn) == ViewOf(p.c) || MetersLag(w, p)
  {
    hide WellFormed, InSync, ViewOf, MetersLag, Polled;
    if polls == [] {
      StartsInSync(bars);
    } else {
      var front, p := polls[..|polls| - 1], polls[|polls| - 1];
      ScreenIsAFullRedraw(front, bars);
      PollShows(Run(front), p, bars);
    }
  }

  /** The time of the last meter push is that of the last poll answered LevelsOnly. */
  lemma {:induction false} LastPushIsRemembered(polls: seq<Poll>, i: nat)
    requires i < |polls| && UpdateOf(Run(polls[..i]), polls[i]) == LevelsOnly
    requires forall j, k :: 0 <= j <= k < |polls| ==> polls[j].now <= polls[k].now
    ensures Run(polls).gate.levelsPushed && polls[i].now <= Run(polls).gate.lastLevels
  {
    hide Classify, Capture, Applied;
    var n := |polls| - 1;
    if i < n {
      assert polls[..n][..i] == polls[..i];
      LastPushIsRemembered(polls[..n], i);
    } else {
      assert polls[..n] == polls[..i];
    }
  }

  /** Meter-only pushes are at least 200 ms apart, over every run on a clock that does not step back. */
  lemma MeterPushesAreApart(polls: seq<Poll>, i: nat, j: nat)
    requires i < j < |polls|
    requires forall k, l :: 0 <= k <= l < |polls| ==> polls[k].now <= polls[l].now
    ensures UpdateOf(Run(polls[..i]), polls[i]) == LevelsOnly && UpdateOf(Run(polls[..j]), polls[j]) == LevelsOnly ==>
      polls[j].now - polls[i].now >= LEVEL_INTERVAL_MS
  {
    hide Classify, Capture, Applied, Run;
    if UpdateOf(Run(polls[..i]), polls[i]) == LevelsOnly && UpdateOf(Run(polls[..j]), polls[j]) == LevelsOnly {
      assert polls[..j][..i] == polls[..i];
      LastPushIsRemembered(polls[..j], i);
    }
  }

  // ----- The condition on the rosters is exact -----

  /** Rosters that differ in their rings at most. */
  predicate SameButRings(a: seq<Row>, b: seq<Row>) {
    |a| == |b| && forall i :: 0 <= i < |a| ==> a[i].(speaking := false) == b[i].(speaking := false)
  }

  /** No change of the screen from the roster `rows` on is kept back by the gate. */
  ghost predicate EveryChangeShows(rows: seq<Row>, bars: bool) {
    forall c, d :: Consistent(c, bars) && Consistent(d, bars) && SameButRings(c.roster, rows) ==>
      Classify(Capture(c), Capture(d)) == None ==> ViewOf(c) == ViewOf(d)
  }

  lemma ClearWithoutRings(a: seq<Row>, b: seq<Row>, bars: bool)
    requires SameButRings(a, b) && Clear(b, bars)
    ensures Clear(a, bars)
  {
    hide HoldsHeader, HoldsEnd, HoldsTail;
    forall i | 0 <= i < |a| ensures a[i].name == b[i].name && Picture(a[i]) == Picture(b[i]) {
      assert a[i].(speaking := false).name == b[i].(speaking := false).name;
      assert Picture(a[i].(speaking := false)) == Picture(b[i].(speaking := false));
    }
  }

  /** A group call with nobody spotlit and nobody speaking. */
  function Quiet(rows: seq<Row>): Chrome {
    NO_CHROME.(
      identity := Identity(false, true, "", "call"),
      controls := NO_CHROME.controls.(showRoster := true, mode := Immersive),
      labels := NO_CHROME.labels.(participantCount := |rows|),
      roster := Ringed(rows, {}))
  }

  lemma QuietRow(r: Row, bars: bool)
    requires Proper(r, bars)
    ensures var q := r.(speaking := false);
      Proper(q, bars) && RowKey(q) == RowKey(r) && TileOf(q, false) == TileOf(r, false)
  {
    hide IsStreamId;
    var q := r.(speaking := false);
    assert Header(q) == Header(r) && Picture(q) == Picture(r) && End(q) == End(r);
  }

  lemma QuietIsConsistent(rows: seq<Row>, bars: bool)
    requires AllProper(rows, bars)
    ensures Consistent(Quiet(rows), bars) && SameButRings(Quiet(rows).roster, rows)
    ensures RosterKey(Quiet(rows).roster) == RosterKey(rows)
    ensures Tiles(Quiet(rows).roster, false) == Tiles(rows, false)
  {
    hide RowKey, Proper, TileOf;
    var q := Ringed(rows, {});
    forall i | 0 <= i < |rows|
      ensures Proper(q[i], bars) && RowKey(q[i]) == RowKey(rows[i]) && TileOf(q[i], false) == TileOf(rows[i], false)
    {
      assert q[i] == rows[i].(speaking := false);
      QuietRow(rows[i], bars);
    }
    assert RowKeys(q) == RowKeys(rows);
    assert Tiles(q, false) == Tiles(rows, false);
  }

  /**
   * The gate shows every change from a roster on if and only if the roster is clear. From any other there is a change
   * to as many people with the same keys that the gate does not see: the new roster is never drawn.
   */
  lemma ClearRostersExactly(rows: seq<Row>, bars: bool)
    requires AllProper(rows, bars)
    ensures Clear(rows, bars) <==> EveryChangeShows(rows, bars)
  {
    if Clear(rows, bars) {
      forall c, d | Consistent(c, bars) && Consistent(d, bars) && SameButRings(c.roster, rows)
        && Classify(Capture(c), Capture(d)) == None
        ensures ViewOf(c) == ViewOf(d)
      {
        ClearWithoutRings(c.roster, rows, bars);
        hide Consistent, Capture, ViewOf, Clear;
        NoneIffNothingSeenDiffers(Capture(c), Capture(d));
        SameSeenSameView(c, d, bars);
      }
    } else {
      var other := UnclearRosterHasATwin(rows, bars);
      TwinsPassUnseen(rows, other, bars);
      QuietIsConsistent(rows, bars);
    }
  }

  lemma TwinsPassUnseen(rows: seq<Row>, other: seq<Row>, bars: bool)
    requires AllProper(rows, bars) && IsTwin(rows, other, bars)
    ensures Consistent(Quiet(rows), bars) && Consistent(Quiet(other), bars)
    ensures Classify(Capture(Quiet(rows)), Capture(Quiet(other))) == None
    ensures ViewOf(Quiet(rows)) != ViewOf(Quiet(other))
  {
    var c, d := Quiet(rows), Quiet(other);
    QuietIsConsistent(rows, bars);
    QuietIsConsistent(other, bars);
    QuietDiffers(rows, other);
    hide RosterKey, SpeakingKey, Tiles, Consistent, Quiet, SameButRings;
    assert Capture(c) == Capture(d);
    assert ViewOf(c).roster == Tiles(c.roster, false) && ViewOf(d).roster == Tiles(d.roster, false);
  }

  lemma QuietDiffers(rows: seq<Row>, other: seq<Row>)
    requires |rows| == |other|
    ensures Quiet(rows) == Quiet(other).(roster := Quiet(rows).roster) && !Quiet(rows).page.phone
  {
  }

  /**
   * Such a change, from any three people: two rosters of two, whose names make one key, and the gate is silent.
   * `PresenterMakesTwins` says when these are rows as the presenter makes them.
   */
  lemma NamesHideARosterChange(r: Row, s: Row, t: Row, bars: bool)
    requires Proper(r, bars) && Proper(s, bars) && Proper(t, bars)
    ensures
      var c := Quiet([r, t.(name := RowKey(s) + t.name)]);
      var d := Quiet([s.(name := RowKey(r) + s.name), t]);
      && Consistent(c, bars) && Consistent(d, bars)
      && Classify(Capture(c), Capture(d)) == None && ViewOf(c) != ViewOf(d)
  {
    hide RowKey, Proper, IsTwin, Quiet, Consistent, Capture, ViewOf;
    NamesMakeTwins(r, s, t, bars);
    TwinsPassUnseen([r, t.(name := RowKey(s) + t.name)], [s.(name := RowKey(r) + s.name), t], bars);
  }
}
