/**
 * The UI latency probe: a probe thread that posts one ping at a time, the UI thread that runs the pings, starts and
 * stops the probe, over any number of runs. One event is one access to what the two threads share.
 */
module LatencyProbe {
  import opened Wrappers

  /** Where a run's probe thread is. It holds the mutex at Testing, Deciding, Marking and Unlocking. */
  datatype Pc = Entering | Testing | Waiting | Deciding | Marking | Unlocking | Posting | Relocking | Ended

  /** The state a run's two threads share, and its thread. */
  datatype Shared = Shared(stop: bool, inFlight: bool, stoppedUi: bool, pc: Pc) {
    predicate ProbeHolds() { pc.Testing? || pc.Deciding? || pc.Marking? || pc.Unlocking? }
  }

  const NEW_RUN := Shared(false, false, false, Entering)

  /** What is left of `Stop`: to lock, to set the flag and unlock, to silence the pings, to join. */
  datatype StopAt = Locking | Locked | Silencing | Joining

  /** Where the UI thread is: free, in a run's ping that has still to clear the mark or to report, or in `Stop`. */
  datatype Ui = Idle | Clearing(run: nat) | Reporting(run: nat) | Stopping(run: nat, at: StopAt)

  datatype Entry = Posted(run: nat) | Reported(run: nat) | Stopped(run: nat)

  /** `queue` holds the runs whose pings are posted and not run yet. */
  datatype Sys = Sys(runs: seq<Shared>, current: Option<nat>, ui: Ui, queue: seq<nat>, log: seq<Entry>) {
    predicate Has(run: nat) { run < |runs| }

    predicate MutexFree(run: nat)
      requires Has(run)
    {
      !runs[run].ProbeHolds() && ui != Stopping(run, Locked)
    }

    function With(run: nat, s: Shared): Sys
      requires Has(run)
    {
      this.(runs := runs[run := s])
    }
  }

  const START := Sys([], None, Idle, [], [])

  datatype Event =
    | Start
    | Pop(index: nat)                    // the UI thread takes a posted ping
    | BeginStop
    | UiStep                             // the UI thread goes on with its ping or with `Stop`
    | Probe(run: nat, timeout: bool)     // a run's probe thread goes on; `timeout`: its wait timed out

  /** The probe thread's next step; at the mutex it waits until that is free. */
  function Probed(s: Sys, run: nat, timeout: bool): Sys
    requires s.Has(run)
  {
    var r := s.runs[run];
    match r.pc
    case Entering => if s.MutexFree(run) then s.With(run, r.(pc := Testing)) else s
    case Testing => s.With(run, r.(pc := if r.stop then Ended else Waiting))
    case Waiting =>
      if s.MutexFree(run) && (r.stop || timeout) then s.With(run, r.(pc := Deciding)) else s
    case Deciding => s.With(run, r.(pc := if r.stop || r.inFlight then Testing else Marking))
    case Marking => s.With(run, r.(pc := Unlocking, inFlight := true))
    case Unlocking => s.With(run, r.(pc := Posting))
    case Posting => s.With(run, r.(pc := Relocking)).(queue := s.queue + [run], log := s.log + [Posted(run)])
    case Relocking => if s.MutexFree(run) then s.With(run, r.(pc := Testing)) else s
    case Ended => s
  }

  function UiStepped(s: Sys): Sys {
    match s.ui
    case Idle => s
    case Clearing(run) =>
      if s.Has(run) then s.With(run, s.runs[run].(inFlight := false)).(ui := Reporting(run)) else s
    case Reporting(run) =>
      if s.Has(run) && !s.runs[run].stoppedUi then s.(ui := Idle, log := s.log + [Reported(run)]) else s.(ui := Idle)
    case Stopping(run, at) =>
      if !s.Has(run) then s
      else
        match at
        case Locking => if s.MutexFree(run) then s.(ui := Stopping(run, Locked)) else s
        case Locked => s.With(run, s.runs[run].(stop := true)).(ui := Stopping(run, Silencing))
        case Silencing => s.With(run, s.runs[run].(stoppedUi := true)).(ui := Stopping(run, Joining))
        case Joining =>
          if s.runs[run].pc.Ended? then s.(ui := Idle, current := None, log := s.log + [Stopped(run)]) else s
  }

  function Step(s: Sys, e: Event): Sys {
    match e
    case Start =>
      if s.ui.Idle? && s.current.None? then s.(runs := s.runs + [NEW_RUN], current := Some(|s.runs|)) else s
    case Pop(index) =>
      if s.ui.Idle? && index < |s.queue| then
        s.(queue := s.queue[..index] + s.queue[index + 1..], ui := Clearing(s.queue[index]))
      else s
    case BeginStop => if s.ui.Idle? && s.current.Some? then s.(ui := Stopping(s.current.value, Locking)) else s
    case UiStep => UiStepped(s)
    case Probe(run, timeout) => if s.Has(run) then Probed(s, run, timeout) else s
  }

  function Run(events: seq<Event>): Sys {
    if events == [] then START else Step(Run(events[..|events| - 1]), events[|events| - 1])
  }

  // ----- One ping at a time -----

  function Count(b: bool): nat { if b then 1 else 0 }

  /** Pings of a run that are posted and not run yet. */
  function Queued(queue: seq<nat>, run: nat): nat { multiset(queue)[run] }

  /** Pings of a run about to be posted, posted, or taken by the UI thread with the mark not cleared yet. */
  function Pings(s: Sys, run: nat): nat
    requires s.Has(run)
  {
    Count(s.runs[run].pc.Unlocking? || s.runs[run].pc.Posting?) + Queued(s.queue, run) + Count(s.ui == Clearing(run))
  }

  /** A run's mark is up while a ping of it is under way, and there is one at most. */
  predicate Marked(s: Sys, run: nat)
    requires s.Has(run)
  {
    Pings(s, run) <= Count(s.runs[run].inFlight) && (s.runs[run].pc.Marking? ==> !s.runs[run].inFlight)
  }

  /** Only the current run's thread lives; the others are silenced. */
  predicate Settled(s: Sys, run: nat)
    requires s.Has(run)
  {
    && (s.current != Some(run) ==> s.runs[run].pc.Ended? && s.runs[run].stoppedUi)
    && (s.ui == Stopping(run, Locked) ==> !s.runs[run].ProbeHolds())
    && (s.ui == Stopping(run, Silencing) ==> s.runs[run].stop)
    && (s.ui == Stopping(run, Joining) ==> s.runs[run].stoppedUi && s.runs[run].stop)
    && (s.runs[run].stop ==> !s.runs[run].pc.Marking? && !s.runs[run].pc.Unlocking?)
  }

  ghost predicate Named(s: Sys) {
    && (s.current.Some? ==> s.Has(s.current.value))
    && (s.ui.Stopping? ==> s.current == Some(s.ui.run))
    && (s.ui.Clearing? || s.ui.Reporting? ==> s.Has(s.ui.run))
    && (forall i :: 0 <= i < |s.queue| ==> s.Has(s.queue[i]))
  }

  /** A stopped run is not the current one. */
  ghost predicate Logged(s: Sys) {
    && (forall i :: 0 <= i < |s.log| && s.log[i].Stopped? ==> s.Has(s.log[i].run) && s.current != Some(s.log[i].run))
    && Silent(s.log)
  }

  /** No report of a run after its Stop returned. */
  ghost predicate Silent(log: seq<Entry>) {
    forall i, j :: 0 <= i < j < |log| && log[i].Stopped? ==> log[j] != Reported(log[i].run)
  }

  ghost predicate Inv(s: Sys) {
    && Named(s) && Logged(s)
    && (forall run :: 0 <= run < |s.runs| ==> Marked(s, run) && Settled(s, run))
  }

  lemma TakenFrom(queue: seq<nat>, index: nat, run: nat)
    requires index < |queue|
    ensures Queued(queue[..index] + queue[index + 1..], run) + Count(queue[index] == run) == Queued(queue, run)
  {
    assert queue == queue[..index] + [queue[index]] + queue[index + 1..];
  }

  lemma PostedTo(queue: seq<nat>, posted: nat, run: nat)
    ensures Queued(queue + [posted], run) == Queued(queue, run) + Count(posted == run)
  {
  }

  lemma NotQueued(queue: seq<nat>, run: nat)
    requires forall i :: 0 <= i < |queue| ==> queue[i] != run
    ensures Queued(queue, run) == 0
  {
  }

  lemma ProbeKeepsRun(s: Sys, stepped: nat, timeout: bool, run: nat)
    requires s.Has(stepped) && s.Has(run) && Marked(s, run) && Settled(s, run)
    ensures var t := Probed(s, stepped, timeout); t.Has(run) && Marked(t, run) && Settled(t, run)
  {
    PostedTo(s.queue, stepped, run);
    hide Queued;
  }

  lemma UiKeepsRun(s: Sys, run: nat)
    requires s.Has(run) && Marked(s, run) && Settled(s, run)
    requires s.ui.Stopping? ==> s.current == Some(s.ui.run)
    ensures var t := UiStepped(s); t.Has(run) && Marked(t, run) && Settled(t, run)
  {
    hide Queued;
  }

  lemma StepKeepsRun(s: Sys, e: Event, run: nat)
    requires Inv(s) && Step(s, e).Has(run)
    ensures Marked(Step(s, e), run) && Settled(Step(s, e), run)
  {
    if s.Has(run) { assert Marked(s, run) && Settled(s, run); }
    match e
    case Probe(stepped, timeout) => if s.Has(stepped) { ProbeKeepsRun(s, stepped, timeout, run); }
    case UiStep => UiKeepsRun(s, run);
    case Pop(index) =>
      if s.ui.Idle? && index < |s.queue| { TakenFrom(s.queue, index, run); }
      hide Queued, Inv;
    case Start =>
      if !s.Has(run) { NotQueued(s.queue, run); }
      hide Queued, Inv;
    case BeginStop => hide Queued, Inv;
  }

  lemma StepKeepsNamed(s: Sys, e: Event)
    requires Named(s)
    ensures Named(Step(s, e))
  {
  }

  lemma StepKeepsLogged(s: Sys, e: Event)
    requires Inv(s)
    ensures Logged(Step(s, e))
  {
    forall i | 0 <= i < |s.log| && s.log[i].Stopped? ensures s.runs[s.log[i].run].stoppedUi {
      assert Settled(s, s.log[i].run);
    }
    hide Marked, Settled;
  }

  lemma StepKeepsInv(s: Sys, e: Event)
    requires Inv(s)
    ensures Inv(Step(s, e))
  {
    StepKeepsNamed(s, e);
    StepKeepsLogged(s, e);
    forall run | 0 <= run < |Step(s, e).runs| ensures Marked(Step(s, e), run) && Settled(Step(s, e), run) {
      StepKeepsRun(s, e, run);
    }
    hide Marked, Settled, Named, Logged, Step;
  }

  lemma {:induction false} RunKeepsInv(events: seq<Event>)
    ensures Inv(Run(events))
  {
    if events != [] {
      RunKeepsInv(events[..|events| - 1]);
      hide Inv, Step;
      StepKeepsInv(Run(events[..|events| - 1]), events[|events| - 1]);
    }
  }

  /** In every interleaving at most one ping of a run is posted and not run yet. */
  lemma OnePingAtATime(events: seq<Event>, run: nat)
    requires run < |Run(events).runs|
    ensures Queued(Run(events).queue, run) <= 1
    ensures Queued(Run(events).queue, run) == 1 ==> Run(events).runs[run].inFlight && !Run(events).runs[run].pc.Posting?
  {
    RunKeepsInv(events);
    assert Marked(Run(events), run);
  }

  /** No latency of a run is reported after its Stop returned, in every interleaving of any number of runs. */
  lemma NoReportAfterStop(events: seq<Event>, i: nat, j: nat)
    requires i < j < |Run(events).log|
    ensures Run(events).log[i].Stopped? ==> Run(events).log[j] != Reported(Run(events).log[i].run)
  {
    RunKeepsInv(events);
  }

  /** At most one probe thread lives, and none once the last Stop returned. */
  lemma OneThreadAtMost(events: seq<Event>, run: nat)
    requires run < |Run(events).runs|
    ensures !Run(events).runs[run].pc.Ended? ==> Run(events).current == Some(run)
  {
    RunKeepsInv(events);
    assert Settled(Run(events), run);
  }

  // ----- Stop returns -----

  /** How many steps of its own a stopped probe thread still has at most. */
  function Left(pc: Pc): nat {
    match pc
    case Ended => 0
    case Testing => 1
    case Deciding => 2
    case Entering => 2
    case Relocking => 2
    case Waiting => 3
    case Posting => 3
    case Unlocking => 4
    case Marking => 5
  }

  /**
   * `Stop` never hangs in its join: every step the probe thread then takes brings it nearer its end, and while it has
   * not ended it can always take one, for nobody else holds the mutex.
   */
  lemma StopReturns(events: seq<Event>, timeout: bool)
    ensures
      var s := Run(events);
      s.ui.Stopping? && s.ui.at.Joining? ==>
        var r := s.ui.run;
        var next := Step(s, Probe(r, timeout));
        && s.Has(r) && (s.runs[r].pc.Ended? ==> Step(s, UiStep).ui.Idle?)
        && (!s.runs[r].pc.Ended? ==> next.ui == s.ui && next.Has(r) && Left(next.runs[r].pc) < Left(s.runs[r].pc))
  {
    RunKeepsInv(events);
    var s := Run(events);
    if s.ui.Stopping? { assert Settled(s, s.ui.run); }
  }
}
