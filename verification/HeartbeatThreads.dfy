/**
 * The heartbeat's state word under its compare-and-swap loop: any number of threads call `SetState` while the main
 * loop ticks and, at shutdown, sends its final heartbeat. One event is one atomic access to the word.
 */
module HeartbeatThreads {
  import opened Heartbeat

  /** Where a thread is in `SetState(next)`: not in it, or about to exchange the state it saw last. */
  datatype Pc = Idle | Ready(next: State, cur: State)

  /** Where the main loop is: free, in a tick that loaded a state, or in `SendFinal`. */
  datatype Main = Free | Loaded(state: State) | Closing

  /** A call of `SetState` that returned. */
  datatype Op = Op(thread: nat, next: State, ok: bool)

  const MAIN := 0

  /** `pcs` holds the threads inside `SetState`; `turns` is what the main loop did. */
  datatype Sys = Sys(word: State, pcs: map<nat, Pc>, main: Main, ops: seq<Op>, turns: seq<Turn>) {
    function PcOf(thread: nat): Pc { if thread in pcs then pcs[thread] else Idle }
  }

  const START_SYS := Sys(Active, map[], Free, [], [])

  datatype Event =
    | Call(thread: nat, next: State)                 // SetState is entered: the word is loaded
    | Exchange(thread: nat, spurious: bool)          // one weak compare-and-exchange
    | LoadState                                      // a tick starts: the word is loaded
    | EndTick(now: Instant, wall: int, id: Identity, reply: Reply, renewed: bool)
    | CallFinal                                      // SendFinal enters SetState(Retiring)
    | EndFinal(wall: int, id: Identity, reply: Reply)

  /** The loop's two tests on the state the thread saw last; the thread returns or goes on to exchange it. */
  function Looped(s: Sys, thread: nat, next: State, cur: State): Sys {
    if cur == next then s.(pcs := s.pcs[thread := Idle], ops := s.ops + [Op(thread, next, true)])
    else if cur == Retiring then s.(pcs := s.pcs[thread := Idle], ops := s.ops + [Op(thread, next, false)])
    else s.(pcs := s.pcs[thread := Ready(next, cur)])
  }

  function Exchanged(s: Sys, thread: nat, spurious: bool): Sys
    requires s.PcOf(thread).Ready?
  {
    var pc := s.PcOf(thread);
    if s.word == pc.cur && !spurious then
      s.(word := pc.next, pcs := s.pcs[thread := Idle], ops := s.ops + [Op(thread, pc.next, true)])
    else Looped(s, thread, pc.next, s.word)
  }

  /** An event that cannot happen in `s` changes nothing. */
  function Step(s: Sys, e: Event): Sys {
    match e
    case Call(thread, next) =>
      if s.PcOf(thread).Ready? || (thread == MAIN && !s.main.Free?) then s else Looped(s, thread, next, s.word)
    case Exchange(thread, spurious) => if s.PcOf(thread).Idle? then s else Exchanged(s, thread, spurious)
    case LoadState => if s.main.Free? && s.PcOf(MAIN).Idle? then s.(main := Loaded(s.word)) else s
    case EndTick(now, wall, id, reply, renewed) =>
      if s.main.Loaded? then
        s.(main := Free, turns := s.turns + [Tick(s.main.state, now, wall, id, reply, renewed)])
      else s
    case CallFinal =>
      if s.main.Free? && s.PcOf(MAIN).Idle? then Looped(s.(main := Closing), MAIN, Retiring, s.word) else s
    case EndFinal(wall, id, reply) =>
      if s.main.Closing? && s.PcOf(MAIN).Idle? then s.(main := Free, turns := s.turns + [Final(wall, id, reply)])
      else s
  }

  function RunSys(events: seq<Event>): Sys {
    if events == [] then START_SYS else Step(RunSys(events[..|events| - 1]), events[|events| - 1])
  }

  // ----- SetState is atomic -----

  /** What `SetState` promises, in one step: the new state and whether the move was made. */
  function Atomic(word: State, next: State): (State, bool) {
    if word == Retiring && next != Retiring then (word, false) else (next, true)
  }

  /** The state after the calls, in the order in which they returned, one at a time. */
  function Replay(ops: seq<Op>): State {
    if ops == [] then Active else Atomic(Replay(ops[..|ops| - 1]), ops[|ops| - 1].next).0
  }

  ghost predicate AnswersAreAtomic(ops: seq<Op>) {
    forall k :: 0 <= k < |ops| ==> ops[k].ok == Atomic(Replay(ops[..k]), ops[k].next).1
  }

  lemma OneMoreOp(ops: seq<Op>, op: Op)
    requires AnswersAreAtomic(ops) && op.ok == Atomic(Replay(ops), op.next).1
    ensures AnswersAreAtomic(ops + [op]) && Replay(ops + [op]) == Atomic(Replay(ops), op.next).0
  {
    var more := ops + [op];
    assert more[..|ops|] == ops;
    assert forall k :: 0 <= k < |ops| ==> more[..k] == ops[..k];
  }

  /** A thread about to exchange still has something to do: what it saw is neither its goal nor final. */
  predicate Fit(pc: Pc) { pc.Ready? ==> pc.cur != Retiring && pc.cur != pc.next }

  ghost predicate Waiting(s: Sys) { forall thread :: Fit(s.PcOf(thread)) }

  lemma ThreadStaysFit(s: Sys, e: Event, thread: nat)
    requires Waiting(s)
    ensures Fit(Step(s, e).PcOf(thread))
  {
    assert Fit(s.PcOf(thread));
  }

  /** One access to the word leaves it, or a call returns with the answer of one atomic step. */
  lemma StepReturns(s: Sys, e: Event)
    requires e.Exchange? ==> Fit(s.PcOf(e.thread))
    ensures
      var t, n := Step(s, e), |s.ops|;
      if t.ops == s.ops then t.word == s.word
      else
        && |t.ops| == n + 1 && t.ops == s.ops + [t.ops[n]]
        && t.word == Atomic(s.word, t.ops[n].next).0 && t.ops[n].ok == Atomic(s.word, t.ops[n].next).1
  {
  }

  lemma StepIsAtomic(s: Sys, e: Event)
    requires AnswersAreAtomic(s.ops) && Replay(s.ops) == s.word && Waiting(s)
    ensures AnswersAreAtomic(Step(s, e).ops) && Replay(Step(s, e).ops) == Step(s, e).word
  {
    var t := Step(s, e);
    if e.Exchange? { assert Fit(s.PcOf(e.thread)); }
    StepReturns(s, e);
    hide Step, Waiting, Atomic, AnswersAreAtomic, Replay;
    if t.ops != s.ops { OneMoreOp(s.ops, t.ops[|s.ops|]); }
  }

  /**
   * SetState linearizes: over every interleaving, spurious failures included, the word is what the returned calls
   * make of it one at a time, each answers as if it had run alone at the moment it returned, and each returns at one
   * of its own accesses to the word.
   */
  lemma {:induction false} SetStateLinearizes(events: seq<Event>)
    ensures AnswersAreAtomic(RunSys(events).ops) && Replay(RunSys(events).ops) == RunSys(events).word
    ensures Waiting(RunSys(events))
  {
    if events != [] {
      SetStateLinearizes(events[..|events| - 1]);
      var s, e := RunSys(events[..|events| - 1]), events[|events| - 1];
      StepIsAtomic(s, e);
      hide AnswersAreAtomic, Step, Fit;
      forall thread: nat ensures Fit(Step(s, e).PcOf(thread)) { ThreadStaysFit(s, e, thread); }
    }
  }

  function Rank(s: State): nat {
    match s
    case Active => 0
    case Draining => 1
    case Retiring => 2
  }

  /** The state does not only advance: exactly the move from draining to active goes back. */
  lemma OnlyDrainingToActiveGoesBack(word: State, next: State)
    ensures Rank(Atomic(word, next).0) < Rank(word) <==> word == Draining && next == Active
  {
  }

  /** A run in which the state goes back: draining, then active, both moves made. */
  lemma DrainingCanBeUndone()
    ensures exists events :: RunSys(events).ops == [Op(1, Draining, true), Op(1, Active, true)]
                          && RunSys(events).word == Active
  {
    var events := [Call(1, Draining), Exchange(1, false), Call(1, Active), Exchange(1, false)];
    var s1 := Step(START_SYS, events[0]);
    var s2 := Step(s1, events[1]);
    var s3 := Step(s2, events[2]);
    var s4 := Step(s3, events[3]);
    assert events[..1] == [events[0]] && events[..1][..0] == [];
    assert events[..2][..1] == events[..1] && events[..3][..2] == events[..2] && events[..3] == events[..|events| - 1];
    assert RunSys(events[..1]) == s1;
    assert RunSys(events[..2]) == s2;
    assert RunSys(events[..3]) == s3;
    assert RunSys(events) == s4;
    assert s4.ops == [Op(1, Draining, true), Op(1, Active, true)];
  }

  lemma {:induction false} RetiringIsKept(ops: seq<Op>, k: nat)
    requires k <= |ops| && Replay(ops[..k]) == Retiring
    ensures Replay(ops) == Retiring
  {
    if k < |ops| {
      assert ops[..|ops| - 1][..k] == ops[..k];
      RetiringIsKept(ops[..|ops| - 1], k);
    } else {
      assert ops[..k] == ops;
    }
  }

  /** Retiring is final: once some call saw or made it, every later call for another state is refused. */
  lemma RetiringIsFinal(events: seq<Event>, i: nat, j: nat)
    requires i < j < |RunSys(events).ops|
    requires RunSys(events).ops[i].next == Retiring || !RunSys(events).ops[i].ok
    ensures RunSys(events).ops[j].ok <==> RunSys(events).ops[j].next == Retiring
    ensures RunSys(events).word == Retiring
  {
    SetStateLinearizes(events);
    var ops := RunSys(events).ops;
    hide RunSys;
    assert ops[i].ok == Atomic(Replay(ops[..i]), ops[i].next).1;
    assert ops[..i + 1][..i] == ops[..i];
    assert Replay(ops[..i + 1]) == Retiring;
    assert ops[..j][..i + 1] == ops[..i + 1];
    RetiringIsKept(ops[..j], i + 1);
    RetiringIsKept(ops, i + 1);
  }

  // ----- What the heartbeats carry -----

  /** The state the turn's heartbeat carries. */
  function Carried(t: Turn): State { if t.Tick? then t.state else Retiring }

  /** Once the main loop saw the node retiring, it is, and every later turn says so. */
  ghost predicate Settled(s: Sys) {
    && (s.main == Loaded(Retiring) ==> s.word == Retiring)
    && (s.main.Closing? && s.PcOf(MAIN).Idle? ==> s.word == Retiring)
    && (s.main.Closing? && s.PcOf(MAIN).Ready? ==> s.PcOf(MAIN).next == Retiring)
    && (s.main.Loaded? ==> s.PcOf(MAIN).Idle?)
    && (forall i :: 0 <= i < |s.turns| && Carried(s.turns[i]) == Retiring ==>
      s.word == Retiring && !(s.main.Loaded? && s.main.state != Retiring))
    && InOrder(s.turns)
  }

  ghost predicate InOrder(turns: seq<Turn>) {
    forall i, j :: 0 <= i < j < |turns| && Carried(turns[i]) == Retiring ==> Carried(turns[j]) == Retiring
  }

  lemma StepKeepsSettled(s: Sys, e: Event)
    requires Settled(s) && Waiting(s)
    ensures Settled(Step(s, e))
  {
  }

  lemma {:induction false} RunIsSettled(events: seq<Event>)
    ensures Settled(RunSys(events))
  {
    if events != [] {
      RunIsSettled(events[..|events| - 1]);
      SetStateLinearizes(events[..|events| - 1]);
      hide Settled, Waiting, Step, AnswersAreAtomic;
      StepKeepsSettled(RunSys(events[..|events| - 1]), events[|events| - 1]);
    }
  }

  /** The heartbeats of a run carry the states of its turns, in their order. */
  lemma {:induction false} LogFollowsTurns(turns: seq<Turn>) returns (at: seq<nat>)
    ensures |at| == |Run(turns).log|
    ensures forall i :: 0 <= i < |at| ==> at[i] < |turns| && Run(turns).log[i].state == Carried(turns[at[i]])
    ensures forall i, j :: 0 <= i < j < |at| ==> at[i] < at[j]
  {
    if turns == [] {
      at := [];
    } else {
      var n := |turns| - 1;
      at := LogFollowsTurns(turns[..n]);
      if Run(turns).log != Run(turns[..n]).log { at := at + [n]; }
    }
  }

  /** Once one heartbeat carries "retiring" every later one does, over every interleaving. */
  lemma RetiringHeartbeatsAreLast(events: seq<Event>, i: nat, j: nat)
    requires i < j < |Run(RunSys(events).turns).log|
    ensures Run(RunSys(events).turns).log[i].state == Retiring ==> Run(RunSys(events).turns).log[j].state == Retiring
  {
    RunIsSettled(events);
    var turns := RunSys(events).turns;
    hide RunSys, Run, Waiting;
    var at := LogFollowsTurns(turns);
    assert Carried(turns[at[i]]) == Retiring ==> Carried(turns[at[j]]) == Retiring;
  }
}
