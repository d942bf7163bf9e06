/**
 * The node's heartbeat: which heartbeats the main loop sends, with which timestamp, and when it registers again.
 * Times are milliseconds; the steady clock is an `Instant`, the wall clock any number.
 */
module Heartbeat {
  import opened Wrappers

  const INT64_MIN := -0x8000_0000_0000_0000
  const PERIOD_MS := 300_000
  const REREGISTER_INITIAL_MS := 10_000
  const REREGISTER_MAX_MS := 300_000

  /** A reading of the steady clock; INT64_MIN stands for "long ago" in the fields that hold a due time. */
  type Instant = t: int | INT64_MIN <= t witness 0

  datatype State = Active | Draining | Retiring

  datatype Identity = Identity(relayUserId: string, peerId: string)

  /** What became of one heartbeat: no signature, no answer, or an answer with the `code` and `error` of its body. */
  datatype Reply = NotSigned | NoAnswer | Answer(status: int, code: Option<string>, error: Option<string>)

  datatype Outcome = Ok | Auth | Stale | NotRegistered | UnknownPeer | Rejected | HttpError | Network

  function CodeOf(reply: Reply): string
    requires reply.Answer?
  {
    if reply.code.Some? then reply.code.value else if reply.error.Some? then reply.error.value else ""
  }

  function OutcomeOf(reply: Reply): Outcome {
    match reply
    case NotSigned => HttpError
    case NoAnswer => Network
    case Answer(status, _, _) =>
      var code := CodeOf(reply);
      if 200 <= status < 300 then Ok
      else if status == 401 then Auth
      else if status == 409 then Stale
      else if status == 404 && (code == "not_registered" || code == "registration_expired") then NotRegistered
      else if status == 404 && code == "unknown_peer" then UnknownPeer
      else if status == 400 || status == 403 then Rejected
      else HttpError
  }

  /** The main loop's fields. */
  datatype Beat = Beat(attempted: State, nextSend: int, lastTimestamp: int, due: int, delay: int)

  /** A heartbeat that was stamped, with what became of it. */
  datatype Sent = Sent(state: State, wall: int, timestamp: int, reply: Reply)

  datatype Loop = Loop(beat: Beat, log: seq<Sent>)

  const START := Loop(Beat(Active, INT64_MIN, 0, INT64_MIN, 0), [])

  /**
   * One call from the main loop: a tick that loaded `state`, or the shutdown's final heartbeat. The clocks' readings,
   * the identity, the answer and the re-registration's success are the environment's.
   */
  datatype Turn =
    | Tick(state: State, now: Instant, wall: int, id: Identity, reply: Reply, renewed: bool)
    | Final(wall: int, id: Identity, reply: Reply)

  function Max(a: int, b: int): int { if a >= b then a else b }

  function Min(a: int, b: int): int { if a <= b then a else b }

  predicate Registered(id: Identity) { id.relayUserId != "" && id.peerId != "" }

  /** Whether the tick sends. */
  predicate Sends(l: Loop, t: Turn) {
    t.Tick? && Registered(t.id) && (t.state != l.beat.attempted || t.now >= l.beat.nextSend)
  }

  /** Whether the tick's heartbeat was accepted. */
  predicate Accepted(l: Loop, t: Turn) { Sends(l, t) && OutcomeOf(t.reply) == Ok }

  /** Whether the server did not know the node. */
  predicate Missing(l: Loop, t: Turn) { Sends(l, t) && OutcomeOf(t.reply) == NotRegistered }

  /** Whether the tick registers the node again. */
  predicate Renews(l: Loop, t: Turn) { Missing(l, t) && t.now >= l.beat.due }

  function Emit(l: Loop, state: State, wall: int, reply: Reply): Loop {
    var timestamp := Max(wall, l.beat.lastTimestamp + 1);
    Loop(l.beat.(lastTimestamp := timestamp), l.log + [Sent(state, wall, timestamp, reply)])
  }

  function Unregistered(b: Beat, now: int, renewed: bool): Beat {
    if now < b.due then b.(nextSend := b.due)
    else
      var delay := if b.delay == 0 then REREGISTER_INITIAL_MS else Min(b.delay * 2, REREGISTER_MAX_MS);
      b.(delay := delay, due := now + delay, nextSend := if renewed then now else now + delay)
  }

  function Take(l: Loop, t: Turn): Loop {
    match t
    case Final(wall, id, reply) => if Registered(id) then Emit(l, Retiring, wall, reply) else l
    case Tick(state, now, wall, id, reply, renewed) =>
      if !Sends(l, t) then l
      else
        var sent := Emit(Loop(l.beat.(attempted := state, nextSend := now + PERIOD_MS), l.log), state, wall, reply);
        if OutcomeOf(reply) == Ok then sent.(beat := sent.beat.(delay := 0, due := INT64_MIN))
        else if OutcomeOf(reply) == NotRegistered then sent.(beat := Unregistered(sent.beat, now, renewed))
        else sent
  }

  function Run(turns: seq<Turn>): Loop {
    if turns == [] then START else Take(Run(turns[..|turns| - 1]), turns[|turns| - 1])
  }

  // ----- The main loop, in place -----

  /** The main loop thread's part of the heartbeat; `SetState` and its rivals are in HeartbeatThreads. */
  class NodeHeartbeat {
    var state: State
    var attempted: State
    var nextSend: int
    var lastTimestamp: int
    var due: int
    var delay: int
    var log: seq<Sent>

    function Contents(): Loop
      reads this
    {
      Loop(Beat(attempted, nextSend, lastTimestamp, due, delay), log)
    }

    constructor ()
      ensures Contents() == START && state == Active
    {
      state, attempted, nextSend, lastTimestamp := Active, Active, INT64_MIN, 0;
      due, delay, log := INT64_MIN, 0, [];
    }

    /**
     * The compare-and-swap loop while no other thread writes the word; `spurious` says at which tries the weak
     * exchange fails although the word is as loaded.
     */
    method SetState(next: State, spurious: seq<bool>) returns (ok: bool)
      modifies this`state
      ensures ok == (old(state) != Retiring || next == Retiring)
      ensures state == if ok then next else old(state)
    {
      var cur, tries := state, 0;
      while true
        invariant tries <= |spurious|
        invariant cur == state == old(state)
        decreases |spurious| - tries
      {
        if cur == next { return true; }
        if cur == Retiring { return false; }
        if tries == |spurious| || !spurious[tries] {
          state := next;
          break;
        }
        cur, tries := state, tries + 1;
      }
      return true;
    }

    method Send(carried: State, wall: int, reply: Reply) returns (outcome: Outcome)
      modifies this`lastTimestamp, this`log
      ensures Contents() == Emit(old(Contents()), carried, wall, reply) && outcome == OutcomeOf(reply)
    {
      var timestamp := if wall >= lastTimestamp + 1 then wall else lastTimestamp + 1;
      lastTimestamp := timestamp;
      log := log + [Sent(carried, wall, timestamp, reply)];
      if reply.NotSigned? { return HttpError; }
      if reply.NoAnswer? { return Network; }
      var status, code := reply.status, CodeOf(reply);
      outcome := HttpError;
      if status >= 200 && status < 300 {
        outcome := Ok;
      } else if status == 401 {
        outcome := Auth;
      } else if status == 409 {
        outcome := Stale;
      } else if status == 404 && (code == "not_registered" || code == "registration_expired") {
        outcome := NotRegistered;
      } else if status == 404 && code == "unknown_peer" {
        outcome := UnknownPeer;
      } else if status == 400 || status == 403 {
        outcome := Rejected;
      }
    }

    method HandleNotRegistered(now: int, renewed: bool)
      modifies this`delay, this`due, this`nextSend
      ensures Contents() == Loop(Unregistered(old(Contents()).beat, now, renewed), log)
    {
      if now < due {
        nextSend := due;
        return;
      }
      delay := if delay == 0 then REREGISTER_INITIAL_MS else Min(delay * 2, REREGISTER_MAX_MS);
      due := now + delay;
      nextSend := if renewed then now else due;
    }

    /** A tick: it loads the state and sends once that is another one or the heartbeat is due. */
    method Tick(now: Instant, wall: int, id: Identity, reply: Reply, renewed: bool)
      modifies this
      ensures state == old(state)
      ensures Contents() == Take(old(Contents()), Turn.Tick(old(state), now, wall, id, reply, renewed))
    {
      var loaded := state;
      if loaded == attempted && now < nextSend { return; }
      if id.relayUserId == "" || id.peerId == "" { return; }
      attempted := loaded;
      nextSend := now + PERIOD_MS;
      var outcome := Send(loaded, wall, reply);
      if outcome == Ok {
        delay := 0;
        due := INT64_MIN;
      } else if outcome == NotRegistered {
        HandleNotRegistered(now, renewed);
      }
    }

    method SendFinal(wall: int, id: Identity, reply: Reply, spurious: seq<bool>)
      modifies this
      ensures state == Retiring
      ensures Contents() == Take(old(Contents()), Final(wall, id, reply))
    {
      var _ := SetState(Retiring, spurious);
      if id.relayUserId == "" || id.peerId == "" { return; }
      var _ := Send(Retiring, wall, reply);
    }
  }

  // ----- Timestamps -----

  /** `stamp` is the largest of n and of clock i + (n - i) over the n readings, counted from 1. */
  ghost predicate IsStamp(stamp: int, walls: seq<int>) {
    var n := |walls|;
    && stamp >= n && (forall i :: 0 <= i < n ==> stamp >= walls[i] + (n - 1 - i))
    && (stamp == n || exists i :: 0 <= i < n && stamp == walls[i] + (n - 1 - i))
  }

  function Walls(log: seq<Sent>): seq<int> { seq(|log|, i requires 0 <= i < |log| => log[i].wall) }

  /** The timestamp is one more than the last, or the clock when that is larger. */
  lemma StampGrows(stamp: int, walls: seq<int>, wall: int)
    requires IsStamp(stamp, walls)
    ensures IsStamp(Max(wall, stamp + 1), walls + [wall])
  {
    var more, n := walls + [wall], |walls|;
    assert more[n] == wall;
    assert forall i :: 0 <= i < n ==> more[i] == walls[i];
    if stamp != n {
      var i :| 0 <= i < n && stamp == walls[i] + (n - 1 - i);
      assert stamp + 1 == more[i] + (n + 1 - 1 - i);
    }
  }

  /** A turn makes no heartbeat, or one stamped past the last. */
  lemma TurnEmits(l: Loop, t: Turn)
    ensures var m := Take(l, t);
      || (m.log == l.log && m.beat.lastTimestamp == l.beat.lastTimestamp)
      || (|m.log| == |l.log| + 1 && m.log[..|l.log|] == l.log
          && m.log[|l.log|].wall == t.wall
          && m.log[|l.log|].timestamp == m.beat.lastTimestamp == Max(t.wall, l.beat.lastTimestamp + 1))
  {
  }

  lemma StampsExtend(log: seq<Sent>, more: seq<Sent>, last: int)
    requires IsStamp(last, Walls(log)) && |more| == |log| + 1 && more[..|log|] == log
    requires more[|log|].timestamp == Max(more[|log|].wall, last + 1)
    requires forall k :: 0 <= k < |log| ==> IsStamp(log[k].timestamp, Walls(log[..k + 1]))
    ensures IsStamp(more[|log|].timestamp, Walls(more))
    ensures forall k :: 0 <= k < |more| ==> IsStamp(more[k].timestamp, Walls(more[..k + 1]))
  {
    StampGrows(last, Walls(log), more[|log|].wall);
    hide IsStamp;
    assert Walls(more) == Walls(log) + [more[|log|].wall];
    forall k | 0 <= k < |more| ensures IsStamp(more[k].timestamp, Walls(more[..k + 1])) {
      assert k < |log| ==> more[..k + 1] == log[..k + 1] && more[k] == log[k];
      assert k == |log| ==> more[..k + 1] == more;
    }
  }

  /** Each timestamp follows from the readings up to it, whatever the wall clock does. */
  lemma {:induction false} TimestampsFollowTheClock(turns: seq<Turn>)
    ensures var l := Run(turns);
      && IsStamp(l.beat.lastTimestamp, Walls(l.log))
      && forall k :: 0 <= k < |l.log| ==> IsStamp(l.log[k].timestamp, Walls(l.log[..k + 1]))
  {
    if turns == [] {
      assert Walls([]) == [];
    } else {
      var l, t := Run(turns[..|turns| - 1]), turns[|turns| - 1];
      TimestampsFollowTheClock(turns[..|turns| - 1]);
      TurnEmits(l, t);
      hide IsStamp, Take;
      if Take(l, t).log != l.log {
        StampsExtend(l.log, Take(l, t).log, l.beat.lastTimestamp);
      }
    }
  }

  lemma StampsIncrease(a: int, b: int, walls: seq<int>, n: nat)
    requires n < |walls| && IsStamp(a, walls[..n]) && IsStamp(b, walls)
    ensures a < b
  {
    if a != n {
      var i :| 0 <= i < n && a == walls[..n][i] + (n - 1 - i);
      assert b >= walls[i] + (|walls| - 1 - i);
    }
  }

  /** Timestamps strictly increase over every run. */
  lemma TimestampsIncrease(turns: seq<Turn>, i: nat, j: nat)
    requires i < j < |Run(turns).log|
    ensures Run(turns).log[i].timestamp < Run(turns).log[j].timestamp
  {
    TimestampsFollowTheClock(turns);
    var log := Run(turns).log;
    assert Walls(log[..j + 1])[..i + 1] == Walls(log[..i + 1]);
    StampsIncrease(log[i].timestamp, log[j].timestamp, Walls(log[..j + 1]), i + 1);
  }

  /**
   * A server that takes a heartbeat only when its timestamp is newer than the newest it stored: `stored[k]` is what
   * it holds before heartbeat k. A heartbeat may be lost, stored, or turned down for another reason; 409 says that
   * it was not newer.
   */
  ghost predicate ServerOf(log: seq<Sent>, stored: seq<int>) {
    && |stored| == |log| + 1
    && (log != [] ==> stored[0] < log[0].timestamp)
    && forall k :: 0 <= k < |log| ==>
      && (stored[k + 1] == stored[k] || stored[k + 1] == log[k].timestamp)
      && (log[k].reply.Answer? && log[k].reply.status == 409 ==> log[k].timestamp <= stored[k])
  }

  lemma {:induction false} StoredIsOlder(turns: seq<Turn>, stored: seq<int>, k: nat)
    requires ServerOf(Run(turns).log, stored) && k < |Run(turns).log|
    ensures stored[k] < Run(turns).log[k].timestamp
  {
    if k > 0 {
      StoredIsOlder(turns, stored, k - 1);
      TimestampsIncrease(turns, k - 1, k);
      hide Run;
      assert stored[k] == stored[k - 1] || stored[k] == Run(turns).log[k - 1].timestamp;
    }
  }

  /** Such a server never finds a heartbeat stale. */
  lemma NeverStale(turns: seq<Turn>, stored: seq<int>, k: nat)
    requires ServerOf(Run(turns).log, stored) && k < |Run(turns).log|
    ensures OutcomeOf(Run(turns).log[k].reply) != Stale
  {
    StoredIsOlder(turns, stored, k);
  }

  // ----- Re-registration -----

  function Pow2(n: nat): (r: nat)
    ensures r > 0
  {
    if n == 0 then 1 else 2 * Pow2(n - 1)
  }

  /** The pause after the k-th re-registration in a row: 10 s doubled k - 1 times, at most 300 s. */
  function Backoff(k: nat): int { if k == 0 then 0 else Min(REREGISTER_INITIAL_MS * Pow2(k - 1), REREGISTER_MAX_MS) }

  /** Re-registrations since the last accepted tick. */
  function Streak(turns: seq<Turn>): nat {
    if turns == [] then 0
    else
      var front, t := turns[..|turns| - 1], turns[|turns| - 1];
      if Accepted(Run(front), t) then 0 else if Renews(Run(front), t) then Streak(front) + 1 else Streak(front)
  }

  lemma {:induction false} DelayIsBackoff(turns: seq<Turn>)
    ensures Run(turns).beat.delay == Backoff(Streak(turns))
    ensures Streak(turns) == 0 ==> Run(turns).beat.due == INT64_MIN
  {
    if turns != [] {
      DelayIsBackoff(turns[..|turns| - 1]);
      assert Streak(turns) > 1 ==> Pow2(Streak(turns) - 1) == 2 * Pow2(Streak(turns) - 2);
    }
  }

  /** Turns from `from` on that neither register again nor are accepted. */
  ghost predicate Quiet(turns: seq<Turn>, from: nat) {
    forall m :: from <= m < |turns| ==> !Renews(Run(turns[..m]), turns[m]) && !Accepted(Run(turns[..m]), turns[m])
  }

  /** What a turn does to the time the next re-registration is due. */
  lemma DueOfTurn(l: Loop, t: Turn)
    ensures var b := Take(l, t).beat;
      if Renews(l, t) then b.due == t.now + b.delay else !Accepted(l, t) ==> b.due == l.beat.due
  {
  }

  lemma {:induction false} DueSinceRenewal(turns: seq<Turn>, i: nat)
    requires i < |turns| && Renews(Run(turns[..i]), turns[i]) && Quiet(turns, i + 1)
    ensures Run(turns).beat.due == turns[i].now + Backoff(Streak(turns[..i + 1]))
  {
    hide Take, Backoff, Streak, Renews, Accepted;
    var n := |turns| - 1;
    var front := turns[..n];
    DueOfTurn(Run(front), turns[n]);
    if i < n {
      assert forall m :: 0 <= m < n ==> front[..m] == turns[..m];
      assert front[..i + 1] == turns[..i + 1];
      DueSinceRenewal(front, i);
      assert !Renews(Run(front), turns[n]) && !Accepted(Run(front), turns[n]);
    } else {
      assert turns[..i + 1] == turns;
      DelayIsBackoff(turns);
    }
  }

  /**
   * Two re-registrations in a row with no accepted heartbeat in between are at least the backoff of the first apart,
   * whatever the steady clock does.
   */
  lemma ReregistrationsBackOff(turns: seq<Turn>, i: nat, j: nat)
    requires i < j < |turns| && Quiet(turns[..j], i + 1)
    requires Renews(Run(turns[..i]), turns[i]) && Renews(Run(turns[..j]), turns[j])
    ensures Streak(turns[..j + 1]) == Streak(turns[..i + 1]) + 1
    ensures turns[j].now - turns[i].now >= Backoff(Streak(turns[..i + 1]))
  {
    hide Run, Take, Backoff;
    assert turns[..j][..i] == turns[..i];
    DueSinceRenewal(turns[..j], i);
    StreakStays(turns[..j], i + 1);
    assert turns[..j][..i + 1] == turns[..i + 1];
    assert turns[..j + 1][..j] == turns[..j];
  }

  lemma {:induction false} StreakStays(turns: seq<Turn>, i: nat)
    requires i <= |turns| && Quiet(turns, i)
    ensures Streak(turns) == Streak(turns[..i])
  {
    var n := |turns| - 1;
    if i <= n {
      var front := turns[..n];
      assert forall m :: 0 <= m < n ==> front[..m] == turns[..m];
      assert front[..i] == turns[..i];
      StreakStays(front, i);
    } else {
      assert turns[..i] == turns;
    }
  }

  // ----- When the next heartbeat is due -----

  /** The ticks' steady clock does not step back. */
  ghost predicate Steady(turns: seq<Turn>) {
    forall i, j :: 0 <= i <= j < |turns| && turns[i].Tick? && turns[j].Tick? ==> turns[i].now <= turns[j].now
  }

  lemma {:induction false} DueIsNear(turns: seq<Turn>, now: Instant)
    requires forall m :: 0 <= m < |turns| && turns[m].Tick? ==> turns[m].now <= now
    ensures Run(turns).beat.due <= now + REREGISTER_MAX_MS && 0 <= Run(turns).beat.delay <= REREGISTER_MAX_MS
  {
    if turns != [] {
      DueIsNear(turns[..|turns| - 1], now);
    }
  }

  /** After a tick that sent at time t, the next heartbeat is due between t and t + 300 s. */
  lemma NextSendIsWithinAPeriod(turns: seq<Turn>, t: Turn)
    requires Steady(turns + [t]) && Sends(Run(turns), t)
    ensures t.now <= Take(Run(turns), t).beat.nextSend <= t.now + PERIOD_MS
  {
    var all := turns + [t];
    forall m | 0 <= m < |turns| && turns[m].Tick? ensures turns[m].now <= t.now {
      assert all[m] == turns[m] && all[|turns|] == t;
    }
    DueIsNear(turns, t.now);
    hide Run;
  }

  function Count(b: bool): nat { if b then 1 else 0 }

  /** Over turns `from` to the end: heartbeats the ticks sent, those for a changed state, those answered "unknown". */
  function Heartbeats(turns: seq<Turn>, from: nat): nat {
    if |turns| <= from then 0
    else
      var n := |turns| - 1;
      Heartbeats(turns[..n], from) + Count(Sends(Run(turns[..n]), turns[n]))
  }

  function Changes(turns: seq<Turn>, from: nat): nat {
    if |turns| <= from then 0
    else
      var n := |turns| - 1;
      Changes(turns[..n], from)
        + Count(Sends(Run(turns[..n]), turns[n]) && turns[n].state != Run(turns[..n]).beat.attempted)
  }

  function Unknowns(turns: seq<Turn>, from: nat): nat {
    if |turns| <= from then 0
    else
      var n := |turns| - 1;
      Unknowns(turns[..n], from) + Count(Missing(Run(turns[..n]), turns[n]))
  }

  function Renewals(turns: seq<Turn>, from: nat): nat {
    if |turns| <= from then 0
    else
      var n := |turns| - 1;
      Renewals(turns[..n], from) + Count(Renews(Run(turns[..n]), turns[n]))
  }

  lemma DueIsWithinAPeriod(turns: seq<Turn>, t: Turn)
    requires Steady(turns + [t]) && t.Tick?
    ensures Run(turns).beat.due <= t.now + PERIOD_MS
  {
    var all := turns + [t];
    forall m | 0 <= m < |turns| && turns[m].Tick? ensures turns[m].now <= t.now {
      assert all[m] == turns[m] && all[|turns|] == t;
    }
    DueIsNear(turns, t.now);
    hide Run;
  }

  /** Before `end` a heartbeat is paid for by a changed state or by an answer that the node is not registered. */
  lemma OneTurnPays(l: Loop, t: Turn, end: int)
    requires t.Tick? ==> end - PERIOD_MS <= t.now < end
    ensures Count(Sends(l, t)) + Count(Take(l, t).beat.nextSend < end)
         <= Count(l.beat.nextSend < end) + Count(Sends(l, t) && t.state != l.beat.attempted) + Count(Missing(l, t))
  {
  }

  lemma {:induction false} HeartbeatsArePaidFor(turns: seq<Turn>, i: nat, end: int)
    requires i < |turns| && Steady(turns) && turns[i].Tick?
    requires Run(turns[..i + 1]).beat.nextSend == end <= turns[i].now + PERIOD_MS
    requires forall m :: i < m < |turns| && turns[m].Tick? ==> turns[m].now < end
    ensures Heartbeats(turns, i + 1) + Count(Run(turns).beat.nextSend < end)
         <= Changes(turns, i + 1) + Unknowns(turns, i + 1)
    ensures Changes(turns, i + 1) <= Heartbeats(turns, i + 1)
  {
    var n := |turns| - 1;
    if i == n {
      assert turns[..i + 1] == turns;
    } else {
      var front := turns[..n];
      assert front[..i + 1] == turns[..i + 1];
      hide Take, Sends, Missing, Registered;
      HeartbeatsArePaidFor(front, i, end);
      OneTurnPays(Run(front), turns[n], end);
      assert Run(turns) == Take(Run(front), turns[n]);
      hide Run;
    }
  }

  /**
   * From a heartbeat until the next one is due, one goes out for every changed state, and besides at most one for
   * every answer in between that the node is not registered; without such an answer none.
   */
  lemma HeartbeatsAreFew(turns: seq<Turn>, i: nat)
    requires i < |turns| && Steady(turns) && Sends(Run(turns[..i]), turns[i])
    requires forall m :: i < m < |turns| && turns[m].Tick? ==> turns[m].now < Run(turns[..i + 1]).beat.nextSend
    ensures Changes(turns, i + 1) <= Heartbeats(turns, i + 1) <= Changes(turns, i + 1) + Unknowns(turns, i + 1)
  {
    assert turns[..i] + [turns[i]] == turns[..i + 1] == turns[..i + 1][..i] + [turns[i]];
    assert turns[..i + 1][..i] == turns[..i];
    NextSendIsWithinAPeriod(turns[..i], turns[i]);
    assert Run(turns[..i + 1]) == Take(Run(turns[..i]), turns[i]);
    HeartbeatsArePaidFor(turns, i, Run(turns[..i + 1]).beat.nextSend);
  }

  /** An answer "not registered" is paid for by a re-registration, a changed state, or the one retry after it. */
  lemma OneAnswerPays(l: Loop, t: Turn)
    requires t.Tick? ==> l.beat.due <= t.now + PERIOD_MS
    ensures Count(Missing(l, t)) + Count(Take(l, t).beat.nextSend < Take(l, t).beat.due)
         <= Count(l.beat.nextSend < l.beat.due) + 2 * Count(Renews(l, t))
            + Count(Sends(l, t) && t.state != l.beat.attempted)
  {
  }

  /**
   * Over any stretch of a run, answers that the node is not registered come at most twice per re-registration, once
   * per changed state, and once more; the re-registrations back off.
   */
  lemma {:induction false} RetriesAreFew(turns: seq<Turn>, i: nat)
    requires i <= |turns| && Steady(turns)
    ensures Unknowns(turns, i) + Count(Run(turns).beat.nextSend < Run(turns).beat.due)
         <= 1 + 2 * Renewals(turns, i) + Changes(turns, i)
  {
    var n := |turns| - 1;
    if i <= n {
      var front := turns[..n];
      RetriesAreFew(front, i);
      assert front + [turns[n]] == turns;
      if turns[n].Tick? {
        DueIsWithinAPeriod(front, turns[n]);
      }
      OneAnswerPays(Run(front), turns[n]);
      hide Take, Sends, Missing, Renews, Registered;
    }
  }

  lemma {:induction false} HeartbeatsOfAPeriod(turns: seq<Turn>, i: nat)
    requires i < |turns| && Steady(turns) && Sends(Run(turns[..i]), turns[i])
    requires forall m :: i < m < |turns| && turns[m].Tick? ==> turns[m].now < turns[i].now + PERIOD_MS
    ensures Heartbeats(turns, i + 1) + Count(Run(turns).beat.nextSend < turns[i].now + PERIOD_MS)
         <= Changes(turns, i + 1) + Unknowns(turns, i)
  {
    var n, end := |turns| - 1, turns[i].now + PERIOD_MS;
    if i == n {
      assert Unknowns(turns[..n], i) == 0;
    } else {
      var front := turns[..n];
      assert front[..i] == turns[..i];
      HeartbeatsOfAPeriod(front, i);
      OneTurnPays(Run(front), turns[n], end);
      hide Take, Sends, Missing, Registered;
    }
  }
}
