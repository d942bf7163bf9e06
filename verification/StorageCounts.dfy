/** Which counts the storage manager applies: the newest only, each once, with its own three answers. */
module StorageCounts {
  import opened Storage
  import opened Wrappers

  /** Every count has its own number; what was applied is what a finished count holds. */
  ghost predicate Tallied(c: Counts) {
    && (forall i :: 0 <= i < |c.pending| ==> c.pending[i].seq_ <= c.latest)
    && (forall i, j :: 0 <= i < j < |c.pending| ==> c.pending[i].seq_ != c.pending[j].seq_)
    && (forall k :: 0 <= k < |c.applied| ==> c.applied[k].seq_ <= c.latest && Finished(c.pending, c.applied[k]))
    && (forall k, l :: 0 <= k < l < |c.applied| ==> c.applied[k].seq_ < c.applied[l].seq_)
  }

  /** The count whose three answers make `a`. */
  ghost predicate Finished(pending: seq<Count>, a: Applied) {
    exists i :: 0 <= i < |pending| && pending[i] == Count(a.seq_, Some(a.items), Some(a.store), Some(a.profile))
  }

  lemma FinishedStays(pending: seq<Count>, i: nat, a: Answer, x: Applied)
    requires i < |pending| && Finished(pending, x)
    ensures Finished(pending[i := Told(pending[i], a)], x)
  {
    var k :| 0 <= k < |pending| && pending[k] == Count(x.seq_, Some(x.items), Some(x.store), Some(x.profile));
    assert pending[i := Told(pending[i], a)][k] == pending[k];
  }

  lemma StartedIsTallied(c: Counts)
    requires Tallied(c)
    ensures Tallied(Started(c))
  {
    var d := Started(c);
    forall k | 0 <= k < |c.applied| ensures Finished(d.pending, c.applied[k]) {
      var i :| 0 <= i < |c.pending| && c.pending[i] == Count(c.applied[k].seq_, Some(c.applied[k].items),
                                                             Some(c.applied[k].store), Some(c.applied[k].profile));
      assert d.pending[i] == c.pending[i];
    }
    hide Finished;
  }

  /** The counts after an answer. */
  function CountsAfter(c: Counts, index: nat, a: Answer): Counts
    requires index < |c.pending|
  {
    var was, count := c.pending[index], Told(c.pending[index], a);
    var d := c.(pending := c.pending[index := count]);
    if was.Done() || !count.Done() || count.seq_ != c.latest then d
    else d.(applied := c.applied + [Applied(count.seq_, count.items.value, count.store.value, count.profile.value)])
  }

  lemma ToldIsTallied(c: Counts, index: nat, a: Answer)
    requires Tallied(c) && index < |c.pending|
    ensures Tallied(CountsAfter(c, index, a))
  {
    var was, count, d := c.pending[index], Told(c.pending[index], a), CountsAfter(c, index, a);
    forall k | 0 <= k < |c.applied| ensures Finished(d.pending, c.applied[k]) {
      FinishedStays(c.pending, index, a, c.applied[k]);
    }
    if d.applied != c.applied {
      var x := d.applied[|c.applied|];
      assert d.pending[index] == Count(x.seq_, Some(x.items), Some(x.store), Some(x.profile));
      forall k | 0 <= k < |c.applied| ensures c.applied[k].seq_ < x.seq_ {
        NotYetApplied(c, index, k);
      }
    }
    hide Finished;
  }

  /** A count that lacks an answer was not applied. */
  lemma NotYetApplied(c: Counts, index: nat, k: nat)
    requires Tallied(c) && index < |c.pending| && !c.pending[index].Done() && k < |c.applied|
    ensures c.applied[k].seq_ != c.pending[index].seq_
  {
    var x := c.applied[k];
    var i :| 0 <= i < |c.pending| && c.pending[i] == Count(x.seq_, Some(x.items), Some(x.store), Some(x.profile));
    assert i != index;
  }

  lemma CountsOfStep(m: Manager, e: Event)
    ensures Step(m, e).counts ==
      if e.Enter? then Started(m.counts.(latest := m.counts.latest + 1))
      else if e.Reset? then m.counts.(latest := m.counts.latest + 1)
      else if e.DeleteDone? || e.Recompute? then Started(m.counts)
      else if e.Answered? && e.count < |m.counts.pending| then CountsAfter(m.counts, e.count, e.answer)
      else m.counts
  {
    hide Built, Toggled, Left, Unpicked, Thumbed, Restored, PageItems, Hashes, Told;
  }

  lemma VoidedIsTallied(c: Counts)
    requires Tallied(c)
    ensures Tallied(c.(latest := c.latest + 1))
  {
    hide Finished;
  }

  lemma StepKeepsTallied(m: Manager, e: Event)
    requires Tallied(m.counts)
    ensures Tallied(Step(m, e).counts)
  {
    var c := m.counts;
    CountsOfStep(m, e);
    StartedIsTallied(c);
    VoidedIsTallied(c);
    StartedIsTallied(c.(latest := c.latest + 1));
    if e.Answered? && e.count < |c.pending| { ToldIsTallied(c, e.count, e.answer); }
    hide Tallied, Step;
  }

  lemma {:induction false} CountsAreTallied(events: seq<Event>)
    ensures Tallied(Run(events).counts)
  {
    if events != [] {
      CountsAreTallied(events[..|events| - 1]);
      StepKeepsTallied(Run(events[..|events| - 1]), events[|events| - 1]);
      hide Tallied, Step;
    }
  }

  /** Every applied count is its own count's three answers, and no count is applied twice or after a newer one. */
  lemma AppliedCountsAreTheirAnswers(events: seq<Event>, k: nat)
    requires k < |Run(events).counts.applied|
    ensures Finished(Run(events).counts.pending, Run(events).counts.applied[k])
    ensures forall l :: k < l < |Run(events).counts.applied| ==>
      Run(events).counts.applied[k].seq_ < Run(events).counts.applied[l].seq_
  {
    CountsAreTallied(events);
  }

  /** An event's new entry is of the newest count, and the newest number never falls. */
  lemma CountsGrow(m: Manager, e: Event)
    ensures var c, d := m.counts, Step(m, e).counts;
      && c.latest <= d.latest && |c.applied| <= |d.applied| && d.applied[..|c.applied|] == c.applied
      && forall k :: |c.applied| <= k < |d.applied| ==> d.applied[k].seq_ == c.latest
  {
    CountsOfStep(m, e);
    hide Step, Told;
  }

  lemma RunStep(events: seq<Event>)
    requires events != []
    ensures Run(events) == Step(Run(events[..|events| - 1]), events[|events| - 1])
  {
  }

  /** A reset or a newer start voids what is under way: nothing older is applied after it. */
  lemma {:induction false} VoidCountsStayOut(events: seq<Event>, i: nat)
    requires i <= |events|
    ensures var c, d := Run(events[..i]).counts, Run(events).counts;
      && c.latest <= d.latest && |c.applied| <= |d.applied|
      && forall k :: |c.applied| <= k < |d.applied| ==> c.latest <= d.applied[k].seq_
  {
    hide Run, Step;
    var n := |events| - 1;
    if i <= n {
      var front := events[..n];
      assert front[..i] == events[..i];
      VoidCountsStayOut(front, i);
      RunStep(events);
      CountsGrow(Run(front), events[n]);
    } else {
      assert events[..i] == events;
    }
  }

  /** The list shown is that of the last count applied. */
  lemma {:induction false} TheListIsTheLastCounted(events: seq<Event>)
    ensures var m, n := Run(events), |Run(events).counts.applied|;
      m.data.all == if n == 0 then [] else m.counts.applied[n - 1].items
  {
    assert events == [] ==> Run(events) == START;
    hide Run, Step;
    if events != [] {
      RunStep(events);
      TheListIsTheLastCounted(events[..|events| - 1]);
      ListOfStep(Run(events[..|events| - 1]), events[|events| - 1]);
    }
  }

  lemma ListOfStep(m: Manager, e: Event)
    ensures var n := Step(m, e);
      if n.counts.applied == m.counts.applied then n.data.all == m.data.all
      else |n.counts.applied| == |m.counts.applied| + 1 && n.data.all == n.counts.applied[|m.counts.applied|].items
  {
    hide Built, Toggled, Left, Unpicked, Thumbed, Restored, PageItems, Hashes, Told;
  }
}
