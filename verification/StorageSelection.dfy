/** The selection of the storage manager's open page: when the picked marks of its rows say what is selected. */
module StorageSelection {
  import opened Storage
  import opened StorageBackStack
  import opened StorageRows
  import opened Text
  import opened Wrappers

  // ----- One toggle -----

  /** No other row draws the content of item `index`. */
  ghost predicate AloneOnThePage(r: Rows, index: nat)
    requires index < |r.tabItems| && |r.cells| + |r.files| <= |r.tabItems|
  {
    forall k :: 0 <= k < |r.cells| + |r.files| && k != index ==> r.tabItems[k].hash != r.tabItems[index].hash
  }

  /** The mark of the row that draws item k. */
  function Mark(r: Rows, k: nat): bool
    requires k < |r.cells| + |r.files|
  {
    if k < |r.cells| then r.cells[k].picked else r.files[k - |r.cells|].picked
  }

  ghost predicate MarksSay(v: View)
    requires |v.rows.cells| + |v.rows.files| <= |v.rows.tabItems|
  {
    forall k :: 0 <= k < |v.rows.cells| + |v.rows.files| ==>
      (Mark(v.rows, k) <==> v.rows.tabItems[k].hash in v.selected)
  }

  lemma MarksSayTheSame(v: View)
    requires |v.rows.cells| + |v.rows.files| <= |v.rows.tabItems|
    ensures MarksAgree(v) <==> MarksSay(v)
  {
    var r := v.rows;
    if MarksSay(v) {
      forall i | 0 <= i < |r.cells| ensures r.cells[i].picked <==> r.tabItems[i].hash in v.selected {
        assert Mark(r, i) <==> r.tabItems[i].hash in v.selected;
      }
      forall j | 0 <= j < |r.files| ensures r.files[j].picked <==> r.tabItems[|r.cells| + j].hash in v.selected {
        assert Mark(r, |r.cells| + j) <==> r.tabItems[|r.cells| + j].hash in v.selected;
      }
    }
  }

  lemma MarkToggled(v: View, index: nat, k: nat)
    requires index < |v.rows.tabItems| && k < |v.rows.cells| + |v.rows.files|
    ensures var t := Toggled(v, index);
      && |t.rows.cells| == |v.rows.cells| && |t.rows.files| == |v.rows.files|
      && Mark(t.rows, k) == if k == index then v.rows.tabItems[index].hash !in v.selected else Mark(v.rows, k)
  {
  }

  /**
   * A tap keeps the marks and the selection in agreement if and only if no other row on the page draws the same
   * content: only the tapped row is marked, the selection goes by content.
   */
  lemma ToggleKeepsMarksExactly(v: View, index: nat)
    requires |v.rows.cells| + |v.rows.files| <= |v.rows.tabItems| && index < |v.rows.tabItems| && MarksAgree(v)
    ensures var t := Toggled(v, index);
      && t.rows.tabItems == v.rows.tabItems && |t.rows.cells| + |t.rows.files| <= |t.rows.tabItems|
      && (MarksAgree(t) <==> AloneOnThePage(v.rows, index))
  {
    var t := Toggled(v, index);
    MarksSayTheSame(v);
    MarksSayTheSame(t);
    forall k | 0 <= k < |v.rows.cells| + |v.rows.files|
      ensures (Mark(t.rows, k) <==> v.rows.tabItems[k].hash in t.selected)
         <==> (k == index || v.rows.tabItems[k].hash != v.rows.tabItems[index].hash)
    {
      MarkToggled(v, index, k);
    }
    hide Mark, MarksAgree;
  }

  // ----- Each content once -----

  ghost predicate Distinct(s: seq<Item>) { forall i, j :: 0 <= i < j < |s| ==> s[i].hash != s[j].hash }

  /** One item per chat and content. */
  ghost predicate OncePerChat(s: seq<Item>) {
    forall i, j :: 0 <= i < j < |s| && s[i].thread == s[j].thread ==> s[i].hash != s[j].hash
  }

  lemma {:induction false} OfThreadIsDistinct(s: seq<Item>, thread: string)
    requires OncePerChat(s)
    ensures Distinct(OfThread(s, thread))
    ensures forall i :: 0 <= i < |OfThread(s, thread)| ==>
      OfThread(s, thread)[i].thread == thread && OfThread(s, thread)[i] in s
  {
    if s != [] {
      var n := |s| - 1;
      var front, x := OfThread(s[..n], thread), s[n];
      OfThreadIsDistinct(s[..n], thread);
      forall i | 0 <= i < |front| ensures x.thread == thread ==> front[i].hash != x.hash {
        assert front[i] in s[..n];
        var k :| 0 <= k < n && s[k] == front[i];
      }
    }
  }

  lemma PageItemsAreDistinct(d: Data, large: bool, thread: string)
    requires OncePerChat(d.all) && Distinct(d.large)
    ensures Distinct(PageItems(d, large, thread))
  {
    OfThreadIsDistinct(d.all, thread);
  }

  lemma {:induction false} OfKindIsDistinct(s: seq<Item>, kind: Kind)
    requires Distinct(s)
    ensures Distinct(OfKind(s, kind)) && forall x :: x in OfKind(s, kind) ==> x in s
  {
    if s != [] {
      var n := |s| - 1;
      var front := OfKind(s[..n], kind);
      OfKindIsDistinct(s[..n], kind);
      forall i | 0 <= i < |front| ensures front[i].hash != s[n].hash {
        assert front[i] in s[..n];
        var k :| 0 <= k < n && s[k] == front[i];
      }
    }
  }

  lemma {:induction false} FirstsAreDistinct(s: seq<Item>, thread: string, kind: Kind)
    ensures Distinct(FirstsOf(s, thread, kind)) && forall x :: x in FirstsOf(s, thread, kind) ==> x in s
  {
    if s != [] {
      var n := |s| - 1;
      FirstsAreDistinct(s[..n], thread, kind);
      var front := FirstsOf(s[..n], thread, kind);
      assert forall i :: 0 <= i < |front| ==> front[i].hash in Hashes(front);
    }
  }

  lemma {:induction false} InsertedIsDistinct(o: Order, s: seq<Item>, x: Item)
    requires Distinct(s) && forall i :: 0 <= i < |s| ==> s[i].hash != x.hash
    ensures Distinct(Inserted(o, s, x))
  {
    if s != [] && !Before(o, x, s[0]) {
      InsertedIsDistinct(o, s[1..], x);
      InsertedHolds(o, s[1..], x);
      var rest := Inserted(o, s[1..], x);
      forall i | 0 <= i < |rest| ensures rest[i].hash != s[0].hash {
        assert rest[i] in rest;
      }
    }
  }

  lemma {:induction false} SortedIsDistinct(o: Order, s: seq<Item>)
    requires Distinct(s)
    ensures Distinct(Sorted(o, s))
  {
    if s != [] {
      var n := |s| - 1;
      var front := Sorted(o, s[..n]);
      SortedIsDistinct(o, s[..n]);
      SortedHolds(o, s[..n]);
      forall i | 0 <= i < |front| ensures front[i].hash != s[n].hash {
        assert front[i] in s[..n];
        var k :| 0 <= k < n && s[k] == front[i];
      }
      InsertedIsDistinct(o, front, s[n]);
    }
  }

  lemma ItemsOfAreDistinct(c: Choice, kind: Kind)
    requires Distinct(c.pageAll)
    ensures Distinct(ItemsOf(c, kind)) && forall x :: x in ItemsOf(c, kind) ==> x in c.pageAll
  {
    OfKindIsDistinct(c.pageAll, kind);
    FirstsAreDistinct(c.pageAll, c.thread, kind);
    SortedIsDistinct(NewerFirst, FirstsOf(c.pageAll, c.thread, kind));
    SortedHolds(NewerFirst, FirstsOf(c.pageAll, c.thread, kind));
    hide Distinct, Sorted, FirstsOf, OfKind;
  }

  lemma JoinedIsDistinct(all: seq<Item>, a: seq<Item>, b: seq<Item>)
    requires Distinct(all) && Distinct(a) && Distinct(b)
    requires forall x :: x in a || x in b ==> x in all
    requires forall i, j :: 0 <= i < |a| && 0 <= j < |b| ==> a[i] != b[j]
    ensures Distinct(a + b)
  {
    forall i, j | 0 <= i < |a| && 0 <= j < |b| ensures a[i].hash != b[j].hash {
      assert a[i] in all && b[j] in all;
      var k :| 0 <= k < |all| && all[k] == a[i];
      var l :| 0 <= l < |all| && all[l] == b[j];
      assert k != l;
    }
  }

  /** A page of distinct contents draws distinct contents, on every tab. */
  lemma TabItemsAreDistinct(c: Choice)
    requires Distinct(c.pageAll)
    ensures Distinct(TabItems(c))
  {
    if c.tab.Only? {
      ItemsOfAreDistinct(c, c.tab.kind);
    } else {
      var p, v, f := ItemsOf(c, Picture), ItemsOf(c, Video), ItemsOf(c, File);
      ItemsOfAreDistinct(c, Picture);
      ItemsOfAreDistinct(c, Video);
      ItemsOfAreDistinct(c, File);
      ItemsOfHaveTheirKind(c, Picture);
      ItemsOfHaveTheirKind(c, Video);
      ItemsOfHaveTheirKind(c, File);
      hide ItemsOf, Distinct, Sorted;
      JoinedIsDistinct(c.pageAll, p, v);
      SortedIsDistinct(ByTime, p + v);
      SortedHolds(ByTime, p + v);
      var few := FirstFew(MediaOf(c), c.shown);
      FewAreDistinct(MediaOf(c), c.shown);
      MediaHasNoFiles(c);
      FewKeepNoFiles(MediaOf(c), c.shown);
      JoinedIsDistinct(c.pageAll, few, f);
    }
  }

  lemma FewAreDistinct(s: seq<Item>, n: nat)
    requires Distinct(s)
    ensures Distinct(FirstFew(s, n)) && forall x :: x in FirstFew(s, n) ==> x in s
  {
  }

  // ----- Every run -----

  /** The lists hold each content once where the list says so: the stored items per chat, the large files at all. */
  ghost predicate ListsFit(e: Event) {
    e.Answered? ==> Distinct(e.large) && (e.answer.ItemsAre? ==> OncePerChat(e.answer.items))
  }

  ghost predicate DataFits(m: Manager) {
    && OncePerChat(m.data.all) && Distinct(m.data.large) && Distinct(m.view.choice.pageAll)
    && forall i :: 0 <= i < |m.counts.pending| && m.counts.pending[i].items.Some? ==>
         OncePerChat(m.counts.pending[i].items.value)
  }

  /** Nothing is selected outside select mode, and the marks say what is. */
  ghost predicate Marked(m: Manager) {
    && |m.view.rows.cells| + |m.view.rows.files| <= |m.view.rows.tabItems|
    && MarksAgree(m.view) && (!m.nav.selecting ==> m.view.selected == {})
  }

  lemma RefilledKeepsData(m: Manager, items: seq<Item>, large: seq<Item>, chats: seq<string>)
    requires DataFits(m) && OncePerChat(items) && Distinct(large)
    ensures DataFits(Refilled(m, items, large, chats))
  {
    PageItemsAreDistinct(Data(items, large, chats, m.data.thumbs), m.view.choice.large, m.view.choice.thread);
    hide Distinct, OncePerChat, PageItems, Built;
  }

  lemma HeardKeepsData(m: Manager, e: Event)
    requires DataFits(m) && ListsFit(e) && e.Answered?
    ensures DataFits(Step(m, e))
  {
    hide Distinct, OncePerChat, Refilled;
    if e.count < |m.counts.pending| {
      var count := Told(m.counts.pending[e.count], e.answer);
      var n := m.(counts := m.counts.(pending := m.counts.pending[e.count := count]));
      assert DataFits(n);
      if count.Done() {
        var o := n.(counts := n.counts.(applied := n.counts.applied
                     + [Applied(count.seq_, count.items.value, count.store.value, count.profile.value)]));
        RefilledKeepsData(o, count.items.value, e.large, e.chats);
      }
    }
  }

  lemma EnteredKeepsData(m: Manager, large: bool, thread: string)
    requires DataFits(m)
    ensures DataFits(Entered(m, large, thread))
  {
    PageItemsAreDistinct(m.data, large, thread);
    hide Distinct, OncePerChat, PageItems, Built;
  }

  lemma NothingIsDistinct()
    ensures Distinct([]) && OncePerChat([])
  {
  }

  /** Every other event keeps the lists; it may drop those of the page and start a count. */
  lemma OthersKeepLists(m: Manager, e: Event)
    requires !e.Answered? && !e.OpenLarge? && !e.OpenChat?
    ensures
      var n, pending := Step(m, e), m.counts.pending;
      && n.data.all == m.data.all && n.data.large == m.data.large
      && (n.view.choice.pageAll == m.view.choice.pageAll || n.view.choice.pageAll == [])
      && (n.counts.pending == pending || n.counts.pending == pending + [Count(m.counts.latest + 1, None, None, None)]
          || n.counts.pending == pending + [Count(m.counts.latest + 2, None, None, None)])
  {
    hide Built, Unpicked, Thumbed, Restored, Cleared, ItemsLeft, OnMain, WithSelect, Unselected;
  }

  lemma StepKeepsData(m: Manager, e: Event)
    requires DataFits(m) && ListsFit(e)
    ensures DataFits(Step(m, e))
  {
    if e.Answered? {
      HeardKeepsData(m, e);
    } else if e.OpenLarge? {
      EnteredKeepsData(m, true, "");
      hide DataFits, Entered;
    } else if e.OpenChat? {
      if 0 <= e.index < |m.data.chats| { EnteredKeepsData(m, false, m.data.chats[e.index]); }
      hide DataFits, Entered;
    } else {
      NothingIsDistinct();
      OthersKeepLists(m, e);
      hide Step, Distinct, OncePerChat;
    }
  }

  lemma BuiltIsMarked(m: Manager, c: Choice, selected: set<string>)
    requires !m.nav.selecting ==> selected == {}
    ensures Marked(m.(view := View(c, Built(c, m.data.thumbs, selected), selected)))
  {
    BuiltDraws(c, m.data.thumbs, selected);
    hide Built, MarksAgree;
  }

  lemma MarkedFrame(m: Manager, n: Manager)
    requires Marked(m) && n.view == m.view && n.nav.selecting == m.nav.selecting
    ensures Marked(n)
  {
    hide MarksAgree;
  }

  lemma SelectingIsMarked(m: Manager)
    requires Marked(m) && !m.nav.selecting
    ensures Marked(Selecting(m))
  {
    hide MarksAgree;
    assert m.view.(selected := {}) == m.view;
  }

  lemma SelectLeftIsMarked(m: Manager, clear: bool)
    requires Marked(m)
    ensures Marked(SelectLeft(m, clear))
  {
  }

  lemma LeftIsMarked(m: Manager, n: Manager)
    requires n.view == Left(m.view)
    ensures Marked(n)
  {
  }

  lemma ToggledIsMarked(m: Manager, index: nat)
    requires Marked(m) && Fits(m) && DataFits(m) && m.nav.selecting && m.nav.page == Items
    requires index < |m.view.rows.tabItems|
    ensures Marked(m.(view := Toggled(m.view, index)))
  {
    TabItemsAreDistinct(m.view.choice);
    assert m.view.rows.tabItems == TabItems(m.view.choice);
    assert AloneOnThePage(m.view.rows, index);
    ToggleKeepsMarksExactly(m.view, index);
    hide MarksAgree, Toggled, Fits, DataFits;
  }

  lemma TappedIsMarked(m: Manager, index: int, first: nat, rows: nat)
    requires Marked(m) && Fits(m) && DataFits(m) && InStep(m.nav)
    ensures Marked(Tapped(m, index, first, rows))
  {
    assert m.nav.selecting ==> m.nav.page == Items;
    hide Marked, Toggled, Fits, DataFits, InStep;
    if m.nav.selecting && 0 <= index && first + index < |m.view.rows.tabItems| { ToggledIsMarked(m, first + index); }
  }

  lemma PressedIsMarked(m: Manager, index: int)
    requires Marked(m) && Fits(m) && DataFits(m)
    ensures Marked(Pressed(m, index))
  {
    if m.nav.page == Items && 0 <= index < |m.view.rows.tabItems| {
      var n := if m.nav.selecting then m else Selecting(m);
      if !m.nav.selecting { SelectingIsMarked(m); }
      FitsFrame(m, n);
      hide Marked, Fits, DataFits;
      assert DataFits(n) by { SameData(m, n); }
      ToggledIsMarked(n, index);
    }
  }

  lemma SameData(m: Manager, n: Manager)
    requires DataFits(m) && n.data == m.data && n.view.choice == m.view.choice && n.counts == m.counts
    ensures DataFits(n)
  {
  }

  lemma HeardIsMarked(m: Manager, index: nat, a: Answer, large: seq<Item>, chats: seq<string>)
    requires Marked(m)
    ensures Marked(Heard(m, index, a, large, chats))
  {
    if index < |m.counts.pending| {
      var count := Told(m.counts.pending[index], a);
      var n := m.(counts := m.counts.(pending := m.counts.pending[index := count]));
      MarkedFrame(m, n);
      if count.Done() {
        var d := Data(count.items.value, large, chats, m.data.thumbs);
        var c := m.view.choice.(pageAll := PageItems(d, m.view.choice.large, m.view.choice.thread));
        var o := n.(counts := n.counts.(applied := n.counts.applied
                     + [Applied(count.seq_, count.items.value, count.store.value, count.profile.value)]));
        MarkedFrame(m, o.(data := d));
        BuiltIsMarked(o.(data := d), c, m.view.selected * Hashes(c.pageAll));
      }
    }
    hide Marked, Built, PageItems, Hashes;
  }

  lemma ThumbMadeIsMarked(m: Manager, thread: string, hash: string, path: string)
    requires Marked(m) && Fits(m)
    ensures Marked(ThumbMade(m, thread, hash, path))
  {
    if (thread, hash) !in m.data.thumbs && path != "" {
      ThumbedDraws(m.view.rows, m.data.thumbs, thread, hash, path);
      hide Thumbed;
    }
  }

  lemma ChosenIsMarked(m: Manager, c: Choice)
    requires !m.nav.selecting ==> m.view.selected == {}
    ensures Marked(Chosen(m, c))
  {
    BuiltIsMarked(m, c, m.view.selected);
    hide Marked, Built;
  }

  lemma NothingIsSelected(m: Manager)
    requires Marked(m) && !m.nav.selecting
    ensures m.view.selected == {}
  {
  }

  lemma TabKeepsMarks(m: Manager, tab: Option<Tab>)
    requires Marked(m)
    ensures Marked(Step(m, SetTab(tab)))
  {
    hide Marked, Chosen;
    if !m.nav.selecting { NothingIsSelected(m); }
    if tab.Some? { ChosenIsMarked(m, m.view.choice.(tab := tab.value, shown := PAGE_SIZE)); }
  }

  lemma MoreKeepsMarks(m: Manager)
    requires Marked(m)
    ensures Marked(Step(m, LoadMore))
  {
    hide Marked, Chosen;
    if !m.nav.selecting { NothingIsSelected(m); }
    ChosenIsMarked(m, m.view.choice.(shown := m.view.choice.shown + PAGE_SIZE));
  }

  lemma TapsKeepMarks(m: Manager, e: Event)
    requires Marked(m) && Fits(m) && DataFits(m) && InStep(m.nav) && (e.TapCell? || e.TapFile?)
    ensures Marked(Step(m, e))
  {
    hide Marked, Fits, DataFits, InStep, Tapped;
    match e
    case TapCell(index) => TappedIsMarked(m, index, 0, |m.view.rows.cells|);
    case TapFile(index) => TappedIsMarked(m, index, |m.view.rows.cells|, |m.view.rows.files|);
  }

  lemma NewsKeepsMarks(m: Manager, e: Event)
    requires Marked(m) && Fits(m)
    requires e.DeleteStarts? || e.Recompute? || e.Answered? || e.ThumbReady?
    ensures Marked(Step(m, e))
  {
    hide Marked, Fits, Heard, ThumbMade, Started;
    match e
    case DeleteStarts => MarkedFrame(m, m.(busy := true));
    case Recompute => MarkedFrame(m, m.(counts := Started(m.counts)));
    case Answered(count, answer, large, chats) => HeardIsMarked(m, count, answer, large, chats);
    case ThumbReady(thread, hash, path) => ThumbMadeIsMarked(m, thread, hash, path);
  }

  lemma RowEventsKeepMarks(m: Manager, e: Event)
    requires Marked(m) && Fits(m) && DataFits(m) && InStep(m.nav) && TouchesRowsOnly(e)
    ensures Marked(Step(m, e))
  {
    hide Marked, Fits, DataFits, InStep, Step;
    if e.SetTab? {
      TabKeepsMarks(m, e.tab);
    } else if e.LoadMore? {
      MoreKeepsMarks(m);
    } else if e.TapCell? || e.TapFile? {
      TapsKeepMarks(m, e);
    } else {
      NewsKeepsMarks(m, e);
    }
  }

  lemma OpeningKeepsMarks(m: Manager, e: Event)
    requires Marked(m) && Fits(m) && DataFits(m) && Opens(e)
    ensures Marked(Step(m, e))
  {
    hide Marked, Fits, DataFits, Entered, Pressed;
    match e
    case OpenManage => MarkedFrame(m, m.(nav := WithManage(m.nav)));
    case OpenLarge => EnteredIsMarked(m, true, "");
    case OpenChat(index) => if 0 <= index < |m.data.chats| { EnteredIsMarked(m, false, m.data.chats[index]); }
    case LongPress(index) => PressedIsMarked(m, index);
  }

  lemma LeavingKeepsMarks(m: Manager, e: Event)
    requires Marked(m) && Leaves(e)
    ensures Marked(Step(m, e))
  {
    SelectLeftIsMarked(m, true);
    if !m.nav.selecting { SelectingIsMarked(m); }
    hide Marked, Cleared, ItemsLeft, OnMain, Unpicked, Left, Started, Selecting;
    var n := Step(m, e);
    if e.DeleteDone? {
      MarkedFrame(if m.nav.selecting then SelectLeft(m, true) else m, n);
    } else if n.view == Left(m.view) {
      LeftIsMarked(m, n);
    } else if !m.nav.selecting && e.Back? {
      MarkedFrame(m, n);
    }
  }

  lemma PageEventsKeepMarks(m: Manager, e: Event)
    requires Marked(m) && Fits(m) && DataFits(m) && InStep(m.nav) && !TouchesRowsOnly(e)
    ensures Marked(Step(m, e))
  {
    hide Marked, Fits, DataFits, InStep, Popped, Pushed, AllCleared, Cleared;
    if Opens(e) {
      OpeningKeepsMarks(m, e);
      hide Step;
    } else if Leaves(e) {
      LeavingKeepsMarks(m, e);
      hide Step;
    } else if e.ShellPop? {
      PopIsMarked(m);
    } else {
      MarkedFrame(m, Step(m, e));
    }
  }

  lemma EnteredIsMarked(m: Manager, large: bool, thread: string)
    ensures Marked(Entered(m, large, thread))
  {
    var c := Choice(All, large, thread, PAGE_SIZE, PageItems(m.data, large, thread));
    BuiltIsMarked(m.(nav := WithItems(m.nav)), c, {});
    hide Marked, Built;
  }

  lemma PopIsMarked(m: Manager)
    requires Marked(m) && InStep(m.nav)
    ensures Marked(Popped(m))
  {
    var s := m.nav.stack;
    if s != [] {
      TopIsNearest(m.nav);
      var o := WithStack(m, s[..|s| - 1]);
      MarkedFrame(m, o);
      SelectLeftIsMarked(o, false);
      LeftIsMarked(m, o.(nav := ItemsLeft(o.nav, Manage), view := Left(o.view)));
      MarkedFrame(m, o.(nav := o.nav.(page := Main)));
      hide Marked, InStep, Left, Unpicked;
    }
  }

  /** In every reachable state the picked marks say what is selected, when the lists hold each content once. */
  lemma {:induction false} MarksAgreeInEveryState(events: seq<Event>)
    requires forall i :: 0 <= i < |events| ==> ListsFit(events[i])
    ensures DataFits(Run(events)) && Marked(Run(events))
  {
    hide ListsFit, DataFits, Marked, Step, TouchesRowsOnly;
    if events == [] {
      NothingIsMarked();
    } else {
      var front, e := events[..|events| - 1], events[|events| - 1];
      MarksAgreeInEveryState(front);
      RowsDrawTheirItems(front);
      BackStackIsInStep(front);
      StepKeepsData(Run(front), e);
      if TouchesRowsOnly(e) { RowEventsKeepMarks(Run(front), e); } else { PageEventsKeepMarks(Run(front), e); }
    }
  }

  lemma NothingIsMarked()
    ensures DataFits(START) && Marked(START)
  {
  }
}
