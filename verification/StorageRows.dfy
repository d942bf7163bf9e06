/**
 * The rows of the storage manager's open page in every reachable state: which item each row draws, how loading more
 * extends them, and when the picked marks agree with the selection.
 */
module StorageRows {
  import opened Storage
  import opened StorageBackStack
  import opened Text
  import opened Wrappers

  // ----- Sorting and filtering keep what they should -----

  ghost predicate AllOfKind(s: seq<Item>, kind: Kind) { forall i :: 0 <= i < |s| ==> s[i].kind == kind }

  ghost predicate NoFiles(s: seq<Item>) { forall i :: 0 <= i < |s| ==> s[i].kind != File }

  lemma {:induction false} InsertedHolds(o: Order, s: seq<Item>, x: Item)
    ensures |Inserted(o, s, x)| == |s| + 1
    ensures forall y :: y in Inserted(o, s, x) <==> y in s || y == x
  {
    if s != [] && !Before(o, x, s[0]) {
      InsertedHolds(o, s[1..], x);
      assert s == [s[0]] + s[1..];
    }
  }

  lemma {:induction false} SortedHolds(o: Order, s: seq<Item>)
    ensures |Sorted(o, s)| == |s| && forall y :: y in Sorted(o, s) <==> y in s
  {
    if s != [] {
      SortedHolds(o, s[..|s| - 1]);
      InsertedHolds(o, Sorted(o, s[..|s| - 1]), s[|s| - 1]);
      assert s == s[..|s| - 1] + [s[|s| - 1]];
    }
  }

  lemma SortedKeepsKind(o: Order, s: seq<Item>, kind: Kind)
    requires AllOfKind(s, kind)
    ensures AllOfKind(Sorted(o, s), kind)
  {
    SortedHolds(o, s);
    var t := Sorted(o, s);
    forall i | 0 <= i < |t| ensures t[i].kind == kind { assert t[i] in s; }
  }

  lemma SortedKeepsNoFiles(o: Order, s: seq<Item>)
    requires NoFiles(s)
    ensures NoFiles(Sorted(o, s))
  {
    SortedHolds(o, s);
    var t := Sorted(o, s);
    forall i | 0 <= i < |t| ensures t[i].kind != File { assert t[i] in s; }
  }

  lemma {:induction false} OfKindIsOfKind(items: seq<Item>, kind: Kind)
    ensures AllOfKind(OfKind(items, kind), kind)
  {
    if items != [] { OfKindIsOfKind(items[..|items| - 1], kind); }
  }

  lemma {:induction false} FirstsAreOfKind(items: seq<Item>, thread: string, kind: Kind)
    ensures AllOfKind(FirstsOf(items, thread, kind), kind)
  {
    if items != [] { FirstsAreOfKind(items[..|items| - 1], thread, kind); }
  }

  lemma ItemsOfHaveTheirKind(c: Choice, kind: Kind)
    ensures AllOfKind(ItemsOf(c, kind), kind)
  {
    OfKindIsOfKind(c.pageAll, kind);
    FirstsAreOfKind(c.pageAll, c.thread, kind);
    SortedKeepsKind(NewerFirst, FirstsOf(c.pageAll, c.thread, kind), kind);
  }

  lemma MediaHasNoFiles(c: Choice)
    ensures NoFiles(MediaOf(c))
  {
    ItemsOfHaveTheirKind(c, Picture);
    ItemsOfHaveTheirKind(c, Video);
    hide ItemsOf;
    SortedKeepsNoFiles(ByTime, ItemsOf(c, Picture) + ItemsOf(c, Video));
  }

  /** The drawn items: first those with a cell, then those with a file row. */
  lemma DrawnInTwo(c: Choice) returns (media: seq<Item>, files: seq<Item>)
    ensures Drawn(c) == media + files && NoFiles(media) && AllOfKind(files, File)
    ensures |Drawn(c)| <= |TabItems(c)| && TabItems(c)[..|Drawn(c)|] == Drawn(c)
    ensures media == match c.tab
                     case All => FirstFew(MediaOf(c), c.shown)
                     case Only(kind) => if kind == File then [] else FirstFew(ItemsOf(c, kind), c.shown)
    ensures files == match c.tab
                     case All => ItemsOf(c, File)
                     case Only(kind) => if kind == File then FirstFew(ItemsOf(c, File), c.shown) else []
  {
    MediaHasNoFiles(c);
    ItemsOfHaveTheirKind(c, File);
    if c.tab.Only? { ItemsOfHaveTheirKind(c, c.tab.kind); }
    hide ItemsOf, MediaOf;
    match c.tab
    case All =>
      media, files := FirstFew(MediaOf(c), c.shown), ItemsOf(c, File);
      FewKeepNoFiles(MediaOf(c), c.shown);
    case Only(kind) =>
      var few := FirstFew(ItemsOf(c, kind), c.shown);
      FewKeepKind(ItemsOf(c, kind), kind, c.shown);
      media, files := if kind == File then [] else few, if kind == File then few else [];
  }

  lemma FewKeepNoFiles(s: seq<Item>, n: nat)
    requires NoFiles(s)
    ensures NoFiles(FirstFew(s, n))
  {
  }

  lemma FewKeepKind(s: seq<Item>, kind: Kind, n: nat)
    requires AllOfKind(s, kind)
    ensures AllOfKind(FirstFew(s, n), kind)
  {
  }

  // ----- Rows draw their items -----

  /** Apart from the picked mark. */
  predicate CellDraws(cell: Cell, x: Item, thumbs: Thumbs) {
    cell == CellOf(x, thumbs, cell.picked) && x.kind != File
  }

  predicate FileDraws(f: FileRow, x: Item) { f == FileOf(x, f.picked) && x.kind == File }

  /** Cell i draws item i of the tab; file row j draws item |cells| + j. */
  ghost predicate RowsDraw(r: Rows, thumbs: Thumbs) {
    && |r.cells| + |r.files| <= |r.tabItems|
    && (forall i :: 0 <= i < |r.cells| ==> CellDraws(r.cells[i], r.tabItems[i], thumbs))
    && (forall j :: 0 <= j < |r.files| ==> FileDraws(r.files[j], r.tabItems[|r.cells| + j]))
  }

  /** The picked marks say what is selected. */
  ghost predicate MarksAgree(v: View)
    requires |v.rows.cells| + |v.rows.files| <= |v.rows.tabItems|
  {
    var r := v.rows;
    && (forall i :: 0 <= i < |r.cells| ==> (r.cells[i].picked <==> r.tabItems[i].hash in v.selected))
    && (forall j :: 0 <= j < |r.files| ==> (r.files[j].picked <==> r.tabItems[|r.cells| + j].hash in v.selected))
  }

  lemma OneRowMore(all: seq<Item>, thumbs: Thumbs, selected: set<string>)
    requires all != []
    ensures
      var front, x := all[..|all| - 1], all[|all| - 1];
      var picked := x.hash in selected;
      && CellsOf(all, thumbs, selected) ==
           CellsOf(front, thumbs, selected) + (if x.kind == File then [] else [CellOf(x, thumbs, picked)])
      && FilesOf(all, selected) == FilesOf(front, selected) + if x.kind == File then [FileOf(x, picked)] else []
  {
  }

  lemma {:induction false} RowsOfTwo(media: seq<Item>, files: seq<Item>, thumbs: Thumbs, selected: set<string>)
    requires NoFiles(media) && AllOfKind(files, File)
    ensures var cells, rows := CellsOf(media + files, thumbs, selected), FilesOf(media + files, selected);
      && |cells| == |media| && |rows| == |files|
      && (forall i :: 0 <= i < |media| ==> cells[i] == CellOf(media[i], thumbs, media[i].hash in selected))
      && (forall j :: 0 <= j < |files| ==> rows[j] == FileOf(files[j], files[j].hash in selected))
  {
    hide CellsOf, FilesOf, CellOf, FileOf;
    var all := media + files;
    if files != [] {
      var n := |files| - 1;
      assert all[..|all| - 1] == media + files[..n] && all[|all| - 1] == files[n];
      RowsOfTwo(media, files[..n], thumbs, selected);
      OneRowMore(all, thumbs, selected);
    } else if media != [] {
      var n := |media| - 1;
      assert all[..n] == media[..n] + [] && all[n] == media[n];
      RowsOfTwo(media[..n], [], thumbs, selected);
      OneRowMore(all, thumbs, selected);
    } else {
      NoItemsNoRows(thumbs, selected);
    }
  }

  lemma NoItemsNoRows(thumbs: Thumbs, selected: set<string>)
    ensures CellsOf([], thumbs, selected) == [] && FilesOf([], selected) == []
  {
  }

  lemma TwoDraw(media: seq<Item>, files: seq<Item>, r: Rows, thumbs: Thumbs, selected: set<string>, c: Choice)
    requires NoFiles(media) && AllOfKind(files, File)
    requires |media| + |files| <= |r.tabItems| && r.tabItems[..|media| + |files|] == media + files
    requires |r.cells| == |media| && |r.files| == |files|
    requires forall i :: 0 <= i < |media| ==> r.cells[i] == CellOf(media[i], thumbs, media[i].hash in selected)
    requires forall j :: 0 <= j < |files| ==> r.files[j] == FileOf(files[j], files[j].hash in selected)
    ensures RowsDraw(r, thumbs) && MarksAgree(View(c, r, selected))
  {
    var t, all := r.tabItems, media + files;
    forall i | 0 <= i < |media| ensures t[i] == media[i] { assert t[..|all|][i] == all[i]; }
    forall j | 0 <= j < |files| ensures t[|media| + j] == files[j] {
      assert t[..|all|][|media| + j] == all[|media| + j];
    }
  }

  /** Rows just built draw their items, and their marks are right. */
  lemma BuiltDraws(c: Choice, thumbs: Thumbs, selected: set<string>)
    ensures var r := Built(c, thumbs, selected);
      RowsDraw(r, thumbs) && MarksAgree(View(c, r, selected)) && |r.cells| + |r.files| == |Drawn(c)|
  {
    hide CellsOf, FilesOf, Drawn, TabItems, RowsDraw, MarksAgree, NoFiles, AllOfKind, HasMore, CellOf, FileOf;
    var media, files := DrawnInTwo(c);
    RowsOfTwo(media, files, thumbs, selected);
    TwoDraw(media, files, Built(c, thumbs, selected), thumbs, selected, c);
  }

  // ----- Every event keeps the rows drawn -----

  /** The rows of a page that is open: built from the choice, but for the marks. */
  ghost predicate Fits(m: Manager) {
    && RowsDraw(m.view.rows, m.data.thumbs)
    && (m.nav.page == Items ==>
      && m.view.rows.tabItems == TabItems(m.view.choice) && m.view.rows.hasMore == HasMore(m.view.choice)
      && m.view.rows.listEmpty == (TabItems(m.view.choice) == [])
      && |m.view.rows.cells| + |m.view.rows.files| == |Drawn(m.view.choice)|)
    && (m.nav.page != Items ==> m.view.rows.tabItems == [] && m.view.rows.cells == [] && m.view.rows.files == []
                                && m.view.choice.pageAll == [] && m.view.selected == {})
  }

  /** Marks alone. */
  lemma MarksDoNotMatter(r: Rows, s: Rows, thumbs: Thumbs)
    requires RowsDraw(r, thumbs) && s.tabItems == r.tabItems && |s.cells| == |r.cells| && |s.files| == |r.files|
    requires forall i :: 0 <= i < |r.cells| ==> s.cells[i] == r.cells[i].(picked := s.cells[i].picked)
    requires forall j :: 0 <= j < |r.files| ==> s.files[j] == r.files[j].(picked := s.files[j].picked)
    ensures RowsDraw(s, thumbs)
  {
  }

  lemma ToggledKeepsRows(v: View, index: nat, thumbs: Thumbs)
    requires index < |v.rows.tabItems| && RowsDraw(v.rows, thumbs)
    ensures var r := Toggled(v, index).rows;
      && RowsDraw(r, thumbs) && |r.cells| == |v.rows.cells| && |r.files| == |v.rows.files|
      && r.tabItems == v.rows.tabItems && r.hasMore == v.rows.hasMore && r.listEmpty == v.rows.listEmpty
    ensures Toggled(v, index).choice == v.choice
  {
    MarksDoNotMatter(v.rows, Toggled(v, index).rows, thumbs);
  }

  lemma UnpickedKeepsRows(r: Rows, thumbs: Thumbs)
    requires RowsDraw(r, thumbs)
    ensures var s := Unpicked(r);
      && RowsDraw(s, thumbs) && |s.cells| == |r.cells| && |s.files| == |r.files|
      && s.tabItems == r.tabItems && s.hasMore == r.hasMore && s.listEmpty == r.listEmpty
  {
    MarksDoNotMatter(r, Unpicked(r), thumbs);
  }

  /** A thumbnail reaches every cell of its item, and no other. */
  lemma ThumbedDraws(r: Rows, thumbs: Thumbs, thread: string, hash: string, path: string)
    requires RowsDraw(r, thumbs) && (thread, hash) !in thumbs && path != ""
    ensures var s := Thumbed(r, thread, hash, path);
      && RowsDraw(s, thumbs[(thread, hash) := path]) && |s.cells| == |r.cells| && |s.files| == |r.files|
      && s.tabItems == r.tabItems && s.hasMore == r.hasMore && s.listEmpty == r.listEmpty
      && forall i :: 0 <= i < |r.cells| ==> s.cells[i].picked == r.cells[i].picked
  {
    var s, more := Thumbed(r, thread, hash, path), thumbs[(thread, hash) := path];
    forall i | 0 <= i < |r.cells| ensures CellDraws(s.cells[i], s.tabItems[i], more) {
      assert CellDraws(r.cells[i], r.tabItems[i], thumbs);
    }
    assert forall j :: 0 <= j < |r.files| ==> FileDraws(r.files[j], r.tabItems[|r.cells| + j]);
  }

  lemma BuiltFits(m: Manager, c: Choice, selected: set<string>)
    requires m.nav.page == Items
    ensures Fits(m.(view := View(c, Built(c, m.data.thumbs, selected), selected)))
  {
    BuiltDraws(c, m.data.thumbs, selected);
    hide Drawn, HasMore, CellsOf, FilesOf, TabItems;
  }

  lemma FitsFrame(m: Manager, n: Manager)
    requires Fits(m) && n.data.thumbs == m.data.thumbs && n.view.choice == m.view.choice
    requires n.nav.page == m.nav.page || (m.nav.page != Items && n.nav.page != Items)
    requires n.view.rows == m.view.rows && (n.view.selected == m.view.selected || m.nav.page == Items)
    ensures Fits(n)
  {
    hide RowsDraw, TabItems, HasMore, Drawn;
  }

  lemma LeftFits(m: Manager, n: Manager)
    requires n.nav.page != Items && n.view == Left(m.view)
    ensures Fits(n)
  {
  }

  lemma SelectLeftFits(m: Manager, clear: bool)
    requires Fits(m) && m.nav.page == Items
    ensures Fits(SelectLeft(m, clear))
  {
    UnpickedKeepsRows(m.view.rows, m.data.thumbs);
    hide RowsDraw, Unpicked, TabItems, HasMore, Drawn;
  }

  lemma ToggledFits(m: Manager, index: nat)
    requires Fits(m) && m.nav.page == Items && index < |m.view.rows.tabItems|
    ensures Fits(m.(view := Toggled(m.view, index)))
  {
    ToggledKeepsRows(m.view, index, m.data.thumbs);
    hide RowsDraw, Toggled, TabItems, HasMore, Drawn;
  }

  lemma ThumbMadeFits(m: Manager, thread: string, hash: string, path: string)
    requires Fits(m)
    ensures Fits(ThumbMade(m, thread, hash, path))
  {
    if (thread, hash) !in m.data.thumbs && path != "" {
      ThumbedDraws(m.view.rows, m.data.thumbs, thread, hash, path);
      hide RowsDraw, Thumbed, TabItems, HasMore, Drawn;
      assert m.nav.page != Items ==> RowsDraw(m.view.rows, m.data.thumbs[(thread, hash) := path]) by {
        if m.nav.page != Items { NoRowsDraw(m.view.rows, m.data.thumbs[(thread, hash) := path]); }
      }
    }
  }

  lemma NoRowsDraw(r: Rows, thumbs: Thumbs)
    requires r.cells == [] && r.files == []
    ensures RowsDraw(r, thumbs)
  {
  }

  lemma RefilledFits(m: Manager, items: seq<Item>, large: seq<Item>, chats: seq<string>)
    requires Fits(m)
    ensures Fits(Refilled(m, items, large, chats))
  {
    var d := Data(items, large, chats, m.data.thumbs);
    if m.nav.page == Items {
      var c := m.view.choice.(pageAll := PageItems(d, m.view.choice.large, m.view.choice.thread));
      BuiltFits(m.(data := d), c, m.view.selected * Hashes(c.pageAll));
    } else {
      FitsFrame(m, m.(data := d));
    }
    hide Fits, Built, Hashes, PageItems;
  }

  lemma HeardFits(m: Manager, index: nat, a: Answer, large: seq<Item>, chats: seq<string>)
    requires Fits(m)
    ensures Fits(Heard(m, index, a, large, chats))
  {
    if index < |m.counts.pending| {
      var count := Told(m.counts.pending[index], a);
      var n := m.(counts := m.counts.(pending := m.counts.pending[index := count]));
      FitsFrame(m, n);
      if count.Done() {
        var o := n.(counts := n.counts.(applied := n.counts.applied
                     + [Applied(count.seq_, count.items.value, count.store.value, count.profile.value)]));
        FitsFrame(m, o);
        hide Fits, Refilled;
        RefilledFits(o, count.items.value, large, chats);
      }
    }
    hide Fits, Refilled;
  }

  lemma TappedFits(m: Manager, index: int, first: nat, rows: nat)
    requires Fits(m) && (m.nav.selecting ==> m.nav.page == Items)
    ensures Fits(Tapped(m, index, first, rows))
  {
    if m.nav.selecting && 0 <= index && first + index < |m.view.rows.tabItems| { ToggledFits(m, first + index); }
    hide Fits, Toggled;
  }

  lemma ChoicesFit(m: Manager, e: Event)
    requires Fits(m) && (e.SetTab? || e.LoadMore?)
    ensures Fits(Step(m, e))
  {
    hide Fits, Built;
    var c := m.view.choice;
    if m.nav.page == Items {
      BuiltFits(m, if e.LoadMore? then c.(shown := c.shown + PAGE_SIZE)
                   else if e.tab.Some? then c.(tab := e.tab.value, shown := PAGE_SIZE) else c, m.view.selected);
    }
  }

  lemma RowEventsFit(m: Manager, e: Event)
    requires Fits(m) && InStep(m.nav) && TouchesRowsOnly(e)
    ensures Fits(Step(m, e))
  {
    match e
    case SetTab(_) => ChoicesFit(m, e);
    case LoadMore => ChoicesFit(m, e);
    case TapCell(index) =>
      hide Fits, Tapped;
      TappedFits(m, index, 0, |m.view.rows.cells|);
    case TapFile(index) =>
      hide Fits, Tapped;
      TappedFits(m, index, |m.view.rows.cells|, |m.view.rows.files|);
    case DeleteStarts => FitsFrame(m, m.(busy := true));
    case Recompute => FitsFrame(m, m.(counts := Started(m.counts)));
    case Answered(count, answer, large, chats) =>
      hide Fits, Heard;
      HeardFits(m, count, answer, large, chats);
    case ThumbReady(thread, hash, path) =>
      hide Fits, ThumbMade;
      ThumbMadeFits(m, thread, hash, path);
  }

  lemma PressedFits(m: Manager, index: int)
    requires Fits(m)
    ensures Fits(Pressed(m, index))
  {
    if m.nav.page == Items && 0 <= index < |m.view.rows.tabItems| {
      FitsFrame(m, Selecting(m));
      var n := if m.nav.selecting then m else Selecting(m);
      hide Fits;
      ToggledFits(n, index) by { assert n.nav.page == Items && n.view.rows == m.view.rows; }
    }
  }

  /** Events that leave rows and selection as they are. */
  predicate MovesStackOnly(e: Event) { e.LayoutSwitch? || e.OpenManage? || e.OtherPush? || e.OtherClear? }

  lemma StackEventsFit(m: Manager, e: Event)
    requires Fits(m) && MovesStackOnly(e)
    ensures Fits(Step(m, e))
  {
    FitsFrame(m, Step(m, e));
    hide Fits;
  }

  lemma SelectEventsFit(m: Manager, e: Event)
    requires Fits(m) && (m.nav.selecting ==> m.nav.page == Items) && (e.ToggleSelect? || e.DeleteDone?)
    ensures Fits(Step(m, e))
  {
    if m.nav.page == Items {
      SelectLeftFits(m, true);
      FitsFrame(m, Selecting(m));
    }
    if e.DeleteDone? {
      FitsFrame(if m.nav.selecting then SelectLeft(m, true) else m, Step(m, e));
    }
    hide Fits, SelectLeft, Selecting;
  }

  /** Events that take a page, leave one, or move the stack. */
  lemma PageEventsFit(m: Manager, e: Event)
    requires Fits(m) && InStep(m.nav) && !TouchesRowsOnly(e)
    ensures Fits(Step(m, e))
  {
    var n := Step(m, e);
    assert m.nav.selecting ==> m.nav.page == Items;
    hide InStep, Fits;
    match e
    case Enter => LeftFits(m, n);
    case Reset => LeftFits(m, n);
    case LayoutSwitch(_) => StackEventsFit(m, e);
    case OpenManage => StackEventsFit(m, e);
    case OpenLarge => if n != m { EnteredFits(m, true, ""); }
    case OpenChat(index) => if n != m { EnteredFits(m, false, m.data.chats[index]); }
    case LongPress(index) => PressedFits(m, index);
    case ToggleSelect => SelectEventsFit(m, e);
    case Back => BackFits(m);
    case ShellPop => PopFits(m);
    case OtherPush(_) => StackEventsFit(m, e);
    case OtherClear(_) => StackEventsFit(m, e);
    case DeleteDone => SelectEventsFit(m, e);
  }

  lemma EnteredFits(m: Manager, large: bool, thread: string)
    ensures Fits(Entered(m, large, thread))
  {
    BuiltFits(m.(nav := WithItems(m.nav)), Choice(All, large, thread, PAGE_SIZE, PageItems(m.data, large, thread)), {});
    hide Fits, Built;
  }

  lemma BackFits(m: Manager)
    requires Fits(m) && (m.nav.selecting ==> m.nav.page == Items)
    ensures Fits(GoneBack(m))
  {
    if m.nav.selecting {
      SelectLeftFits(m, true);
    } else if m.nav.page == Items {
      LeftFits(m, GoneBack(m));
    } else {
      FitsFrame(m, GoneBack(m));
    }
    hide Fits, Left, SelectLeft;
  }

  lemma PopFits(m: Manager)
    requires Fits(m) && InStep(m.nav)
    ensures Fits(Popped(m))
  {
    var s, n := m.nav.stack, Popped(m);
    if s != [] {
      TopIsNearest(m.nav);
      hide InStep;
      if s[|s| - 1] == ITEMS {
        LeftFits(m, n);
      } else if s[|s| - 1] == SELECT {
        var o := WithStack(m, s[..|s| - 1]);
        FitsFrame(m, o);
        SelectLeftFits(o, false);
      } else {
        FitsFrame(m, n);
      }
    }
    hide Fits, Left, SelectLeft;
  }

  /** A step of ours on top is the nearest one of the page. */
  lemma TopIsNearest(n: Nav)
    requires InStep(n) && n.stack != []
    ensures var top := n.stack[|n.stack| - 1];
      && (top == MANAGE ==> n.page == Manage) && (top == ITEMS ==> n.page == Items && !n.selecting)
      && (top == SELECT ==> n.page == Items && n.selecting)
  {
    var top, steps := n.stack[|n.stack| - 1], Steps(n.page, n.selecting);
    assert IsOurs(top) ==> steps != [] && steps[|steps| - 1] == top;
  }

  lemma StepKeepsFit(m: Manager, e: Event)
    requires Fits(m) && InStep(m.nav)
    ensures Fits(Step(m, e))
  {
    hide Fits, Step, InStep;
    if TouchesRowsOnly(e) { RowEventsFit(m, e); } else { PageEventsFit(m, e); }
  }

  /** In every reachable state cell i draws item i of the tab and file row j item |cells| + j, whatever the tab. */
  lemma {:induction false} RowsDrawTheirItems(events: seq<Event>)
    ensures Fits(Run(events))
  {
    hide Fits, Step, TouchesRowsOnly;
    if events == [] {
      NothingFits();
    } else {
      var m, e := Run(events[..|events| - 1]), events[|events| - 1];
      RowsDrawTheirItems(events[..|events| - 1]);
      BackStackIsInStep(events[..|events| - 1]);
      StepKeepsFit(m, e);
    }
  }

  lemma NothingFits()
    ensures Fits(START)
  {
  }

  // ----- Loading more -----

  lemma FewMore(s: seq<Item>, n: nat, more: nat)
    requires n <= more
    ensures FirstFew(s, n) <= FirstFew(s, more) && (|s| > n && n < more ==> |FirstFew(s, n)| < |FirstFew(s, more)|)
  {
  }

  lemma MoreDrawn(c: Choice, d: Choice)
    returns (media: seq<Item>, files: seq<Item>, media': seq<Item>, files': seq<Item>)
    requires d == c.(shown := c.shown + PAGE_SIZE)
    ensures Drawn(c) == media + files && NoFiles(media) && AllOfKind(files, File)
    ensures Drawn(d) == media' + files' && NoFiles(media') && AllOfKind(files', File)
    ensures media <= media' && files <= files' && (HasMore(c) ==> |media| + |files| < |media'| + |files'|)
  {
    assert MediaOf(d) == MediaOf(c) && (forall kind: Kind :: ItemsOf(d, kind) == ItemsOf(c, kind));
    media, files := DrawnInTwo(c);
    media', files' := DrawnInTwo(d);
    hide ItemsOf, MediaOf, NoFiles, AllOfKind;
    match c.tab
    case All => FewMore(MediaOf(c), c.shown, d.shown);
    case Only(kind) => FewMore(ItemsOf(c, kind), c.shown, d.shown);
  }

  /** Rows that draw so many media and so many files: a cell for each of the first, a file row for each other. */
  lemma RowsInTwo(r: Rows, thumbs: Thumbs, media: seq<Item>, files: seq<Item>)
    requires RowsDraw(r, thumbs) && NoFiles(media) && AllOfKind(files, File)
    requires |r.cells| + |r.files| == |media| + |files| && r.tabItems[..|media + files|] == media + files
    ensures |r.cells| == |media| && |r.files| == |files|
  {
    var all := media + files;
    forall k | 0 <= k < |all|
      ensures r.tabItems[k] == all[k]
      ensures k < |r.cells| <==> k < |media|
    {
      assert r.tabItems[k] == r.tabItems[..|all|][k];
      assert k < |r.cells| ==> CellDraws(r.cells[k], r.tabItems[k], thumbs);
      assert k >= |r.cells| ==> FileDraws(r.files[k - |r.cells|], r.tabItems[|r.cells| + (k - |r.cells|)]);
    }
    hide RowsDraw;
    assert |r.cells| < |all| ==> r.tabItems[|r.cells|] == all[|r.cells|];
    assert |media| < |all| ==> r.tabItems[|media|] == all[|media|];
  }

  /** The rows there are draw the drawn items: as many cells as media, and as many file rows as files. */
  lemma DrawnRows(m: Manager, media: seq<Item>, files: seq<Item>)
    requires Fits(m) && m.nav.page == Items
    requires Drawn(m.view.choice) == media + files && NoFiles(media) && AllOfKind(files, File)
    requires |Drawn(m.view.choice)| <= |TabItems(m.view.choice)|
    requires TabItems(m.view.choice)[..|Drawn(m.view.choice)|] == Drawn(m.view.choice)
    ensures var r := m.view.rows;
      && |r.cells| == |media| && |r.files| == |files|
      && |media + files| <= |r.tabItems| && r.tabItems[..|media + files|] == media + files
  {
    hide Drawn, TabItems, HasMore, RowsDraw, NoFiles, AllOfKind;
    RowsInTwo(m.view.rows, m.data.thumbs, media, files);
  }

  /** The item of a file row. */
  function FileItem(r: Rows, j: nat): Item
    requires |r.cells| + j < |r.tabItems|
  {
    r.tabItems[|r.cells| + j]
  }

  /** Rows of which the second draw all the items of the first, and more. */
  ghost predicate Extends(r: Rows, s: Rows, thumbs: Thumbs) {
    && RowsDraw(r, thumbs) && RowsDraw(s, thumbs) && |r.cells| <= |s.cells| && |r.files| <= |s.files|
    && (forall i :: 0 <= i < |r.cells| ==> s.tabItems[i] == r.tabItems[i])
    && (forall j :: 0 <= j < |r.files| ==> FileItem(s, j) == FileItem(r, j))
  }

  lemma CellsExtend(r: Rows, s: Rows, thumbs: Thumbs, i: nat)
    requires Extends(r, s, thumbs) && i < |r.cells|
    ensures r.cells[i] == s.cells[i].(picked := r.cells[i].picked)
  {
    assert CellDraws(r.cells[i], r.tabItems[i], thumbs) && CellDraws(s.cells[i], s.tabItems[i], thumbs);
  }

  lemma FilesExtend(r: Rows, s: Rows, thumbs: Thumbs, j: nat)
    requires Extends(r, s, thumbs) && j < |r.files|
    ensures r.files[j] == s.files[j].(picked := r.files[j].picked)
  {
    assert FileItem(s, j) == FileItem(r, j);
    assert FileDraws(r.files[j], r.tabItems[|r.cells| + j]) && FileDraws(s.files[j], s.tabItems[|s.cells| + j]);
  }

  lemma ExtendsUpToMarks(r: Rows, s: Rows, thumbs: Thumbs)
    requires Extends(r, s, thumbs)
    ensures Unpicked(r).cells <= Unpicked(s).cells && Unpicked(r).files <= Unpicked(s).files
  {
    forall i | 0 <= i < |r.cells| ensures Unpicked(r).cells[i] == Unpicked(s).cells[i] {
      CellsExtend(r, s, thumbs, i);
    }
    forall j | 0 <= j < |r.files| ensures Unpicked(r).files[j] == Unpicked(s).files[j] {
      FilesExtend(r, s, thumbs, j);
    }
  }

  /** Where the marks of the longer rows agree, the shorter ones are their beginning exactly when theirs agree too. */
  lemma ExtendsExactly(c: Choice, d: Choice, r: Rows, s: Rows, selected: set<string>, thumbs: Thumbs)
    requires Extends(r, s, thumbs) && MarksAgree(View(d, s, selected))
    ensures MarksAgree(View(c, r, selected)) <==> r.cells <= s.cells && r.files <= s.files
  {
    forall i | 0 <= i < |r.cells|
      ensures (r.cells[i].picked <==> r.tabItems[i].hash in selected) <==> r.cells[i] == s.cells[i]
    {
      CellsExtend(r, s, thumbs, i);
      assert s.cells[i].picked <==> s.tabItems[i].hash in selected;
    }
    forall j | 0 <= j < |r.files|
      ensures (r.files[j].picked <==> r.tabItems[|r.cells| + j].hash in selected) <==> r.files[j] == s.files[j]
    {
      FilesExtend(r, s, thumbs, j);
      assert FileItem(s, j) == FileItem(r, j);
      assert s.files[j].picked <==> s.tabItems[|s.cells| + j].hash in selected;
    }
  }

  lemma MoreIsExtended(m: Manager, n: Manager, c: Choice, d: Choice)
    requires Fits(m) && m.nav.page == Items && c == m.view.choice && HasMore(c)
    requires d == c.(shown := c.shown + PAGE_SIZE) && Fits(n) && n.view.choice == d
    requires n.nav == m.nav && n.data == m.data
    ensures Extends(m.view.rows, n.view.rows, m.data.thumbs)
    ensures |m.view.rows.cells| + |m.view.rows.files| < |n.view.rows.cells| + |n.view.rows.files|
  {
    var media, files, media', files' := MoreDrawn(c, d);
    var _, _ := DrawnInTwo(c);
    var _, _ := DrawnInTwo(d);
    DrawnRows(m, media, files);
    DrawnRows(n, media', files');
    hide Drawn, TabItems, HasMore, NoFiles, AllOfKind, CellDraws, FileDraws;
    ItemsExtend(m.view.rows, n.view.rows, media, files, media', files');
  }

  lemma ItemsExtend(r: Rows, s: Rows, media: seq<Item>, files: seq<Item>, media': seq<Item>, files': seq<Item>)
    requires media <= media' && files <= files'
    requires |r.cells| == |media| && |r.files| == |files| && |s.cells| == |media'| && |s.files| == |files'|
    requires |media + files| <= |r.tabItems| && r.tabItems[..|media + files|] == media + files
    requires |media' + files'| <= |s.tabItems| && s.tabItems[..|media' + files'|] == media' + files'
    ensures forall i :: 0 <= i < |r.cells| ==> s.tabItems[i] == r.tabItems[i]
    ensures forall j :: 0 <= j < |r.files| ==> FileItem(s, j) == FileItem(r, j)
  {
    var all, all' := media + files, media' + files';
    assert forall k :: 0 <= k < |all| ==> r.tabItems[k] == r.tabItems[..|all|][k];
    assert forall k :: 0 <= k < |all'| ==> s.tabItems[k] == s.tabItems[..|all'|][k];
    forall j | 0 <= j < |r.files| ensures FileItem(s, j) == FileItem(r, j) {
      assert all[|media| + j] == files[j] == files'[j] == all'[|media'| + j];
    }
  }

  lemma LoadMoreStep(m: Manager)
    requires m.nav.page == Items && m.view.rows.hasMore
    ensures
      var n, d := Step(m, LoadMore), m.view.choice.(shown := m.view.choice.shown + PAGE_SIZE);
      && n.view.choice == d && n.nav == m.nav && n.data == m.data && n.view.selected == m.view.selected
      && RowsDraw(n.view.rows, m.data.thumbs) && MarksAgree(n.view)
  {
    hide Built, MarksAgree, RowsDraw, Drawn, TabItems, HasMore, CellsOf, FilesOf;
    var d := m.view.choice.(shown := m.view.choice.shown + PAGE_SIZE);
    BuiltDraws(d, m.data.thumbs, m.view.selected);
    assert Step(m, LoadMore) == Chosen(m, d);
    hide Step;
  }

  /**
   * Loading more, in every reachable state, keeps every row where it is and adds rows behind them. The marks of all
   * rows are set anew: no row changes if and only if they agreed with the selection.
   */
  lemma LoadMoreExtends(events: seq<Event>)
    ensures
      var m, n := Run(events), Step(Run(events), LoadMore);
      var r, s := m.view.rows, n.view.rows;
      && RowsDraw(r, m.data.thumbs) && RowsDraw(s, n.data.thumbs)
      && Unpicked(r).cells <= Unpicked(s).cells && Unpicked(r).files <= Unpicked(s).files
      && (m.nav.page == Items && r.hasMore ==>
        && |r.cells| + |r.files| < |s.cells| + |s.files| && MarksAgree(n.view)
        && (MarksAgree(m.view) <==> r.cells <= s.cells && r.files <= s.files))
  {
    RowsDrawTheirItems(events);
    var m, n := Run(events), Step(Run(events), LoadMore);
    hide Run;
    if m.nav.page == Items && m.view.rows.hasMore {
      LoadMoreStep(m);
      ChoicesFit(m, LoadMore);
      hide Step, Built, RowsDraw, MarksAgree, TabItems, HasMore, Drawn, Unpicked;
      MoreIsExtended(m, n, m.view.choice, n.view.choice);
      ExtendsUpToMarks(m.view.rows, n.view.rows, m.data.thumbs);
      ExtendsExactly(m.view.choice, n.view.choice, m.view.rows, n.view.rows, m.view.selected, m.data.thumbs);
    }
  }

  /** When there is no more to load every item of the tab has its row. */
  lemma NothingMoreMeansAllDrawn(c: Choice)
    ensures !HasMore(c) ==> Drawn(c) == TabItems(c)
    ensures c.tab == All && !HasMore(c) ==> TabItems(c) == MediaOf(c) + ItemsOf(c, File)
  {
  }

  // ----- Order and completeness -----

  /** No item stands behind one that comes after it. */
  ghost predicate InOrder(o: Order, s: seq<Item>) { forall i, j :: 0 <= i < j < |s| ==> !Before(o, s[j], s[i]) }

  lemma {:induction false} InsertedIsInOrder(o: Order, s: seq<Item>, x: Item)
    requires InOrder(o, s)
    ensures InOrder(o, Inserted(o, s, x))
  {
    if s != [] {
      if Before(o, x, s[0]) {
        LessIsStrict(s[0].message);
        forall j | 0 <= j < |s| ensures !Before(o, s[j], x) {
          if Before(o, s[j], x) { NotBothBefore(o, x, s[0], s[j]); }
        }
      } else {
        InsertedIsInOrder(o, s[1..], x);
        InsertedHolds(o, s[1..], x);
        var rest := Inserted(o, s[1..], x);
        forall j | 0 <= j < |rest| ensures !Before(o, rest[j], s[0]) {
          assert rest[j] in rest;
          if rest[j] != x {
            var k :| 0 <= k < |s| - 1 && s[1..][k] == rest[j];
            assert s[k + 1] == rest[j] && !Before(o, s[k + 1], s[0]);
          }
        }
      }
    }
  }

  /** `x` comes before `a` and `b` before `x`: then `b` comes before `a`. */
  lemma NotBothBefore(o: Order, x: Item, a: Item, b: Item)
    requires Before(o, x, a) && Before(o, b, x)
    ensures Before(o, b, a)
  {
    if b.time == x.time == a.time { LessIsTransitive(b.message, x.message, a.message); }
  }

  lemma {:induction false} SortedIsInOrder(o: Order, s: seq<Item>)
    ensures InOrder(o, Sorted(o, s))
  {
    if s != [] {
      SortedIsInOrder(o, s[..|s| - 1]);
      InsertedIsInOrder(o, Sorted(o, s[..|s| - 1]), s[|s| - 1]);
    }
  }

  /** Photos and videos stand together, the newest first. */
  lemma MediaIsNewestFirst(c: Choice, i: nat, j: nat)
    requires i < j < |MediaOf(c)|
    ensures MediaOf(c)[i].time >= MediaOf(c)[j].time
  {
    SortedIsInOrder(ByTime, ItemsOf(c, Picture) + ItemsOf(c, Video));
  }

  lemma {:induction false} FirstsAreComplete(items: seq<Item>, thread: string, kind: Kind, hash: string)
    ensures hash in Hashes(FirstsOf(items, thread, kind))
       <==> exists i :: 0 <= i < |items| && items[i].thread == thread && items[i].kind == kind && items[i].hash == hash
  {
    if items != [] {
      var n := |items| - 1;
      FirstsAreComplete(items[..n], thread, kind, hash);
      var front, all := FirstsOf(items[..n], thread, kind), FirstsOf(items, thread, kind);
      HashesGrow(front, items[n]);
      assert forall i :: 0 <= i < n ==> items[..n][i] == items[i];
    }
  }

  lemma HashesGrow(s: seq<Item>, x: Item)
    ensures Hashes(s + [x]) == Hashes(s) + {x.hash}
  {
    var t := s + [x];
    assert t[|s|] == x && forall i :: 0 <= i < |s| ==> t[i] == s[i];
    forall h | h in Hashes(s) ensures h in Hashes(t) {
      var i :| 0 <= i < |s| && s[i].hash == h;
      assert t[i].hash == h;
    }
  }

  /** A chat's page lists every content the chat holds of a kind, and nothing else. */
  lemma ChatItemsAreComplete(c: Choice, kind: Kind, hash: string)
    requires !c.large
    ensures (exists i :: 0 <= i < |ItemsOf(c, kind)| && ItemsOf(c, kind)[i].hash == hash)
       <==> exists i :: 0 <= i < |c.pageAll| && c.pageAll[i].thread == c.thread && c.pageAll[i].kind == kind
                        && c.pageAll[i].hash == hash
  {
    var firsts, sorted := FirstsOf(c.pageAll, c.thread, kind), ItemsOf(c, kind);
    FirstsAreComplete(c.pageAll, c.thread, kind, hash);
    SortedHolds(NewerFirst, firsts);
    hide FirstsOf, Sorted;
    if hash in Hashes(firsts) {
      var i :| 0 <= i < |firsts| && firsts[i].hash == hash;
      assert firsts[i] in sorted;
      var k :| 0 <= k < |sorted| && sorted[k] == firsts[i];
      assert sorted[k].hash == hash;
    }
    if k :| 0 <= k < |sorted| && sorted[k].hash == hash {
      assert sorted[k] in firsts;
      var i :| 0 <= i < |firsts| && firsts[i] == sorted[k];
      assert firsts[i].hash in Hashes(firsts);
    }
  }
}
