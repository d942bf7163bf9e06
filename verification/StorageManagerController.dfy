/**
 * The storage manager's controller: its fields, changed in place, and its handlers, each proved to do exactly what
 * the step of `Storage` of the same event says, and to keep what is proved of every run. `stack` is the shell's back
 * stack.
 */
module StorageManagerController {
  import opened Storage
  import opened StorageBackStack
  import opened StorageCounts
  import opened StorageRows
  import opened Wrappers

  ghost predicate Kept(m: Manager) { InStep(m.nav) && Fits(m) && Tallied(m.counts) }

  lemma StepKeepsInvariant(m: Manager, e: Event)
    requires Kept(m)
    ensures Kept(Step(m, e))
  {
    hide InStep, Fits, Tallied, Step;
    StepKeepsStack(m, e);
    StepKeepsFit(m, e);
    StepKeepsTallied(m, e);
  }

  class StorageManagerController {
    var page: Page
    var selecting: bool
    var stack: seq<string>
    var choice: Choice
    var rows: Rows
    var selected: set<string>
    var data: Data
    var counts: Counts
    var busy: bool

    function Contents(): Manager
      reads this
    {
      Manager(Nav(page, selecting, stack), View(choice, rows, selected), data, counts, busy)
    }

    /** What every run keeps: the back stack in step, the rows those of their items, the counts in order. */
    ghost predicate Valid()
      reads this
    {
      Kept(Contents())
    }

    constructor ()
      ensures Valid() && Contents() == START
    {
      page, selecting, stack := Main, false, [];
      choice, rows, selected := Choice(All, false, "", PAGE_SIZE, []), NO_ROWS, {};
      data, counts, busy := Data([], [], [], map[]), Counts(0, [], []), false;
    }

    method PushBackStep(id: string)
      modifies this`stack
      ensures stack == Pushed(old(stack), id)
    {
      ClearBackStep(id);
      stack := stack + [id];
    }

    /** The shell drops the entries of that id. */
    method ClearBackStep(id: string)
      modifies this`stack
      ensures stack == Cleared(old(stack), id)
    {
      var kept: seq<string> := [];
      for i := 0 to |stack|
        invariant stack == old(stack) && kept == Cleared(stack[..i], id)
      {
        assert stack[..i + 1][..i] == stack[..i];
        if stack[i] != id { kept := kept + [stack[i]]; }
      }
      assert stack[..|stack|] == stack;
      stack := kept;
    }

    /** A step of another page comes onto the stack, or leaves it. */
    method OnOtherPush(id: string)
      requires Valid() && !IsOurs(id)
      modifies this
      ensures Valid() && Contents() == Step(old(Contents()), OtherPush(id))
    {
      hide InStep, Fits, Tallied;
      StepKeepsInvariant(Contents(), OtherPush(id));
      PushBackStep(id);
    }

    method OnOtherClear(id: string)
      requires Valid() && !IsOurs(id)
      modifies this
      ensures Valid() && Contents() == Step(old(Contents()), OtherClear(id))
    {
      hide InStep, Fits, Tallied;
      StepKeepsInvariant(Contents(), OtherClear(id));
      ClearBackStep(id);
    }

    method Enter()
      requires Valid()
      modifies this
      ensures Valid() && Contents() == Step(old(Contents()), Event.Enter)
    {
      hide InStep, Fits, Tallied;
      StepKeepsInvariant(Contents(), Event.Enter);
      Reset();
      StartRecompute();
    }

    method DoReset()
      requires Valid()
      modifies this
      ensures Valid() && Contents() == Step(old(Contents()), Event.Reset)
    {
      hide InStep, Fits, Tallied;
      StepKeepsInvariant(Contents(), Event.Reset);
      Reset();
    }

    method Reset()
      modifies this
      ensures Contents() == WasReset(old(Contents()))
    {
      ClearBackStep(SELECT);
      ClearBackStep(ITEMS);
      ClearBackStep(MANAGE);
      LeaveItems();
      page := Main;
      counts := counts.(latest := counts.latest + 1);
    }

    method RestoreBackStack()
      modifies this`stack
      ensures stack == Restored(Nav(page, selecting, old(stack))).stack
    {
      ClearBackStep(SELECT);
      ClearBackStep(ITEMS);
      ClearBackStep(MANAGE);
      if page == Main { return; }
      PushBackStep(MANAGE);
      if page == Items {
        PushBackStep(ITEMS);
        if selecting { PushBackStep(SELECT); }
      }
    }

    /** A layout switch empties the stack; what others restore on it comes first. */
    method OnLayoutSwitch(others: seq<string>)
      requires Valid()
      modifies this
      ensures Valid() && Contents() == Step(old(Contents()), LayoutSwitch(others))
    {
      hide InStep, Fits, Tallied;
      StepKeepsInvariant(Contents(), LayoutSwitch(others));
      stack := others;
      RestoreBackStack();
    }

    method OnOpenManage()
      requires Valid()
      modifies this
      ensures Valid() && Contents() == Step(old(Contents()), OpenManage)
    {
      hide InStep, Fits, Tallied;
      StepKeepsInvariant(Contents(), OpenManage);
      if page != Main { return; }
      page := Manage;
      PushBackStep(MANAGE);
    }

    method OnOpenLarge()
      requires Valid()
      modifies this
      ensures Valid() && Contents() == Step(old(Contents()), OpenLarge)
    {
      hide InStep, Fits, Tallied;
      StepKeepsInvariant(Contents(), OpenLarge);
      if page != Manage || data.large == [] { return; }
      choice := choice.(large := true, thread := "");
      EnterItems();
    }

    method OnOpenChat(index: int)
      requires Valid()
      modifies this
      ensures Valid() && Contents() == Step(old(Contents()), OpenChat(index))
    {
      hide InStep, Fits, Tallied;
      StepKeepsInvariant(Contents(), OpenChat(index));
      if page != Manage || index < 0 || index >= |data.chats| { return; }
      choice := choice.(large := false, thread := data.chats[index]);
      EnterItems();
    }

    method EnterItems()
      modifies this
      ensures Contents() == Entered(old(Contents()), old(choice.large), old(choice.thread))
    {
      hide Built, PageItems, Pushed;
      page, selecting, selected := Items, false, {};
      BuildPageItems();
      choice := choice.(tab := All, shown := PAGE_SIZE);
      BuildCells();
      PushBackStep(ITEMS);
    }

    method LeaveItems()
      modifies this
      ensures Contents() == old(Contents()).(nav := ItemsLeft(old(Contents()).nav, page),
                                             view := Left(old(Contents()).view))
      ensures page == old(page)
    {
      if selecting { ClearBackStep(SELECT); }
      selecting, selected := false, {};
      choice := choice.(pageAll := []);
      rows := rows.(tabItems := [], cells := [], files := []);
    }

    method OnSetTab(tab: Option<Tab>)
      requires Valid()
      modifies this
      ensures Valid() && Contents() == Step(old(Contents()), SetTab(tab))
    {
      hide InStep, Fits, Tallied;
      StepKeepsInvariant(Contents(), SetTab(tab));
      if page != Items || tab.None? || tab.value == choice.tab { return; }
      choice := choice.(tab := tab.value, shown := PAGE_SIZE);
      BuildCells();
    }

    method BuildPageItems()
      modifies this`choice
      ensures choice == old(choice).(pageAll := PageItems(data, choice.large, choice.thread))
    {
      if choice.large {
        choice := choice.(pageAll := data.large);
        return;
      }
      var items: seq<Item> := [];
      for i := 0 to |data.all|
        invariant items == OfThread(data.all[..i], choice.thread) && choice == old(choice)
      {
        assert data.all[..i + 1][..i] == data.all[..i];
        if data.all[i].thread == choice.thread { items := items + [data.all[i]]; }
      }
      assert data.all[..|data.all|] == data.all;
      choice := choice.(pageAll := items);
    }

    /** The tab's items in order, and a row for each that is shown: photos and videos as cells, files as file rows. */
    method BuildCells()
      modifies this`rows
      ensures rows == Built(choice, data.thumbs, selected)
    {
      hide Sorted, ItemsOf, CellsOf, FilesOf, CellOf, ThumbOf;
      NoRowsOfNoItems(data.thumbs, selected);
      var tabItems, media: seq<Item> := [], [];
      if choice.tab == All {
        media := Sorted(ByTime, ItemsOf(choice, Picture) + ItemsOf(choice, Video));
        tabItems := media;
        if |media| > choice.shown { tabItems := tabItems[..choice.shown]; }
        tabItems := tabItems + ItemsOf(choice, File);
      } else {
        tabItems := ItemsOf(choice, choice.tab.kind);
      }
      assert tabItems == TabItems(choice) && (choice.tab == All ==> media == MediaOf(choice));
      hide TabItems, MediaOf;
      var count := if choice.tab == All || |tabItems| <= choice.shown then |tabItems| else choice.shown;
      ghost var drawn := tabItems[..count];
      assert drawn == Drawn(choice);
      var cells: seq<Cell>, files: seq<FileRow> := [], [];
      hide Drawn;
      for i := 0 to count
        invariant rows == old(rows)
        invariant cells == CellsOf(tabItems[..i], data.thumbs, selected) && files == FilesOf(tabItems[..i], selected)
      {
        OneMoreRow(tabItems, i, data.thumbs, selected);
        var item := tabItems[i];
        var picked := item.hash in selected;
        if item.kind == File {
          files := files + [FileRow(item.name, item.time, item.bytes, picked)];
          continue;
        }
        cells := cells + [Cell(ThumbOf(data.thumbs, item), item.bytes, item.kind == Video, picked)];
      }
      assert tabItems[..count] == drawn;
      rows := Rows(tabItems, cells, files, tabItems == [],
                   if choice.tab == All then |media| > choice.shown else |tabItems| > count);
    }

    method OnLoadMore()
      requires Valid()
      modifies this
      ensures Valid() && Contents() == Step(old(Contents()), LoadMore)
    {
      hide InStep, Fits, Tallied;
      StepKeepsInvariant(Contents(), LoadMore);
      if page != Items || !rows.hasMore { return; }
      choice := choice.(shown := choice.shown + PAGE_SIZE);
      BuildCells();
    }

    /** A tap on a cell marks it in select mode; otherwise it opens the item the cell draws. */
    method OnTapCell(index: int) returns (shown: Option<Item>)
      requires Valid()
      modifies this
      ensures Valid() && Contents() == Step(old(Contents()), TapCell(index))
      ensures shown.Some? <==> !old(busy) && !old(selecting) && old(0 <= index < |rows.cells|)
      ensures shown.Some? ==> CellDraws(old(rows.cells)[index], shown.value, old(data.thumbs))
    {
      StepKeepsInvariant(Contents(), TapCell(index));
      hide InStep, Tallied;
      shown := None;
      if busy || index < 0 || index >= |rows.cells| { return; }
      if selecting {
        TogglePicked(index);
        return;
      }
      shown := Some(rows.tabItems[index]);
    }

    method OnTapFile(index: int) returns (shown: Option<Item>)
      requires Valid()
      modifies this
      ensures Valid() && Contents() == Step(old(Contents()), TapFile(index))
      ensures shown.Some? <==> !old(busy) && !old(selecting) && old(0 <= index < |rows.files|)
      ensures shown.Some? ==> FileDraws(old(rows.files)[index], shown.value)
    {
      StepKeepsInvariant(Contents(), TapFile(index));
      hide InStep, Tallied;
      shown := None;
      if busy || index < 0 || index >= |rows.files| { return; }
      if selecting {
        TogglePicked(|rows.cells| + index);
        return;
      }
      shown := Some(rows.tabItems[|rows.cells| + index]);
    }

    method PickByLongPress(index: int)
      requires Valid()
      modifies this
      ensures Valid() && Contents() == Step(old(Contents()), LongPress(index))
    {
      hide InStep, Fits, Tallied;
      StepKeepsInvariant(Contents(), LongPress(index));
      if page != Items || busy || index < 0 || index >= |rows.tabItems| { return; }
      if !selecting { EnterSelect(); }
      if rows.tabItems[index].hash !in selected { TogglePicked(index); }
    }

    method TogglePicked(index: nat)
      requires index < |rows.tabItems|
      modifies this
      ensures Contents() == old(Contents()).(view := Toggled(old(Contents()).view, index))
    {
      var key, picked := rows.tabItems[index].hash, false;
      if key in selected {
        selected := selected - {key};
      } else {
        selected := selected + {key};
        picked := true;
      }
      if index < |rows.cells| {
        rows := rows.(cells := rows.cells[index := rows.cells[index].(picked := picked)]);
      } else if index - |rows.cells| < |rows.files| {
        var j := index - |rows.cells|;
        rows := rows.(files := rows.files[j := rows.files[j].(picked := picked)]);
      }
    }

    method OnToggleSelect()
      requires Valid()
      modifies this
      ensures Valid() && Contents() == Step(old(Contents()), ToggleSelect)
    {
      hide InStep, Fits, Tallied;
      StepKeepsInvariant(Contents(), ToggleSelect);
      if page != Items || busy { return; }
      if selecting { ExitSelect(true); } else { EnterSelect(); }
    }

    method EnterSelect()
      modifies this
      ensures Contents() == Selecting(old(Contents()))
    {
      selecting, selected := true, {};
      PushBackStep(SELECT);
    }

    method ExitSelect(clearBackStep: bool)
      modifies this
      ensures Contents() == SelectLeft(old(Contents()), clearBackStep)
    {
      if clearBackStep { ClearBackStep(SELECT); }
      selecting, selected := false, {};
      UnpickRows();
    }

    method UnpickRows()
      modifies this`rows
      ensures rows == Unpicked(old(rows))
    {
      var cells, files := rows.cells, rows.files;
      for i := 0 to |cells|
        invariant rows == old(rows) && files == rows.files && |cells| == |rows.cells|
        invariant forall k :: 0 <= k < |cells| ==>
          cells[k] == if k < i then rows.cells[k].(picked := false) else rows.cells[k]
      {
        cells := cells[i := cells[i].(picked := false)];
      }
      for j := 0 to |files|
        invariant rows == old(rows) && |files| == |rows.files| && cells == Unpicked(rows).cells
        invariant forall k :: 0 <= k < |files| ==>
          files[k] == if k < j then rows.files[k].(picked := false) else rows.files[k]
      {
        files := files[j := files[j].(picked := false)];
      }
      assert files == Unpicked(rows).files;
      rows := rows.(cells := cells, files := files);
    }

    method OnBack()
      requires Valid()
      modifies this
      ensures Valid() && Contents() == Step(old(Contents()), Back)
    {
      hide InStep, Fits, Tallied;
      StepKeepsInvariant(Contents(), Back);
      if selecting {
        ExitSelect(true);
        return;
      }
      if page == Items {
        ClearBackStep(ITEMS);
        LeaveItems();
        page := Manage;
      } else if page == Manage {
        ClearBackStep(MANAGE);
        page := Main;
      }
    }

    /** The shell's back: it takes its top step and runs what was left with it. */
    method OnShellPop()
      requires Valid()
      modifies this
      ensures Valid() && Contents() == Step(old(Contents()), ShellPop)
    {
      hide InStep, Fits, Tallied;
      StepKeepsInvariant(Contents(), ShellPop);
      if stack == [] { return; }
      var top := stack[|stack| - 1];
      stack := stack[..|stack| - 1];
      if top == MANAGE {
        page := Main;
      } else if top == ITEMS {
        LeaveItems();
        page := Manage;
      } else if top == SELECT {
        ExitSelect(false);
      }
    }

    method OnDeleteStarts()
      requires Valid()
      modifies this
      ensures Valid() && Contents() == Step(old(Contents()), DeleteStarts)
    {
      hide InStep, Fits, Tallied;
      StepKeepsInvariant(Contents(), DeleteStarts);
      busy := true;
    }

    method OnDeleteDone()
      requires Valid()
      modifies this
      ensures Valid() && Contents() == Step(old(Contents()), DeleteDone)
    {
      hide InStep, Fits, Tallied;
      StepKeepsInvariant(Contents(), DeleteDone);
      busy := false;
      if selecting { ExitSelect(true); }
      StartRecompute();
    }

    /** The recompute gate asks for a count. */
    method OnRecompute()
      requires Valid()
      modifies this
      ensures Valid() && Contents() == Step(old(Contents()), Recompute)
    {
      hide InStep, Fits, Tallied;
      StepKeepsInvariant(Contents(), Recompute);
      StartRecompute();
    }

    method StartRecompute()
      modifies this`counts
      ensures counts == Started(old(counts))
    {
      counts := counts.(latest := counts.latest + 1);
      counts := counts.(pending := counts.pending + [Count(counts.latest, None, None, None)]);
    }

    /** One of a count's questions is answered. */
    method OnAnswer(count: nat, answer: Answer, large: seq<Item>, chats: seq<string>)
      requires Valid()
      modifies this
      ensures Valid() && Contents() == Step(old(Contents()), Answered(count, answer, large, chats))
    {
      hide InStep, Fits, Tallied;
      StepKeepsInvariant(Contents(), Answered(count, answer, large, chats));
      if count >= |counts.pending| { return; }
      var was := counts.pending[count];
      var c := Told(was, answer);
      counts := counts.(pending := counts.pending[count := c]);
      if was.Done() || !c.Done() || c.seq_ != counts.latest { return; }
      counts := counts.(applied := counts.applied + [Applied(c.seq_, c.items.value, c.store.value, c.profile.value)]);
      ApplyCounts(c.items.value, large, chats);
    }

    method ApplyCounts(items: seq<Item>, large: seq<Item>, chats: seq<string>)
      modifies this
      ensures Contents() == Refilled(old(Contents()), items, large, chats)
    {
      data := Data(items, large, chats, data.thumbs);
      if page != Items { return; }
      BuildPageItems();
      selected := selected * Hashes(choice.pageAll);
      BuildCells();
    }

    /** A thumbnail of that content was made. */
    method OnThumbnailReady(thread: string, hash: string, path: string)
      requires Valid()
      modifies this
      ensures Valid() && Contents() == Step(old(Contents()), ThumbReady(thread, hash, path))
    {
      hide InStep, Fits, Tallied;
      StepKeepsInvariant(Contents(), ThumbReady(thread, hash, path));
      if (thread, hash) in data.thumbs || path == "" { return; }
      data := data.(thumbs := data.thumbs[(thread, hash) := path]);
      if page != Items { return; }
      var cells := rows.cells;
      for i := 0 to |cells|
        invariant page == Items && choice == old(choice) && selected == old(selected) && counts == old(counts)
        invariant selecting == old(selecting) && stack == old(stack) && busy == old(busy)
        invariant rows == old(rows) && |cells| == |rows.cells|
        invariant data == old(data).(thumbs := old(data.thumbs)[(thread, hash) := path])
        invariant forall k :: 0 <= k < |cells| ==>
          cells[k] == if k < i then Thumbed(rows, thread, hash, path).cells[k] else rows.cells[k]
      {
        if i < |rows.tabItems| && cells[i].thumb == "" {
          var item := rows.tabItems[i];
          if item.thread == thread && item.hash == hash { cells := cells[i := cells[i].(thumb := path)]; }
        }
      }
      assert cells == Thumbed(rows, thread, hash, path).cells;
      rows := rows.(cells := cells);
    }
  }
}
