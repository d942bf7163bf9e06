/** The storage manager's steps on the shell's back stack, in every reachable state. */
module StorageBackStack {
  import opened Text
  import opened Storage

  // ----- The back stack -----

  lemma {:induction false} OursOfCleared(stack: seq<string>, id: string)
    ensures Ours(Cleared(stack, id)) == Cleared(Ours(stack), id)
  {
    if stack != [] {
      var front, x := stack[..|stack| - 1], stack[|stack| - 1];
      OursOfCleared(front, id);
      assert x != id ==> Cleared(stack, id)[..|Cleared(stack, id)| - 1] == Cleared(front, id);
      assert IsOurs(x) ==> Ours(stack)[..|Ours(stack)| - 1] == Ours(front);
    }
  }

  lemma OursOfAppended(stack: seq<string>, id: string)
    ensures Ours(stack + [id]) == if IsOurs(id) then Ours(stack) + [id] else Ours(stack)
  {
    assert (stack + [id])[..|stack|] == stack;
  }

  lemma OursOfPushed(stack: seq<string>, id: string)
    ensures Ours(Pushed(stack, id)) == if IsOurs(id) then Pushed(Ours(stack), id) else Cleared(Ours(stack), id)
  {
    OursOfAppended(Cleared(stack, id), id);
    OursOfCleared(stack, id);
  }

  lemma {:induction false} OthersKeepOurs(stack: seq<string>, id: string)
    requires !IsOurs(id)
    ensures Cleared(Ours(stack), id) == Ours(stack)
  {
    if stack != [] {
      var front, x := stack[..|stack| - 1], stack[|stack| - 1];
      OthersKeepOurs(front, id);
      assert IsOurs(x) ==> Ours(stack)[..|Ours(stack)| - 1] == Ours(front);
    }
  }

  lemma ClearedStep(a: seq<string>, x: string, id: string)
    ensures Cleared(a + [x], id) == if x == id then Cleared(a, id) else Cleared(a, id) + [x]
  {
    assert (a + [x])[..|a|] == a;
  }

  /** The few stacks of our own there are. */
  lemma ClearedSteps(page: Page, selecting: bool)
    ensures Cleared([], MANAGE) == [] && Cleared([MANAGE], MANAGE) == [] && Cleared([MANAGE], ITEMS) == [MANAGE]
    ensures Cleared([MANAGE], SELECT) == [MANAGE]
    ensures Cleared([MANAGE, ITEMS], ITEMS) == [MANAGE] && Cleared([MANAGE, ITEMS], SELECT) == [MANAGE, ITEMS]
    ensures Cleared([MANAGE, ITEMS, SELECT], SELECT) == [MANAGE, ITEMS]
  {
    assert Cleared([], MANAGE) == Cleared([], ITEMS) == Cleared([], SELECT) == [];
    ClearedStep([], MANAGE, MANAGE);
    ClearedStep([], MANAGE, ITEMS);
    ClearedStep([], MANAGE, SELECT);
    assert [] + [MANAGE] == [MANAGE] && [MANAGE] + [ITEMS] == [MANAGE, ITEMS];
    assert [MANAGE, ITEMS] + [SELECT] == [MANAGE, ITEMS, SELECT];
    ClearedStep([MANAGE], ITEMS, ITEMS);
    ClearedStep([MANAGE], ITEMS, SELECT);
    ClearedStep([MANAGE, ITEMS], SELECT, SELECT);
  }

  lemma {:induction false} NothingOfOurs(stack: seq<string>)
    ensures Cleared(Cleared(Cleared(Ours(stack), SELECT), ITEMS), MANAGE) == []
  {
    if stack != [] {
      var front, x := stack[..|stack| - 1], stack[|stack| - 1];
      NothingOfOurs(front);
      if IsOurs(x) {
        var o := Ours(front);
        assert Ours(stack) == o + [x];
        ClearedStep(o, x, SELECT);
        ClearedStep(Cleared(o, SELECT), x, ITEMS);
        ClearedStep(Cleared(Cleared(o, SELECT), ITEMS), x, MANAGE);
      }
    }
  }

  lemma OursOfThree(stack: seq<string>)
    ensures Ours(AllCleared(stack)) == Cleared(Cleared(Cleared(Ours(stack), SELECT), ITEMS), MANAGE)
  {
    OursOfCleared(stack, SELECT);
    OursOfCleared(Cleared(stack, SELECT), ITEMS);
    OursOfCleared(Cleared(Cleared(stack, SELECT), ITEMS), MANAGE);
    hide Ours, Cleared;
  }

  lemma AllClearedLeavesOthers(stack: seq<string>)
    ensures Ours(AllCleared(stack)) == []
  {
    OursOfThree(stack);
    NothingOfOurs(stack);
  }

  /** The shell's stack holds exactly this page's steps, in order, and selecting is on the items page only. */
  predicate InStep(n: Nav) { Ours(n.stack) == Steps(n.page, n.selecting) && (n.selecting ==> n.page == Items) }

  lemma RestoredIsInStep(n: Nav)
    requires n.selecting ==> n.page == Items
    ensures InStep(Restored(n))
  {
    var bare := AllCleared(n.stack);
    AllClearedLeavesOthers(n.stack);
    ClearedSteps(Main, false);
    OursOfPushed(bare, MANAGE);
    var one := Pushed(bare, MANAGE);
    OursOfPushed(one, ITEMS);
    OursOfPushed(Pushed(one, ITEMS), SELECT);
    hide AllCleared, Ours, Cleared;
    assert Ours(one) == [MANAGE];
    assert Ours(Pushed(one, ITEMS)) == [MANAGE, ITEMS];
  }

  lemma PushesAreInStep(n: Nav)
    requires InStep(n)
    ensures n.page == Main ==> InStep(WithManage(n))
    ensures n.page == Manage ==> InStep(WithItems(n))
    ensures n.page == Items && !n.selecting ==> InStep(WithSelect(n))
  {
    ClearedSteps(Main, false);
    OursOfPushed(n.stack, MANAGE);
    OursOfPushed(n.stack, ITEMS);
    OursOfPushed(n.stack, SELECT);
    hide Ours, Cleared;
  }

  /** Leaving by the page's own buttons. */
  lemma LeavesAreInStep(n: Nav)
    requires InStep(n)
    ensures n.selecting ==> InStep(Unselected(n, true))
    ensures !n.selecting && n.page == Items ==> InStep(ItemsLeft(n.(stack := Cleared(n.stack, ITEMS)), Manage))
    ensures n.page == Manage ==> InStep(n.(page := Main, stack := Cleared(n.stack, MANAGE)))
    ensures InStep(OnMain(n))
  {
    var bare := AllCleared(n.stack);
    ClearedSteps(Main, false);
    OursOfCleared(n.stack, SELECT);
    OursOfCleared(n.stack, ITEMS);
    OursOfCleared(n.stack, MANAGE);
    AllClearedLeavesOthers(n.stack);
    OursOfCleared(bare, SELECT);
    assert Cleared([], SELECT) == [];
    hide Ours, Cleared, AllCleared;
  }

  lemma OthersAreInStep(n: Nav, id: string)
    requires InStep(n) && !IsOurs(id)
    ensures InStep(n.(stack := Pushed(n.stack, id))) && InStep(n.(stack := Cleared(n.stack, id)))
  {
    OursOfPushed(n.stack, id);
    OursOfCleared(n.stack, id);
    OthersKeepOurs(n.stack, id);
    hide Ours, Cleared;
  }

  /** The shell takes the nearest step of the page, or one of another's. */
  lemma PopIsInStep(n: Nav)
    requires InStep(n) && n.stack != []
    ensures
      var top, m := n.stack[|n.stack| - 1], n.(stack := n.stack[..|n.stack| - 1]);
      && (top == MANAGE ==> InStep(m.(page := Main))) && (top == ITEMS ==> InStep(ItemsLeft(m, Manage)))
      && (top == SELECT ==> InStep(Unselected(m, false))) && (!IsOurs(top) ==> InStep(m))
  {
    var s := n.stack;
    var front, top := s[..|s| - 1], s[|s| - 1];
    assert s == front + [top];
    OursOfAppended(front, top);
    hide Ours, Cleared;
    LastSteps(n.page, n.selecting, Ours(front), top);
  }

  /** The steps without their last. */
  lemma LastSteps(page: Page, selecting: bool, front: seq<string>, top: string)
    ensures IsOurs(top) && front + [top] == Steps(page, selecting) ==>
      && (top == MANAGE ==> page == Manage && front == [])
      && (top == ITEMS ==> page == Items && !selecting && front == [MANAGE])
      && (top == SELECT ==> page == Items && selecting && front == [MANAGE, ITEMS])
  {
    if IsOurs(top) && front + [top] == Steps(page, selecting) {
      var steps := Steps(page, selecting);
      assert top == steps[|steps| - 1] && front == steps[..|steps| - 1];
    }
  }

  predicate TouchesRowsOnly(e: Event) {
    || e.SetTab? || e.LoadMore? || e.TapCell? || e.TapFile? || e.DeleteStarts? || e.Recompute? || e.Answered?
    || e.ThumbReady?
  }

  lemma RowEventsKeepNav(m: Manager, e: Event)
    requires TouchesRowsOnly(e)
    ensures Step(m, e).nav == m.nav
  {
    hide Built, Toggled, Refilled, Thumbed, Heard;
    if e.Answered? { HeardKeepsNav(m, e.count, e.answer, e.large, e.chats); }
  }

  /** What an event does to page and stack. */
  lemma StepKeepsStack(m: Manager, e: Event)
    requires InStep(m.nav)
    ensures InStep(Step(m, e).nav)
  {
    if TouchesRowsOnly(e) {
      RowEventsKeepNav(m, e);
    } else {
      PageEventsKeepStack(m, e);
    }
  }

  predicate Opens(e: Event) { e.OpenManage? || e.OpenLarge? || e.OpenChat? || e.LongPress? }

  lemma OpeningKeepsStack(m: Manager, e: Event)
    requires InStep(m.nav) && Opens(e)
    ensures InStep(Step(m, e).nav)
  {
    PushesAreInStep(m.nav);
    hide InStep, WithManage, WithItems, WithSelect, Built, Toggled;
  }

  predicate Leaves(e: Event) { e.Enter? || e.Reset? || e.Back? || e.DeleteDone? || e.ToggleSelect? }

  /** What leaving does to page and stack. */
  function NavLeft(n: Nav, busy: bool, e: Event): Nav
    requires Leaves(e)
  {
    match e
    case Enter => OnMain(n)
    case Reset => OnMain(n)
    case DeleteDone => if n.selecting then Unselected(n, true) else n
    case ToggleSelect =>
      if n.page != Items || busy then n else if n.selecting then Unselected(n, true) else WithSelect(n)
    case Back =>
      if n.selecting then Unselected(n, true)
      else if n.page == Items then ItemsLeft(n.(stack := Cleared(n.stack, ITEMS)), Manage)
      else if n.page == Manage then n.(page := Main, stack := Cleared(n.stack, MANAGE))
      else n
  }

  lemma LeavingMoves(m: Manager, e: Event)
    requires Leaves(e)
    ensures Step(m, e).nav == NavLeft(m.nav, m.busy, e)
  {
    hide Cleared, WithSelect, Unselected, ItemsLeft, OnMain, Left, Unpicked;
  }

  lemma LeavingKeepsStack(m: Manager, e: Event)
    requires InStep(m.nav) && Leaves(e)
    ensures InStep(Step(m, e).nav)
  {
    assert m.nav.selecting ==> m.nav.page == Items;
    PushesAreInStep(m.nav);
    LeavesAreInStep(m.nav);
    LeavingMoves(m, e);
    hide Step, InStep, WithSelect, Unselected, ItemsLeft, OnMain, Cleared;
  }

  lemma LayoutKeepsStack(m: Manager, others: seq<string>)
    requires InStep(m.nav)
    ensures InStep(Step(m, LayoutSwitch(others)).nav)
  {
    assert m.nav.selecting ==> m.nav.page == Items;
    hide InStep, Restored;
    RestoredIsInStep(m.nav.(stack := others));
  }

  /** What the shell's back does to page and stack. */
  lemma PopMoves(m: Manager)
    requires m.nav.stack != []
    ensures
      var top, n := m.nav.stack[|m.nav.stack| - 1], m.nav.(stack := m.nav.stack[..|m.nav.stack| - 1]);
      Popped(m).nav == if top == MANAGE then n.(page := Main) else if top == ITEMS then ItemsLeft(n, Manage)
                       else if top == SELECT then Unselected(n, false) else n
  {
    hide ItemsLeft, Unselected, Left, Unpicked;
  }

  lemma PopKeepsStack(m: Manager)
    requires InStep(m.nav)
    ensures InStep(Popped(m).nav)
  {
    hide InStep, ItemsLeft, Unselected;
    if m.nav.stack != [] {
      PopIsInStep(m.nav);
      PopMoves(m);
      hide Popped;
    }
  }

  lemma OtherKeepsStack(m: Manager, id: string)
    requires InStep(m.nav)
    ensures InStep(Step(m, OtherPush(id)).nav) && InStep(Step(m, OtherClear(id)).nav)
  {
    hide InStep, Pushed, Cleared;
    if !IsOurs(id) { OthersAreInStep(m.nav, id); }
    hide IsOurs;
  }

  lemma PageEventsKeepStack(m: Manager, e: Event)
    requires InStep(m.nav) && !TouchesRowsOnly(e)
    ensures InStep(Step(m, e).nav)
  {
    hide InStep;
    if Opens(e) {
      OpeningKeepsStack(m, e);
      hide Step;
    } else if e.LayoutSwitch? {
      LayoutKeepsStack(m, e.others);
      hide Step;
    } else if e.ShellPop? {
      PopKeepsStack(m);
      hide Popped;
    } else if e.OtherPush? || e.OtherClear? {
      OtherKeepsStack(m, e.id);
      hide Step;
    } else {
      LeavingKeepsStack(m, e);
      hide Step;
    }
  }

  lemma HeardKeepsNav(m: Manager, index: nat, a: Answer, large: seq<Item>, chats: seq<string>)
    ensures Heard(m, index, a, large, chats).nav == m.nav && Heard(m, index, a, large, chats).busy == m.busy
  {
  }

  /**
   * In every reachable state the shell's back stack holds exactly the steps of (page, selecting), among those of
   * others, whoever goes back and however the layout switches.
   */
  lemma {:induction false} BackStackIsInStep(events: seq<Event>)
    ensures InStep(Run(events).nav)
  {
    hide InStep, Step;
    if events == [] {
      assert InStep(START.nav) by { StartIsInStep(); }
    } else {
      BackStackIsInStep(events[..|events| - 1]);
      StepKeepsStack(Run(events[..|events| - 1]), events[|events| - 1]);
    }
  }

  lemma StartIsInStep()
    ensures InStep(START.nav)
  {
  }
}
