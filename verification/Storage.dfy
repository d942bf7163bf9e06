/**
 * The storage manager: its three pages and their steps on the shell's back stack, the rows of the open page, the
 * selection, and the counts that fill it. An item's kind is that of its mime type.
 */
module Storage {
  import opened Text
  import opened Wrappers

  const PAGE_SIZE := 60

  // ----- Items and their order -----

  datatype Kind = Picture | Video | File

  datatype Item = Item(thread: string, hash: string, kind: Kind, time: int, bytes: nat, name: string, message: string)

  datatype Order = ByTime | NewerFirst

  predicate Before(o: Order, a: Item, b: Item) {
    a.time > b.time || (o == NewerFirst && a.time == b.time && Less(a.message, b.message))
  }

  /** `x` behind everything that does not come after it. */
  function Inserted(o: Order, s: seq<Item>, x: Item): seq<Item> {
    if s == [] then [x] else if Before(o, x, s[0]) then [x] + s else [s[0]] + Inserted(o, s[1..], x)
  }

  /** A stable sort. */
  function Sorted(o: Order, s: seq<Item>): seq<Item> {
    if s == [] then [] else Inserted(o, Sorted(o, s[..|s| - 1]), s[|s| - 1])
  }

  function Hashes(s: seq<Item>): set<string> { set i | 0 <= i < |s| :: s[i].hash }

  function OfKind(items: seq<Item>, kind: Kind): seq<Item> {
    if items == [] then []
    else
      var front, x := OfKind(items[..|items| - 1], kind), items[|items| - 1];
      if x.kind == kind then front + [x] else front
  }

  /** A chat's items of a kind, each content once. */
  function FirstsOf(items: seq<Item>, thread: string, kind: Kind): seq<Item> {
    if items == [] then []
    else
      var front, x := FirstsOf(items[..|items| - 1], thread, kind), items[|items| - 1];
      if x.thread == thread && x.kind == kind && x.hash !in Hashes(front) then front + [x] else front
  }

  function OfThread(items: seq<Item>, thread: string): seq<Item> {
    if items == [] then []
    else
      var front, x := OfThread(items[..|items| - 1], thread), items[|items| - 1];
      if x.thread == thread then front + [x] else front
  }

  // ----- The rows of a page -----

  datatype Tab = All | Only(kind: Kind)

  /** What the open page lists: the tab, the large files or one chat, how many photos and videos, and its items. */
  datatype Choice = Choice(tab: Tab, large: bool, thread: string, shown: nat, pageAll: seq<Item>)

  datatype Cell = Cell(thumb: string, size: nat, video: bool, picked: bool)

  datatype FileRow = FileRow(name: string, time: int, size: nat, picked: bool)

  /** Thumbnail paths by chat and content. */
  type Thumbs = map<(string, string), string>

  function ThumbOf(thumbs: Thumbs, x: Item): string {
    if (x.thread, x.hash) in thumbs then thumbs[(x.thread, x.hash)] else ""
  }

  function CellOf(x: Item, thumbs: Thumbs, picked: bool): Cell {
    Cell(ThumbOf(thumbs, x), x.bytes, x.kind == Video, picked)
  }

  function FileOf(x: Item, picked: bool): FileRow { FileRow(x.name, x.time, x.bytes, picked) }

  function ItemsOf(c: Choice, kind: Kind): seq<Item> {
    if c.large then OfKind(c.pageAll, kind) else Sorted(NewerFirst, FirstsOf(c.pageAll, c.thread, kind))
  }

  /** All photos and videos of the page, newest first. */
  function MediaOf(c: Choice): seq<Item> { Sorted(ByTime, ItemsOf(c, Picture) + ItemsOf(c, Video)) }

  function FirstFew(s: seq<Item>, n: nat): seq<Item> { if |s| > n then s[..n] else s }

  function TabItems(c: Choice): seq<Item> {
    match c.tab
    case All => FirstFew(MediaOf(c), c.shown) + ItemsOf(c, File)
    case Only(kind) => ItemsOf(c, kind)
  }

  /** The tab's items that have a row. */
  function Drawn(c: Choice): seq<Item> { if c.tab == All then TabItems(c) else FirstFew(TabItems(c), c.shown) }

  function HasMore(c: Choice): bool { if c.tab == All then |MediaOf(c)| > c.shown else |TabItems(c)| > |Drawn(c)| }

  function CellsOf(items: seq<Item>, thumbs: Thumbs, selected: set<string>): seq<Cell> {
    if items == [] then []
    else
      var front, x := CellsOf(items[..|items| - 1], thumbs, selected), items[|items| - 1];
      if x.kind == File then front else front + [CellOf(x, thumbs, x.hash in selected)]
  }

  function FilesOf(items: seq<Item>, selected: set<string>): seq<FileRow> {
    if items == [] then []
    else
      var front, x := FilesOf(items[..|items| - 1], selected), items[|items| - 1];
      if x.kind == File then front + [FileOf(x, x.hash in selected)] else front
  }

  lemma NoRowsOfNoItems(thumbs: Thumbs, selected: set<string>)
    ensures CellsOf([], thumbs, selected) == [] && FilesOf([], selected) == []
  {
  }

  lemma OneMoreRow(items: seq<Item>, i: nat, thumbs: Thumbs, selected: set<string>)
    requires i < |items|
    ensures
      var x, cells, files := items[i], CellsOf(items[..i], thumbs, selected), FilesOf(items[..i], selected);
      && CellsOf(items[..i + 1], thumbs, selected) ==
           (if x.kind == File then cells
            else cells + [Cell(ThumbOf(thumbs, x), x.bytes, x.kind == Video, x.hash in selected)])
      && FilesOf(items[..i + 1], selected) ==
           (if x.kind == File then files + [FileRow(x.name, x.time, x.bytes, x.hash in selected)] else files)
  {
    assert items[..i + 1][..i] == items[..i];
  }

  datatype Rows = Rows(tabItems: seq<Item>, cells: seq<Cell>, files: seq<FileRow>, listEmpty: bool, hasMore: bool)

  const NO_ROWS := Rows([], [], [], false, false)

  function Built(c: Choice, thumbs: Thumbs, selected: set<string>): Rows {
    Rows(TabItems(c), CellsOf(Drawn(c), thumbs, selected), FilesOf(Drawn(c), selected), TabItems(c) == [], HasMore(c))
  }

  // ----- The pages and the shell's back stack -----

  datatype Page = Main | Manage | Items

  const MANAGE := "storage_manage"
  const ITEMS := "storage_items"
  const SELECT := "storage_select"

  predicate IsOurs(id: string) { id == MANAGE || id == ITEMS || id == SELECT }

  /** The steps back from a page, the nearest last. */
  function Steps(page: Page, selecting: bool): seq<string> {
    match page
    case Main => []
    case Manage => [MANAGE]
    case Items => if selecting then [MANAGE, ITEMS, SELECT] else [MANAGE, ITEMS]
  }

  function Cleared(stack: seq<string>, id: string): seq<string> {
    if stack == [] then []
    else
      var front, x := Cleared(stack[..|stack| - 1], id), stack[|stack| - 1];
      if x == id then front else front + [x]
  }

  function Pushed(stack: seq<string>, id: string): seq<string> { Cleared(stack, id) + [id] }

  /** This page's steps on the stack, among those of others. */
  function Ours(stack: seq<string>): seq<string> {
    if stack == [] then []
    else
      var front, x := Ours(stack[..|stack| - 1]), stack[|stack| - 1];
      if IsOurs(x) then front + [x] else front
  }

  datatype Nav = Nav(page: Page, selecting: bool, stack: seq<string>)

  function AllCleared(stack: seq<string>): seq<string> { Cleared(Cleared(Cleared(stack, SELECT), ITEMS), MANAGE) }

  function Unselected(n: Nav, clear: bool): Nav {
    n.(selecting := false, stack := if clear then Cleared(n.stack, SELECT) else n.stack)
  }

  function WithSelect(n: Nav): Nav { n.(selecting := true, stack := Pushed(n.stack, SELECT)) }

  /** The items page goes: to `page`. */
  function ItemsLeft(n: Nav, page: Page): Nav { Unselected(n, n.selecting).(page := page) }

  function OnMain(n: Nav): Nav { ItemsLeft(n.(stack := AllCleared(n.stack)), Main) }

  function WithManage(n: Nav): Nav { Nav(Manage, n.selecting, Pushed(n.stack, MANAGE)) }

  function WithItems(n: Nav): Nav { Nav(Items, false, Pushed(n.stack, ITEMS)) }

  function Restored(n: Nav): Nav {
    var bare := AllCleared(n.stack);
    n.(stack :=
      match n.page
      case Main => bare
      case Manage => Pushed(bare, MANAGE)
      case Items =>
        var both := Pushed(Pushed(bare, MANAGE), ITEMS);
        if n.selecting then Pushed(both, SELECT) else both)
  }

  // ----- The manager -----

  datatype View = View(choice: Choice, rows: Rows, selected: set<string>)

  datatype Data = Data(all: seq<Item>, large: seq<Item>, chats: seq<string>, thumbs: Thumbs)

  /** A count under way: three questions, each answered once; `seq` is its number. */
  datatype Count = Count(seq_: nat, items: Option<seq<Item>>, store: Option<nat>, profile: Option<nat>) {
    predicate Done() { items.Some? && store.Some? && profile.Some? }
  }

  /** A count that was applied. */
  datatype Applied = Applied(seq_: nat, items: seq<Item>, store: nat, profile: nat)

  datatype Counts = Counts(latest: nat, pending: seq<Count>, applied: seq<Applied>)

  datatype Manager = Manager(nav: Nav, view: View, data: Data, counts: Counts, busy: bool)

  const START := Manager(
    Nav(Main, false, []), View(Choice(All, false, "", PAGE_SIZE, []), NO_ROWS, {}), Data([], [], [], map[]),
    Counts(0, [], []), false)

  datatype Answer = ItemsAre(items: seq<Item>) | StoreIs(bytes: nat) | ProfileIs(bytes: nat)

  datatype Event =
    | Enter | Reset | LayoutSwitch(others: seq<string>) | OpenManage | OpenLarge | OpenChat(index: int)
    | SetTab(tab: Option<Tab>) | TapCell(index: int) | TapFile(index: int) | LongPress(index: int) | LoadMore
    | ToggleSelect | Back | ShellPop | OtherPush(id: string) | OtherClear(id: string)
    | DeleteStarts | DeleteDone | Recompute | Answered(count: nat, answer: Answer, large: seq<Item>, chats: seq<string>)
    | ThumbReady(thread: string, hash: string, path: string)

  /** What the open page lists: the large files, or the chat's items. */
  function PageItems(d: Data, large: bool, thread: string): seq<Item> {
    if large then d.large else OfThread(d.all, thread)
  }

  /** The items page goes, and with it its rows and the selection. */
  function Left(v: View): View {
    View(v.choice.(pageAll := []), v.rows.(tabItems := [], cells := [], files := []), {})
  }

  function WithStack(m: Manager, stack: seq<string>): Manager { m.(nav := m.nav.(stack := stack)) }

  function WasReset(m: Manager): Manager {
    m.(nav := OnMain(m.nav), view := Left(m.view), counts := m.counts.(latest := m.counts.latest + 1))
  }

  function Entered(m: Manager, large: bool, thread: string): Manager {
    var c := Choice(All, large, thread, PAGE_SIZE, PageItems(m.data, large, thread));
    m.(nav := WithItems(m.nav), view := View(c, Built(c, m.data.thumbs, {}), {}))
  }

  function Chosen(m: Manager, c: Choice): Manager {
    m.(view := m.view.(choice := c, rows := Built(c, m.data.thumbs, m.view.selected)))
  }

  function Unpicked(rows: Rows): Rows {
    rows.(cells := seq(|rows.cells|, i requires 0 <= i < |rows.cells| => rows.cells[i].(picked := false)),
          files := seq(|rows.files|, i requires 0 <= i < |rows.files| => rows.files[i].(picked := false)))
  }

  function Selecting(m: Manager): Manager {
    m.(nav := WithSelect(m.nav), view := m.view.(selected := {}))
  }

  function SelectLeft(m: Manager, clear: bool): Manager {
    m.(nav := Unselected(m.nav, clear), view := m.view.(rows := Unpicked(m.view.rows), selected := {}))
  }

  /** The selection, and the row at `index` alone. */
  function Toggled(v: View, index: nat): View
    requires index < |v.rows.tabItems|
  {
    var key, n := v.rows.tabItems[index].hash, |v.rows.cells|;
    var picked := key !in v.selected;
    var rows :=
      if index < n then v.rows.(cells := v.rows.cells[index := v.rows.cells[index].(picked := picked)])
      else if index - n < |v.rows.files| then
        v.rows.(files := v.rows.files[index - n := v.rows.files[index - n].(picked := picked)])
      else v.rows;
    v.(rows := rows, selected := if picked then v.selected + {key} else v.selected - {key})
  }

  /** A tap on a row of the list of `rows` rows that begins at item `first`; without select mode it opens the item. */
  function Tapped(m: Manager, index: int, first: nat, rows: nat): Manager {
    if m.busy || index < 0 || index >= rows || !m.nav.selecting || first + index >= |m.view.rows.tabItems| then m
    else m.(view := Toggled(m.view, first + index))
  }

  function Pressed(m: Manager, index: int): Manager {
    if m.nav.page != Items || m.busy || index < 0 || index >= |m.view.rows.tabItems| then m
    else
      var n := if m.nav.selecting then m else Selecting(m);
      if n.view.rows.tabItems[index].hash in n.view.selected then n else n.(view := Toggled(n.view, index))
  }

  function GoneBack(m: Manager): Manager {
    if m.nav.selecting then SelectLeft(m, true)
    else
      match m.nav.page
      case Items => m.(nav := ItemsLeft(m.nav.(stack := Cleared(m.nav.stack, ITEMS)), Manage), view := Left(m.view))
      case Manage => m.(nav := m.nav.(page := Main, stack := Cleared(m.nav.stack, MANAGE)))
      case Main => m
  }

  /** The shell takes its top step and does what that says. */
  function Popped(m: Manager): Manager {
    var s := m.nav.stack;
    if s == [] then m
    else
      var n := WithStack(m, s[..|s| - 1]);
      if s[|s| - 1] == MANAGE then n.(nav := n.nav.(page := Main))
      else if s[|s| - 1] == ITEMS then n.(nav := ItemsLeft(n.nav, Manage), view := Left(n.view))
      else if s[|s| - 1] == SELECT then SelectLeft(n, false)
      else n
  }

  function Started(c: Counts): Counts {
    c.(latest := c.latest + 1, pending := c.pending + [Count(c.latest + 1, None, None, None)])
  }

  /** The answer to one question; a question answered already keeps its answer. */
  function Told(c: Count, a: Answer): Count {
    match a
    case ItemsAre(items) => if c.items.Some? then c else c.(items := Some(items))
    case StoreIs(bytes) => if c.store.Some? then c else c.(store := Some(bytes))
    case ProfileIs(bytes) => if c.profile.Some? then c else c.(profile := Some(bytes))
  }

  function Refilled(m: Manager, items: seq<Item>, large: seq<Item>, chats: seq<string>): Manager {
    var d := Data(items, large, chats, m.data.thumbs);
    if m.nav.page != Items then m.(data := d)
    else
      var c := m.view.choice.(pageAll := PageItems(d, m.view.choice.large, m.view.choice.thread));
      var selected := m.view.selected * Hashes(c.pageAll);
      m.(data := d, view := View(c, Built(c, d.thumbs, selected), selected))
  }

  /** An answer arrives; when it is the last one of the newest count, that count is applied. */
  function Heard(m: Manager, index: nat, a: Answer, large: seq<Item>, chats: seq<string>): Manager {
    if index >= |m.counts.pending| then m
    else
      var was, count := m.counts.pending[index], Told(m.counts.pending[index], a);
      var n := m.(counts := m.counts.(pending := m.counts.pending[index := count]));
      if was.Done() || !count.Done() || count.seq_ != m.counts.latest then n
      else
        Refilled(n.(counts := n.counts.(applied := n.counts.applied
                      + [Applied(count.seq_, count.items.value, count.store.value, count.profile.value)])),
                 count.items.value, large, chats)
  }

  /** Cells of that content that have no thumbnail yet get it. */
  function Thumbed(rows: Rows, thread: string, hash: string, path: string): Rows {
    rows.(cells := seq(|rows.cells|, i requires 0 <= i < |rows.cells| =>
      if i < |rows.tabItems| && rows.cells[i].thumb == "" && rows.tabItems[i].thread == thread
         && rows.tabItems[i].hash == hash
      then rows.cells[i].(thumb := path) else rows.cells[i]))
  }

  /** A thumbnail was made: its path is known from now on. */
  function ThumbMade(m: Manager, thread: string, hash: string, path: string): Manager {
    if (thread, hash) in m.data.thumbs || path == "" then m
    else
      var n := m.(data := m.data.(thumbs := m.data.thumbs[(thread, hash) := path]));
      if m.nav.page == Items then n.(view := n.view.(rows := Thumbed(n.view.rows, thread, hash, path))) else n
  }

  function Step(m: Manager, e: Event): Manager {
    var v := m.view;
    match e
    case Enter => var n := WasReset(m); n.(counts := Started(n.counts))
    case Reset => WasReset(m)
    case LayoutSwitch(others) => m.(nav := Restored(m.nav.(stack := others)))
    case OpenManage =>
      if m.nav.page != Main then m else m.(nav := WithManage(m.nav))
    case OpenLarge => if m.nav.page != Manage || m.data.large == [] then m else Entered(m, true, "")
    case OpenChat(index) =>
      if m.nav.page != Manage || index < 0 || index >= |m.data.chats| then m else Entered(m, false, m.data.chats[index])
    case SetTab(tab) =>
      if m.nav.page != Items || tab.None? || tab.value == v.choice.tab then m
      else Chosen(m, v.choice.(tab := tab.value, shown := PAGE_SIZE))
    case LoadMore =>
      if m.nav.page != Items || !v.rows.hasMore then m else Chosen(m, v.choice.(shown := v.choice.shown + PAGE_SIZE))
    case TapCell(index) => Tapped(m, index, 0, |v.rows.cells|)
    case TapFile(index) => Tapped(m, index, |v.rows.cells|, |v.rows.files|)
    case LongPress(index) => Pressed(m, index)
    case ToggleSelect =>
      if m.nav.page != Items || m.busy then m else if m.nav.selecting then SelectLeft(m, true) else Selecting(m)
    case Back => GoneBack(m)
    case ShellPop => Popped(m)
    case OtherPush(id) => if IsOurs(id) then m else WithStack(m, Pushed(m.nav.stack, id))
    case OtherClear(id) => if IsOurs(id) then m else WithStack(m, Cleared(m.nav.stack, id))
    case DeleteStarts => m.(busy := true)
    case DeleteDone =>
      var n := if m.nav.selecting then SelectLeft(m, true) else m;
      n.(busy := false, counts := Started(n.counts))
    case Recompute => m.(counts := Started(m.counts))
    case Answered(count, answer, large, chats) => Heard(m, count, answer, large, chats)
    case ThumbReady(thread, hash, path) => ThumbMade(m, thread, hash, path)
  }

  function Run(events: seq<Event>): Manager {
    if events == [] then START else Step(Run(events[..|events| - 1]), events[|events| - 1])
  }
}
