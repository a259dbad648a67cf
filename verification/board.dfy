/**
  The board state and its step function `Update`: the first window-size
  message seeds the three columns, quit keys end the session, arrow and
  h/l keys move focus, and every other message is handed to the list widget
  of the focused column.

  The list widget is a third-party component: its state is reduced to the
  fields this program sets, and its own update is a function parameter.
 */
module Board {
  import GoArith
  import opened Focus

  /** Layout divisor: columns get a quarter of the terminal width and the
      terminal height minus this constant. */
  const Divisor: int := 4

  /** A card on the board; `status` names the column it was seeded into. */
  datatype Task = Task(title: string, description: string, status: Status)

  /** What the program sets on a list widget; the widget's scrolling,
      filtering and pagination state lives behind `WidgetUpdate`. */
  datatype ListWidget = ListWidget(
    title: string,
    items: seq<Task>,
    width: int,
    height: int,
    showHelp: bool)

  /** Messages the runtime delivers: a terminal size, a key by its name, or a
      message meant for the widgets (cursor blinks, filter results, ...). */
  datatype Msg = WindowSize(width: int, height: int) | Key(name: string) | Other(tag: nat)

  /** Commands returned to the runtime; widget commands are opaque. */
  datatype Cmd = NoCmd | QuitCmd | WidgetCmd(tag: nat)

  /** Width and height set on both column styles, unset until the first
      window-size message. */
  datatype Layout = Unsized | Sized(width: int, height: int)

  datatype Model = Model(
    loaded: bool,
    focused: Status,
    quitting: bool,
    lists: seq<ListWidget>,
    layout: Layout)

  /** The result of one step: the next model and command, or the runtime
      panic of indexing `lists` out of range. */
  datatype Outcome = Stepped(model: Model, cmd: Cmd) | Panicked(index: int, length: int)

  /** The list widget's own update, which this program cannot see. */
  type WidgetUpdate = (ListWidget, Msg) -> (ListWidget, Cmd)

  /** The states the program can reach: no lists, no layout and focus on the
      first column before the first window-size message (a key that would
      move focus earlier panics instead), exactly three lists and a layout
      after it. */
  predicate Wf(m: Model) {
    if m.loaded then |m.lists| == 3 && m.layout.Sized?
    else m.lists == [] && m.layout == Unsized && m.focused == Todo
  }

  /** The zero model the program starts from. */
  function New(): (m: Model)
    ensures Wf(m) && !m.loaded && !m.quitting
    ensures m.focused == Todo
  {
    Model(false, Todo, false, [], Unsized)
  }

  predicate IsQuitKey(k: string) {
    k == "ctrl+c" || k == "q"
  }

  predicate IsLeftKey(k: string) {
    k == "left" || k == "h"
  }

  predicate IsRightKey(k: string) {
    k == "right" || k == "l"
  }

  predicate IsQuitMsg(msg: Msg) {
    msg.Key? && IsQuitKey(msg.name)
  }

  function ColumnTitle(c: Status): string {
    if c == Todo then "to do" else if c == InProgress then "in progress" else "done"
  }

  /** The decimal digit of a task number 1..3. */
  function Digit(n: int): string
    requires 1 <= n <= 3
  {
    [('0' as int + n) as char]
  }

  /** The `n`-th placeholder task of column `c`. */
  function SeedTask(c: Status, n: int): Task
    requires 1 <= n <= 3
  {
    Task("title " + Digit(n) + " goes here", "description " + Digit(n) + " goes here", c)
  }

  /** The three columns the first window-size message creates: one default
      widget sized `width / 4` by `height / 2`, help hidden, copied three
      times and given its column's title and three seeded tasks. */
  function InitLists(width: int, height: int): (r: seq<ListWidget>)
    ensures |r| == 3
    ensures forall i :: 0 <= i < 3 ==>
              && r[i].title == ColumnTitle(i)
              && |r[i].items| == 3
              && (forall j :: 0 <= j < 3 ==> r[i].items[j].status == i)
              && r[i].width == GoArith.Quo(width, Divisor)
              && r[i].height == GoArith.Quo(height, 2)
              && !r[i].showHelp
  {
    var base := ListWidget("", [], GoArith.Quo(width, Divisor), GoArith.Quo(height, 2), true);
    var hidden := base.(showHelp := false);
    var lists := [hidden, hidden, hidden];
    var lists := lists[Todo := lists[Todo].(title := ColumnTitle(Todo))];
    var lists := lists[Todo := lists[Todo].(items := [SeedTask(Todo, 1), SeedTask(Todo, 2), SeedTask(Todo, 3)])];
    var lists := lists[InProgress := lists[InProgress].(title := ColumnTitle(InProgress))];
    var lists := lists[InProgress := lists[InProgress].(items := [SeedTask(InProgress, 1), SeedTask(InProgress, 2), SeedTask(InProgress, 3)])];
    var lists := lists[Done := lists[Done].(title := ColumnTitle(Done))];
    var lists := lists[Done := lists[Done].(items := [SeedTask(Done, 1), SeedTask(Done, 2), SeedTask(Done, 3)])];
    lists
  }

  /** The columns' style height and the widgets' own height disagree: they
      coincide only on a seven- or eight-row terminal. */
  lemma HeightsAgreeOnlyAtSevenOrEight(height: int)
    ensures height - Divisor == GoArith.Quo(height, 2) <==> height == 7 || height == 8
  {
  }

  /** The focus a non-quit key leaves behind. */
  function SteerFocus(f: Status, k: string): (r: Status)
    ensures IsLeftKey(k) ==> r == Prev(f)
    ensures IsRightKey(k) ==> r == Next(f)
    ensures !IsLeftKey(k) && !IsRightKey(k) ==> r == f
  {
    if IsLeftKey(k) then Prev(f) else if IsRightKey(k) then Next(f) else f
  }

  /** The part of a step before delegation: a window-size message lays out
      and seeds the board once, a key may move focus. */
  function React(m: Model, msg: Msg): (p: Model)
    requires !IsQuitMsg(msg)
    ensures p.quitting == m.quitting
    ensures msg.WindowSize? && !m.loaded ==>
              && p.loaded
              && p.lists == InitLists(msg.width, msg.height)
              && p.layout == Sized(GoArith.Quo(msg.width, Divisor), msg.height - Divisor)
    ensures !(msg.WindowSize? && !m.loaded) ==>
              p.loaded == m.loaded && p.lists == m.lists && p.layout == m.layout
    ensures msg.Key? ==> p.focused == SteerFocus(m.focused, msg.name)
    ensures !msg.Key? ==> p.focused == m.focused
  {
    match msg
    case WindowSize(w, h) =>
      if !m.loaded then
        m.(layout := Sized(GoArith.Quo(w, Divisor), h - Divisor),
           lists := InitLists(w, h),
           loaded := true)
      else m
    case Key(k) => m.(focused := SteerFocus(m.focused, k))
    case Other(_) => m
  }

  /** Hands `msg` to the widget of the focused column; indexing past the end
      of `lists` is the runtime panic. */
  function Delegate(m: Model, msg: Msg, widget: WidgetUpdate): (r: Outcome)
    ensures r.Panicked? <==> m.focused >= |m.lists|
    ensures r.Panicked? ==> r.index == m.focused && r.length == |m.lists|
    ensures r.Stepped? ==>
              && |r.model.lists| == |m.lists|
              && r.model.lists[m.focused] == widget(m.lists[m.focused], msg).0
              && r.cmd == widget(m.lists[m.focused], msg).1
              && (forall i :: 0 <= i < |m.lists| && i != m.focused ==> r.model.lists[i] == m.lists[i])
              && r.model.(lists := m.lists) == m
  {
    if m.focused < |m.lists| then
      var (l, cmd) := widget(m.lists[m.focused], msg);
      Stepped(m.(lists := m.lists[m.focused := l]), cmd)
    else
      Panicked(m.focused, |m.lists|)
  }

  /** One step of the application. */
  function Update(m: Model, msg: Msg, widget: WidgetUpdate): (r: Outcome)
    // a quit key answers at once with the quit command and touches nothing else
    ensures IsQuitMsg(msg) ==>
              r == Stepped(m.(quitting := true), QuitCmd)
    // quitting is never undone
    ensures r.Stepped? ==> r.model.quitting == (m.quitting || IsQuitMsg(msg))
    // from a reachable state, a step panics exactly when a message other than
    // a size or quit message arrives before the board is loaded
    ensures Wf(m) ==>
              (r.Panicked? <==> !m.loaded && !msg.WindowSize? && !IsQuitMsg(msg))
    ensures Wf(m) && r.Stepped? ==> Wf(r.model)
    // loading happens once and is never undone
    ensures r.Stepped? ==> r.model.loaded == (m.loaded || msg.WindowSize?)
  {
    if IsQuitMsg(msg) then
      Stepped(m.(quitting := true), QuitCmd)
    else
      Delegate(React(m, msg), msg, widget)
  }

  /** The first window-size message seeds exactly the columns of
      `InitLists`, except that the to-do column, which has the focus, has
      already seen the message. */
  lemma FirstSizeSeeds(m: Model, w: int, h: int, widget: WidgetUpdate)
    requires Wf(m) && !m.loaded
    ensures var r := Update(m, WindowSize(w, h), widget);
            && r.Stepped?
            && r.model.loaded
            && r.model.focused == Todo
            && r.model.layout == Sized(GoArith.Quo(w, Divisor), h - Divisor)
            && |r.model.lists| == 3
            && r.model.lists[Todo] == widget(InitLists(w, h)[Todo], WindowSize(w, h)).0
            && (forall i :: 1 <= i < 3 ==> r.model.lists[i] == InitLists(w, h)[i])
  {
  }

  /** Later window-size messages neither reseed nor resize; only the focused
      widget sees them. */
  lemma LaterSizeKeepsBoard(m: Model, w: int, h: int, widget: WidgetUpdate)
    requires Wf(m) && m.loaded
    ensures var r := Update(m, WindowSize(w, h), widget);
            && r.Stepped?
            && r.model.loaded
            && r.model.focused == m.focused
            && r.model.layout == m.layout
            && r.model.lists[m.focused] == widget(m.lists[m.focused], WindowSize(w, h)).0
            && (forall i :: 0 <= i < 3 && i != m.focused ==> r.model.lists[i] == m.lists[i])
  {
  }

  /** On a loaded board a non-quit key moves focus by `Prev`, `Next` or not
      at all, then reaches the widget of the newly focused column. */
  lemma KeysSteerFocus(m: Model, k: string, widget: WidgetUpdate)
    requires Wf(m) && m.loaded && !IsQuitKey(k)
    ensures var r := Update(m, Key(k), widget);
            && r.Stepped?
            && (IsLeftKey(k) ==> r.model.focused == Prev(m.focused))
            && (IsRightKey(k) ==> r.model.focused == Next(m.focused))
            && (!IsLeftKey(k) && !IsRightKey(k) ==> r.model.focused == m.focused)
            && r.model.lists[r.model.focused] == widget(m.lists[r.model.focused], Key(k)).0
            && (forall i :: 0 <= i < 3 && i != r.model.focused ==> r.model.lists[i] == m.lists[i])
  {
  }
}
