/**
  A session: the runtime hands `Update` one message at a time, each processed
  to completion before the next, starting from the zero model. `Run` folds
  `Update` over a finite sequence of messages and stops at a panic.
 */
module Session {
  import opened Focus
  import opened Board
  import opened Render

  /** The outcome of feeding `msgs` to the board in order. */
  function Run(m: Model, msgs: seq<Msg>, widget: WidgetUpdate): (r: Outcome)
    decreases |msgs|
    // quitting and loading are never undone
    ensures r.Stepped? && m.quitting ==> r.model.quitting
    ensures r.Stepped? && m.loaded ==> r.model.loaded
    // reachable states stay reachable, and a loaded board never panics
    ensures Wf(m) && r.Stepped? ==> Wf(r.model)
    ensures Wf(m) && m.loaded ==> r.Stepped?
  {
    if msgs == [] then Stepped(m, NoCmd)
    else
      match Update(m, msgs[0], widget)
      case Panicked(i, n) => Panicked(i, n)
      case Stepped(m1, c) => if |msgs| == 1 then Stepped(m1, c) else Run(m1, msgs[1..], widget)
  }

  /** Keys that neither quit nor are anything but a key. */
  predicate IsPlainKey(msg: Msg) {
    msg.Key? && !IsQuitKey(msg.name)
  }

  /** Number of keys in `msgs` that move focus right. */
  function Rights(msgs: seq<Msg>): nat
    decreases |msgs|
  {
    if msgs == [] then 0
    else (if msgs[0].Key? && IsRightKey(msgs[0].name) then 1 else 0) + Rights(msgs[1..])
  }

  /** Number of keys in `msgs` that move focus left. */
  function Lefts(msgs: seq<Msg>): nat
    decreases |msgs|
  {
    if msgs == [] then 0
    else (if msgs[0].Key? && IsLeftKey(msgs[0].name) then 1 else 0) + Lefts(msgs[1..])
  }

  /** On a loaded board, a run of non-quit keys leaves focus where the right
      keys minus the left keys, counted around the three columns, put it. */
  lemma {:induction false} KeysCountAroundColumns(m: Model, msgs: seq<Msg>, widget: WidgetUpdate)
    requires Wf(m) && m.loaded
    requires forall i :: 0 <= i < |msgs| ==> IsPlainKey(msgs[i])
    ensures Run(m, msgs, widget).Stepped?
    ensures Run(m, msgs, widget).model.focused as int
            == (m.focused as int + Rights(msgs) - Lefts(msgs)) % 3
    decreases |msgs|
  {
    if msgs != [] {
      var k := msgs[0].name;
      var m1 := Update(m, msgs[0], widget).model;
      var d := if IsRightKey(k) then 1 else if IsLeftKey(k) then -1 else 0;
      assert m1.focused as int == (m.focused as int + d) % 3;
      assert Rights(msgs) - Lefts(msgs) == d + Rights(msgs[1..]) - Lefts(msgs[1..]);
      if |msgs| > 1 {
        assert forall i :: 0 <= i < |msgs[1..]| ==> msgs[1..][i] == msgs[i + 1];
        KeysCountAroundColumns(m1, msgs[1..], widget);
        ModShift(m.focused as int + d, Rights(msgs[1..]) - Lefts(msgs[1..]));
      } else {
        assert msgs[1..] == [];
      }
    }
  }

  /** Once a quit key has been pressed the board stays quitting, whatever
      follows, and shows nothing. */
  lemma {:induction false} QuitIsTerminal(m: Model, msgs: seq<Msg>, q: int, widget: WidgetUpdate, render: ListWidget -> string)
    requires 0 <= q < |msgs| && IsQuitMsg(msgs[q])
    ensures Run(m, msgs, widget).Stepped? ==> Run(m, msgs, widget).model.quitting
    ensures Run(m, msgs, widget).Stepped? ==> View(Run(m, msgs, widget).model, render) == Text("")
    decreases |msgs|
  {
    var r := Run(m, msgs, widget);
    var o := Update(m, msgs[0], widget);
    if q > 0 && o.Stepped? {
      assert msgs[1..][q - 1] == msgs[q];
      QuitIsTerminal(o.model, msgs[1..], q - 1, widget, render);
    }
  }

  /** From the zero model: a 100 by 40 terminal, three presses of `l` and one
      of `q`. */
  lemma Walkthrough(widget: WidgetUpdate, render: ListWidget -> string)
    ensures var r := Run(New(), [WindowSize(100, 40)], widget);
            && r.Stepped? && r.model.loaded && !r.model.quitting && r.model.focused == Todo
            && |r.model.lists| == 3
            && r.model.layout == Sized(25, 36)
            && r.model.lists[Todo] == widget(InitLists(100, 40)[Todo], WindowSize(100, 40)).0
            && forall i :: 1 <= i < 3 ==> |r.model.lists[i].items| == 3 && r.model.lists[i].height == 20
    ensures Run(New(), [WindowSize(100, 40), Key("l")], widget).model.focused == InProgress
    ensures Run(New(), [WindowSize(100, 40), Key("l"), Key("l")], widget).model.focused == Done
    ensures Run(New(), [WindowSize(100, 40), Key("l"), Key("l"), Key("l")], widget).model.focused == Todo
    ensures var r := Run(New(), [WindowSize(100, 40), Key("l"), Key("l"), Key("l"), Key("q")], widget);
            && r.Stepped? && r.model.quitting && r.cmd == QuitCmd
            && View(r.model, render) == Text("")
  {
    var s := Update(New(), WindowSize(100, 40), widget).model;
    FirstSizeSeeds(New(), 100, 40, widget);
    var msgs := [Key("l"), Key("l"), Key("l")];
    KeysCountAroundColumns(s, msgs[..1], widget);
    KeysCountAroundColumns(s, msgs[..2], widget);
    KeysCountAroundColumns(s, msgs, widget);
    assert [WindowSize(100, 40), Key("l")][1..] == msgs[..1];
    assert [WindowSize(100, 40), Key("l"), Key("l")][1..] == msgs[..2];
    assert [WindowSize(100, 40), Key("l"), Key("l"), Key("l")][1..] == msgs;
    var all := [WindowSize(100, 40), Key("l"), Key("l"), Key("l"), Key("q")];
    QuitIsTerminal(New(), all, 4, widget, render);
  }
}
