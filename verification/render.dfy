/**
  The view selector. Rendering is kept abstract: a loaded board shows the
  three column blocks left to right, each tagged with the style it is drawn
  in, instead of the bordered and coloured text the styling library draws.
 */
module Render {
  import opened Focus
  import opened Board

  /** `Focused` is the rounded, coloured border; `Normal` the hidden one. */
  datatype Treatment = Normal | Focused

  /** One column as drawn: the widget's own rendering, the style's treatment
      and the width and height set on the styles. */
  datatype Block = Block(content: string, treatment: Treatment, layout: Layout)

  /** A plain line of text, or blocks joined horizontally, top-aligned. */
  datatype Screen = Text(text: string) | Row(blocks: seq<Block>)

  /** What the board shows. `render` is the list widget's own view. */
  function View(m: Model, render: ListWidget -> string): (r: Screen)
    requires m.loaded && !m.quitting ==> |m.lists| >= 3
    ensures m.quitting ==> r == Text("")
    ensures !m.quitting && !m.loaded ==> r == Text("loading...")
    ensures m.loaded && !m.quitting ==>
              && r.Row?
              && |r.blocks| == 3
              && forall i :: 0 <= i < 3 ==>
                   && r.blocks[i].content == render(m.lists[i])
                   && r.blocks[i].layout == m.layout
                   && (r.blocks[i].treatment == Focused <==> i == m.focused)
  {
    if m.quitting then Text("")
    else if !m.loaded then Text("loading...")
    else
      var todoView := render(m.lists[Todo]);
      var inProgressView := render(m.lists[InProgress]);
      var doneView := render(m.lists[Done]);
      if m.focused == InProgress then
        Row([Block(todoView, Normal, m.layout), Block(inProgressView, Focused, m.layout), Block(doneView, Normal, m.layout)])
      else if m.focused == Done then
        Row([Block(todoView, Normal, m.layout), Block(inProgressView, Normal, m.layout), Block(doneView, Focused, m.layout)])
      else
        Row([Block(todoView, Focused, m.layout), Block(inProgressView, Normal, m.layout), Block(doneView, Normal, m.layout)])
  }

  /** Number of blocks drawn with the focused treatment. */
  function FocusedCount(blocks: seq<Block>): nat
    decreases |blocks|
  {
    if blocks == [] then 0
    else (if blocks[0].treatment == Focused then 1 else 0) + FocusedCount(blocks[1..])
  }

  /** Blocks none of which is focused count zero. */
  lemma {:induction false} NoneFocusedCountsZero(blocks: seq<Block>)
    requires forall i :: 0 <= i < |blocks| ==> blocks[i].treatment == Normal
    ensures FocusedCount(blocks) == 0
    decreases |blocks|
  {
    if blocks != [] {
      assert forall i :: 0 <= i < |blocks[1..]| ==> blocks[1..][i] == blocks[i + 1];
      NoneFocusedCountsZero(blocks[1..]);
    }
  }

  /** Blocks of which exactly the one at `k` is focused count one. */
  lemma {:induction false} OneFocusedCountsOne(blocks: seq<Block>, k: int)
    requires 0 <= k < |blocks|
    requires forall i :: 0 <= i < |blocks| ==> (blocks[i].treatment == Focused <==> i == k)
    ensures FocusedCount(blocks) == 1
    decreases |blocks|
  {
    assert forall i :: 0 <= i < |blocks[1..]| ==> blocks[1..][i] == blocks[i + 1];
    if k == 0 {
      NoneFocusedCountsZero(blocks[1..]);
    } else {
      OneFocusedCountsOne(blocks[1..], k - 1);
    }
  }

  /** A loaded, running board draws exactly one block as focused. */
  lemma ExactlyOneFocused(m: Model, render: ListWidget -> string)
    requires m.loaded && !m.quitting && |m.lists| >= 3
    ensures View(m, render).Row?
    ensures FocusedCount(View(m, render).blocks) == 1
  {
    OneFocusedCountsOne(View(m, render).blocks, m.focused);
  }

  /** Quitting takes precedence over loading: a board that quits before its
      first size message shows nothing, not the loading line. */
  lemma QuitBeforeLoadShowsNothing(m: Model, render: ListWidget -> string)
    requires m.quitting && !m.loaded
    ensures View(m, render) == Text("")
  {
  }

  /** Every reachable state can be drawn. */
  lemma ReachableStatesRender(m: Model)
    requires Wf(m)
    ensures m.loaded && !m.quitting ==> |m.lists| >= 3
  {
  }
}
