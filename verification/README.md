# kancli board and focus controller, in Dafny

A model of the terminal kanban board of `kancli`: three fixed columns (to do,
in progress, done), a focus that cycles among them, and the Bubble Tea step
function `Update` and view `View` of the board's `Model`.

- `goarith.dfy` (module `GoArith`): Go's truncating integer `/` and `%`, which the
  source uses for the column width, the widget height and the focus steps.
- `focus.dfy` (module `Focus`): kancli's `status` type as the integers 0..2, and
  `Next` / `Prev`, with their inverse and period-three laws, also for `n` steps.
- `board.dfy` (module `Board`): the `Model` record, `Task`, the seeding of the
  three lists by `initLists`, and `Update` split into its two phases:
  `React` handles the size and key messages, and `Delegate` hands the message
  to the focused list. The list widget (`list.Model`) is reduced to the
  fields the program sets (title, items, width, height, show-help). The
  widget's own `Update` is a function parameter (`WidgetUpdate`).
- `render.dfy` (module `Render`): `View`. The output is abstracted to a row of
  three blocks, each tagged `Focused` or `Normal`, in place of styled text.
  The widget's own `View` is a function parameter.
- `session.dfy` (module `Session`): `Run` applies `Update` to a sequence of
  messages in order, as the runtime does one message at a time. It carries the
  properties that span several steps.

Two behaviours of the code are kept as written:

- **Early key press.** `m.lists[m.focused]` at `main.go:77` indexes a nil slice if a
  non-quit key, or any non-size message, arrives before the first window-size
  message. The model returns `Panicked` in that case instead of assuming it away.
  `Board.Update` states exactly when it happens.
- **Two column heights.** The column styles get `height - 4`, but the list
  widgets get `height / 2`. The two disagree except on a 7- or 8-row terminal
  (`Board.HeightsAgreeOnlyAtSevenOrEight`). The model keeps both heights and
  does not pick one.

The styles' width and height are process-global values set by the first
size message. They are modelled as the `layout` field of `Model` (`Unsized`
until then). Lipgloss styles of this era keep their rules in a map that every
copy of a style shares. So `columnStyle.Width(...)` and the three calls after
it (main.go:55-58) change the global style, even though each call goes through
a value receiver.

## Model

| member | source | states |
|---|---|---|
| GoArith.Quo | main.go:55-56 | Go's `/` by a positive divisor truncates toward zero: the leftover lies in [0, b) for a non-negative dividend and in (-b, 0] for a negative one |
| GoArith.Rem | main.go:23 | Go's `%` by a positive divisor takes the dividend's sign and stays strictly inside (-b, b) |
| GoArith.QuoRemRecombine | main.go:31 | Go's quotient and remainder recombine into the dividend |
| GoArith.RemIsEuclideanOnNonNegative | main.go:27-33 | on a non-negative dividend Go's `%` and Euclidean `%` agree, which is the only case `Prev` reaches |
| GoArith.RemOfMinusOneIsNegative | main.go:27-33 | without the `todo` branch, `(0 - 1) % 3` would give -1 in Go, outside the columns |
| Focus.Next | main.go:19-25 | `done` goes to `todo`, every other column goes to the next index, and the result is always a column |
| Focus.Prev | main.go:27-33 | `todo` goes to `done`, every other column goes to the previous index, and the result is always a column |
| Focus.NextUndoesPrev | main.go:19-33 | `Next(Prev(f)) == f` for every column |
| Focus.PrevUndoesNext | main.go:19-33 | `Prev(Next(f)) == f` for every column |
| Focus.NextHasPeriodThree | main.go:19-25 | three `Next` steps return to the start, and one or two do not |
| Focus.PrevHasPeriodThree | main.go:27-33 | three `Prev` steps return to the start, and one or two do not |
| Focus.NextNAdvances | main.go:19-25 | `n` forward steps land on `(f + n) mod 3` |
| Focus.PrevNRetreats | main.go:27-33 | `n` backward steps land on `(f - n) mod 3` |
| Focus.PrevNUndoesNextN | main.go:19-33 | `n` backward steps undo `n` forward steps |
| Focus.NextNIsPeriodic | main.go:19-25 | any forward walk repeats with period three |
| Focus.PrevNIsPeriodic | main.go:27-33 | any backward walk repeats with period three |
| Board.New | main.go:43-45 | the program starts unloaded, not quitting, focused on `todo`, with no lists, in a reachable state |
| Board.InitLists | main.go:120-146 | seeding makes exactly three lists. List `i` has title "to do", "in progress" or "done", three tasks all with status `i`, width `width / 4`, height `height / 2`, and help hidden |
| Board.HeightsAgreeOnlyAtSevenOrEight | main.go:120-121 | for every height, negative ones included, the widget height `height / 2` equals the style height `height - 4` (lines 57-58) only when the height is 7 or 8 |
| Board.SteerFocus | main.go:67-71 | `left`/`h` apply `Prev`, `right`/`l` apply `Next`, and any other key keeps the focus |
| Board.React | main.go:52-73 | an unloaded board's size message loads it and sets the layout to `width / 4` by `height - 4` and the lists to the seeded ones. A loaded board keeps lists, layout and `loaded` on a size message. Keys steer focus. Quitting is untouched |
| Board.Delegate | main.go:75-79 | panics exactly when `focused` is past the end of `lists`. Otherwise only the focused list becomes the widget's update of it, the command is the widget's, and nothing else changes |
| Board.Update | main.go:51-80 | a quit key sets `quitting` and returns the quit command with nothing else changed. Quitting and loading are never undone. From a reachable state a step panics exactly when a non-size, non-quit message comes before loading. Reachable states stay reachable |
| Board.FirstSizeSeeds | main.go:53-61 | the first size message loads the board with three lists, focused on to do. The in-progress and done lists are the seeded ones, and the to-do list is the widget's update of its seed. Focus is on to do because, from a reachable state, a key that would move focus before loading panics first |
| Board.LaterSizeKeepsBoard | main.go:54-61 | later size messages change neither `loaded`, the layout nor the unfocused lists |
| Board.KeysSteerFocus | main.go:62-79 | on a loaded board a non-quit key moves focus by `Prev`/`Next`/not at all. Only the newly focused list is passed to the widget, and the other two are untouched |
| Render.View | main.go:82-117 | quitting shows `""` first. Otherwise an unloaded board shows `"loading..."`. Otherwise three blocks show the three lists in order, and block `i` is focused exactly when `i == focused` |
| Render.NoneFocusedCountsZero | main.go:95-117 | a row with no focused block counts zero focused blocks |
| Render.OneFocusedCountsOne | main.go:95-117 | a row focused exactly at one index counts one focused block |
| Render.ExactlyOneFocused | main.go:95-117 | a loaded, running board draws exactly one focused block |
| Render.QuitBeforeLoadShowsNothing | main.go:82-89 | a board that quits before loading shows `""`, not the loading line |
| Render.ReachableStatesRender | main.go:91-93 | every reachable loaded state has the three lists `View` indexes |
| Session.Run | main.go:51-80 | over any message sequence, quitting and loading persist, reachable states stay reachable, and a loaded board never panics |
| Session.KeysCountAroundColumns | main.go:62-71 | on a loaded board, a run of non-quit keys leaves focus at the start plus right keys minus left keys, mod 3 |
| Session.QuitIsTerminal | main.go:64-85 | after a quit key, every later state is quitting and shows `""` |
| Session.Walkthrough | main.go:53-71 | from the zero model, a 100x40 size gives a loaded board with layout 25x36, focused on `todo`. The to-do widget is the widget's update of its seed, and the two unfocused widgets hold three tasks and are 20 high. Each `l` moves focus to in progress, done, then to do. `q` quits with the quit command and an empty view |

## Left out

- `main`, `tea.NewProgram(...).Run` and `log.Fatal` (main.go:11-17): process start-up and the terminal event loop are I/O. `Session.Run` stands in for the loop as a fold over a finite message sequence. It does not stop at the quit command, because whether queued messages are still delivered after it is the runtime's business.
- `Init` (main.go:47-49) returns no command and has no state to model.
- The list widget's internals (filtering, scrolling, pagination, its own `Update` and `View`): third-party code. They are the parameters `WidgetUpdate` and `render`, constrained by nothing.
- Render.View: returns the abstract row of tagged blocks, not the bordered, padded and coloured strings that the styling library joins (main.go:97-116, 176-186).
- Lipgloss style values (padding, border kinds, colour "62") and the unused `helpStyle`: presentation constants with no behaviour.
- `Task.Title`, `Description` and `FilterValue` (main.go:154-164): accessors for the widget interface. The model keeps the fields themselves.
- The unused `err` field of `Model`.
- Go slice aliasing: `Update` has a value receiver but writes through the shared backing array of `lists`, so the discarded old model also sees the new list. The runtime never looks at the old model, so the model treats `lists` as a value.
- Go's 64-bit `int` is replaced by Dafny's unbounded `int`. So `msg.Height - divisor` (main.go:57-58) does not wrap for heights within 4 of the smallest 64-bit integer, as Go's would. Negative sizes are otherwise not excluded, and Go's truncating `/` is modelled for them.
