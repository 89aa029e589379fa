# BlackBBoard input handling, modelled in Dafny

BlackBBoard (`main.py`) is a pygame drawing board. Everything it draws
goes onto one fixed-size surface that is shown on the screen at a
scroll `offset`. Inside the main loop sits a small integer state
machine that decides what each mouse and key event does. It tracks
which tool holds the lock (draw on the left button, move on the middle
button, erase on the right button, pen width on the `c` key), whether
the left button is down, the canvas point where it was pressed (the
anchor), the offset, and the pen width during a width drag. It also
counts the pages saved with `s`. After each batch of events the loop
draws a preview over the screen: the outline of the rectangle being
erased, or a circle of the pen's size during a width drag. This project
models that state machine, the preview, and the tuple helpers they use,
and proves what they guarantee.

- `tuples.dfy`, module `Tuples`: `add_tuples` and `sub_tuples` on
  integer pairs, and `realpos`/`relpos` as the mapping between screen
  and canvas coordinates for a given offset.
- `input.dfy`, module `Input`: the state (one field per variable of the
  program), events, effects, and `Step`, the body of the event loop for
  one event, as a function. `Run` handles a sequence of events,
  `Preview` draws the preview, `Pass` is one pass of the main loop (a
  batch, then the preview) and `Loop` is a sequence of passes.
  Pygame calls become effect values: `DrawLine`, `EraseRect`,
  `WarpMouse`, `ShowCursor`, `SavePage`, `Outline`, `PenCircle`.
  Exceptions become `Crash` outcomes, and quitting becomes `Exit`.
- `input_properties.dfy`, module `InputProperties`: lemmas about the
  tool lock, the anchor, the erase rectangle, panning, the pen width, the
  preview and the page counter.
- `findings.dfy`, module `Findings`: two defects of the program as
  written and the corrected behaviour (see "## Findings").
- `board.dfy`, module `MainLoop`: class `Board`, whose fields are the
  program's variables. `HandleEvent` updates them in place, branch by
  branch as the program does. `Pump` handles one batch of events in a
  loop, `DrawPreview` computes the preview and `RunPass` does both. They
  are proved equal to `Step`, `Run`, `Preview` and `Pass`.

`Step`, `Preview` and the functions built on them take a `Variant`
argument. `AsWritten` is the program as it
stands. `Corrected` is the program with the two findings fixed. Every
lemma in `InputProperties` holds for both. `Board` implements
`Corrected`.

Python's `//` floors. Dafny's `/` does not floor for a negative divisor,
so `FloorDiv` writes floor division out. A divisor of zero raises
`ZeroDivisionError`, and so does the model. Python integers are
unbounded, so Dafny's `int` needs no wrap-around.

`main.py` draws straight onto a single surface; it keeps no undo
history and no clipboard. Ending a width drag keeps the new width
(`anchw = penwidth`, main.py:193 and main.py:259); it does not restore
the width the drag started from.

## Model

| member | source | states |
|---|---|---|
| `Tuples.Sub` | main.py:101-102 | adding the subtrahend back to the difference gives the minuend |
| `Tuples.RealPos` | main.py:104-105 | the canvas point shown at a screen position is the point that the offset carries back onto that position |
| `Tuples.RelPos` | main.py:107-108 | removing the offset from the screen position of a canvas point gives the canvas point back |
| `Tuples.PositionRoundTrip` | main.py:104-108 | `relpos(realpos(p)) == p` and `realpos(relpos(p)) == p` for every offset |
| `Input.Init` | main.py:148-164 | before the first event no tool holds the lock and `islock` is false, the button is up, there is no anchor, the offset is zero, the anchor width is the pen width and no page is saved |
| `Input.FloorDiv` | main.py:243 | the result is the floor of the quotient: `b*q <= a < b*q + b` for a positive divisor, and the mirror image for a negative one |
| `Input.NormalRect` | main.py:183-188 | width and height are never negative; the left and right edges are the two x coordinates and the top and bottom edges the two y coordinates, whichever corner came first |
| `Input.Pan` | main.py:236-238 | after a move drag the anchor is the canvas point under the pointer |
| `Input.ResizedWidth` | main.py:243 | the pen width is at least one, and is `anchw + coff // PPP` unless that is below one |
| `Input.Step` | main.py:172-262 | one event keeps `islock` true exactly when a tool holds the lock, keeps the pen width at least one, and emits nothing when it exits or raises |
| `Input.Run` | main.py:172-173 | handling a sequence of events keeps `islock` in agreement with the lock and keeps the pen width at least one |
| `Input.Preview` | main.py:264-273 | the preview changes no state and draws at most one shape; it raises exactly when, as written, the left button is down under the erase or pen-width lock with no anchor, and then with `TypeError` |
| `Input.Pass` | main.py:172-273 | one pass of the main loop, a batch and then the preview, keeps `islock` in agreement with the lock and the pen width at least one |
| `Input.Loop` | main.py:172-273 | any number of passes keeps `islock` in agreement with the lock and the pen width at least one |
| `InputProperties.LockFlagAgrees` | main.py:148-151 | from the initial state, every sequence of events leaves `islock` true exactly when a tool holds the lock |
| `InputProperties.AcquireOnlyWhenFree` | main.py:200-215 | left, middle and right presses and the `c` key take their tool only when no tool holds the lock; otherwise the lock keeps its holder |
| `InputProperties.RequestWhileHeld` | main.py:197-215 | under a held lock, a request changes only the button state and the anchor of a left press; only a left press under the pen-width lock resets `anchw`, `coff` and `maxcoff` or emits anything |
| `InputProperties.ReleaseOnlyOwnTool` | main.py:177-181 | a left, middle or right release, or releasing `c`, gives the lock up exactly when its own tool holds it and otherwise changes neither `islock` nor `lock` |
| `InputProperties.LeftReleaseEndsPress` | main.py:177-196 | releasing the left button always sets `isdown` false and drops the anchor, whatever the lock |
| `InputProperties.NormalRectSymmetric` | main.py:183-188 | swapping the two corners gives the same erase rectangle |
| `InputProperties.EraseOnLeftRelease` | main.py:182-189 | only a left release under the erase lock erases; with an anchor it erases exactly the rectangle between the anchor and the canvas point released on |
| `InputProperties.PanKeepsAnchor` | main.py:236-238 | a move drag changes only the offset, by exactly the distance from the anchor to the canvas point under the pointer, and afterwards `mouse - offset == anchor` |
| `InputProperties.OnlyMoveDragPans` | main.py:224-243 | no event except a move drag changes the offset |
| `InputProperties.ResizeBounds` | main.py:240-243 | a width drag yields `coff >= maxcoff`, `coff` at least the horizontal drag distance, and a pen width of at least one |
| `InputProperties.FloorDivMonotone` | main.py:243 | floor division by a positive number is monotone |
| `InputProperties.FloorDivOfMultiple` | main.py:207 | floor division by `PPP` undoes multiplication by `PPP` |
| `InputProperties.ResizeMonotone` | main.py:240-243 | for `PPP > 0` the pen width does not decrease as the pointer's x grows |
| `InputProperties.PressMakesResizeReady` | main.py:203-207 | a left press under the pen-width lock hides the pointer, sets `anchw` to the pen width and `coff` to zero, and sets `maxcoff` to the drag at which the pen is one pixel wide |
| `InputProperties.ResizeClampInactive` | main.py:240-243 | after such a press the clamp to one pixel never binds: the width is `anchw + coff // PPP` |
| `InputProperties.SaveAdvancesPage` | main.py:112-114 | the `s` key increments the page counter, asks for that page to be saved and changes nothing else |
| `InputProperties.QuitExits` | main.py:174 | the window's close event and the `q` key end the program |
| `InputProperties.PreviewAtPress` | main.py:197-272 | after a left press under the erase or pen-width lock the preview is placed at the screen position pressed: the outline runs from there to the pointer, the circle is centred there with radius `(penwidth + 1) >> 1` |
| `InputProperties.CrashCauses` | main.py:177-243 | the handler raises only by dividing by a zero `PPP` in a width drag or, as written, by using the empty anchor under the erase, move or pen-width lock |
| `InputProperties.RunAppend` | main.py:172-173 | handling `a + b` is handling `a`, then `b` from the resulting state unless `a` exited or raised |
| `Findings.KeyRelockReaches` | main.py:197-262 | from the initial state, `c` down, left press, `c` up, `c` down leave the pen-width lock held and the left button down with no anchor, under either variant |
| `Findings.KeyRelockPreviewCrashes` | main.py:253-272 | as written, for every pen width, `PPP`, press point and pointer position, the preview after those four events raises `TypeError`; corrected, the program goes on |
| `Findings.KeyRelockCrashesEventByEvent` | main.py:172-272 | the same four events, each in a pass of its own, also stop the program as written with `TypeError` |
| `Findings.EraseAfterKeyReleaseCrashes` | main.py:208-272 | after `c` up has ended a width drag, a right press takes the erase lock with the button down and no anchor, and the preview then raises `TypeError` as written; corrected, it goes on |
| `Findings.KeyReleaseDuringDragCrashes` | main.py:177-262 | the handler alone, as written, raises `TypeError` when these four events are followed by a left release; the corrected handler goes on |
| `Findings.CorrectedNeverUsesEmptyAnchor` | main.py:177-243 | with the correction, the handler raises `TypeError` on no sequence of events |
| `Findings.CorrectedLoopNeverUsesEmptyAnchor` | main.py:172-273 | with the correction, no run of the main loop, handler and preview together, raises `TypeError` from any state; only a zero `PPP` can raise |
| `Findings.CorrectionKeepsState` | main.py:177-262 | wherever the program as written goes on, the corrected one reaches the same state; with a zero offset it emits the same effects too |
| `Findings.WidthDragKeepsAnchor` | main.py:240-243 | motions during a width drag keep the lock, the press, the anchor and the offset |
| `Findings.WidthDragWarp` | main.py:192-207 | a width drag (left press under the pen-width lock, motions, release) hides the pointer, then warps it to the target computed from the pressed canvas point and shows it |
| `Findings.CorrectedWarpReturnsToPress` | main.py:192-195 | with the correction the pointer returns to the screen position where the drag started |
| `Findings.AsWrittenWarpMissesPress` | main.py:194 | as written, with the offset at (10, 0), a drag started at (200, 200) warps the pointer to (190, 200) |
| `MainLoop.Board.constructor` | main.py:148-164 | the fields start as `Input.Init` says |
| `MainLoop.Board.Save` | main.py:112-114 | the page counter goes up by one and the new page is the one saved |
| `MainLoop.Board.LeftUp` | main.py:177-196 | updating the fields in place gives the state and effects of the corrected left release |
| `MainLoop.Board.LeftDown` | main.py:197-207 | updating the fields in place gives the state and effects of a left press |
| `MainLoop.Board.PointerMoved` | main.py:224-243 | updating the fields in place gives the state and effects of the corrected motion branch |
| `MainLoop.Board.PenWidthUp` | main.py:253-262 | updating the fields in place gives the state and effects of the corrected `c` release |
| `MainLoop.Board.Take` | main.py:208-215 | the lock for the tool is taken exactly as `Input.Acquire` says, and nothing else changes |
| `MainLoop.Board.Drop` | main.py:216-223 | the lock is given up exactly as `Input.Release` says, and nothing else changes |
| `MainLoop.Board.HandleEvent` | main.py:174-262 | dispatching on the event and updating the fields gives the state and the effects of the corrected `Step`; quitting leaves the fields as they were |
| `MainLoop.Board.Pump` | main.py:173 | handling a batch of events in a loop gives exactly what the corrected `Run` gives, stopping at the first event that quits |
| `MainLoop.Board.DrawPreview` | main.py:266-272 | computing the preview from the fields gives the shapes of the corrected `Preview` and changes nothing |
| `MainLoop.Board.RunPass` | main.py:172-273 | a batch followed by the preview gives exactly what the corrected `Pass` gives |

The branch functions `Input.Acquire` (main.py:208-215, 249-252),
`Input.Release` (main.py:216-223), `Input.ReleaseLeft`
(main.py:177-196), `Input.PressLeft` (main.py:197-207), `Input.Moved`
(main.py:224-243) and `Input.ReleasePenWidth` (main.py:253-262) are the
cases of `Step` at those lines; their properties are stated through
`Step` in the rows above and through the `Board` methods that implement
them. `Tuples.Add` is `add_tuples` on two pairs (main.py:98-99); its
property is stated by `Sub` and `RelPos`.

## Findings

| source | as written | input that shows it | evidently intended | confidence | as-written member | corrected member |
|---|---|---|---|---|---|---|
| main.py:253-262, main.py:266-272 | releasing `c` clears the anchor but leaves `isdown` true; once the pen-width or erase lock is held again, the preview computes `relpos((None, None))` and raises `TypeError`, and so do a later left release under either lock and a later move or width drag in the handler | from the start: `c` down, left press anywhere, `c` up, `c` down; the preview after the batch raises | what needs the anchor is skipped when there is none, as the draw branch already does | not executed; high | `Findings.KeyRelockPreviewCrashes` | `Findings.CorrectedLoopNeverUsesEmptyAnchor` |
| main.py:194, main.py:260 | ending a width drag passes the anchor, a canvas point, to `pygame.mouse.set_pos`, which takes a screen position | offset (10, 0); a width drag started at screen (200, 200) puts the pointer at (190, 200) | warp to `relpos(anchor)`, the screen position of the press, which the resize circle is drawn around | not executed; high | `Findings.AsWrittenWarpMissesPress` | `Findings.CorrectedWarpReturnsToPress` |

## Left out

- Argument parsing and the constants derived from it (main.py:26-79): the
  pen width, `PPP` and the variant are parameters. `Board.constructor`
  requires `PPP > 0`; the pure `Step` requires nothing and raises
  `ZeroDivisionError` for zero, as the program does.
- Pygame set-up, the window, the cursor shape and the surface size
  (main.py:125-140).
- `mul_tuple` (main.py:95-96): its only use is the surface size at
  set-up (main.py:137), which is not modelled.
- Clearing the screen, showing the surface at the offset and flipping
  the display (main.py:264-265, 273): drawing only, with no state and no
  way to raise. The erase outline and the width circle are modelled, as
  the `Outline` and `PenCircle` effects of `Preview`.
- The pixels themselves: `pygame.draw.line`, `pygame.draw.rect`,
  `pygame.draw.aalines` and `pygame.draw.circle`,
  `pygame.mouse.set_pos` and `set_visible`, and `pygame.image.save` with
  its file name (main.py:115, 189, 194-195, 204, 234, 260-261, 270, 272) are effect
  values, not performed.
- `quit` (main.py:89-91): the exit code and `pygame.quit` are not
  modelled; quitting is the `Exit` outcome.
- Creating the session directory (main.py:125-126): file-system I/O.
- The outer `while True` loop, `pygame.event.get()` and
  `pygame.mouse.get_pos()` (main.py:172-173, 237, 241, 268): polling
  is I/O. `Board.RunPass` handles one batch and one pointer position that
  are given to it; `Input.Loop` takes the sequence of passes as given.
- `add_tuples` on any number of tuples, and `zip` cutting tuples of
  unequal length short (main.py:98-102): the program only uses pairs.
- The local `mo` (main.py:239) is computed and never used.
- MainLoop.Board.HandleEvent: implements the corrected handler, not the one as
  written; `Findings.CorrectionKeepsState` relates the two.
- MainLoop.Board.Pump: says nothing about the fields when the batch quits, since
  the program then exits.
