# Sizer: a Dafny model of the geometry command processor

Sizer is a GNOME Shell extension that moves and resizes the focused window on
request. Its commands are `Move`, `MoveResize`, `Resize`, `MoveInMonitor`,
`MoveResizeInMonitor`, `MoveInWorkArea`, `MoveResizeInWorkArea` and
`CenterInWorkArea`. Each command turns its arguments into an absolute
rectangle and issues Mutter (`Meta.Window`) calls. Before any manual move it
unmaximizes the window, which breaks GNOME's built-in tiling. After a
move+resize it maximizes each axis that the rectangle spans in full. It then
runs a bounded retry loop that corrects a frame the compositor did not apply
exactly.

The model has three modules for the extension and one for the window it drives:

- `Geometry` (`geometry.dfy`) holds the pure part: `Rect`, the work-area
  predicates `IsWithinWorkArea`, `IsEntireWorkAreaWidth` and
  `IsEntireWorkAreaHeight`, the origin translation `Offset`, and the
  floor-rounded centring `Centered`.
- `MetaWindow` (`window.dfy`) is the window the extension drives. The class
  `Window` has the fields `x, y, width, height, maxH, maxV`, the frame `saved`
  that the compositor records on maximizing, and the mutators `MoveFrame`,
  `MoveResizeFrame`, `Maximize` and `Unmaximize`. Maximizing an axis saves the
  frame's span on that axis; unmaximizing an axis that was maximized gives
  that span back, as Mutter restores a window's saved rectangle. The class
  also keeps a log `calls` of every mutator call made on it. The pure function `ApplyCall`
  gives the effect of one call and `Replay` the effect of a sequence of calls.
  The window honours every geometry request except that it never gets
  smaller than its minimum size (`Hints`); maximizing sets the flags without
  stretching the frame. When a move+resize is clamped by that
  minimum, the window only resizes and keeps its position. The source's own
  comment at `extension.js:203-207` describes this behaviour. Because of it,
  the retry loop can fail to converge.
- `Placement` (`placement.dfy`) is the placement engine: `Move`, `MoveResize`
  and its retry loop `RetryUntilPlaced`. Each method is specified by the exact
  sequence of calls it makes on the window, and by the state that sequence
  leaves. The sequences are the functions `MoveCalls`, `Prelude`,
  `RetryCalls` and `MoveResizeCalls`. The lemmas state what those sequences
  do: when unmaximizing happens, how the maximize flags are set, the retry
  bound, the move / move+resize alternation, and convergence.
- `Commands` (`commands.dfy`) is the command surface: `Resize`, the monitor-
  and work-area-relative commands, and `CenterInWorkArea`, with lemmas on
  what each command achieves.

The focused window, the monitor geometry and the work area are snapshots
passed in as parameters (`Window?`, where `null` means no focused window).
The extension reads them from `global.display` and `global.workspace_manager`.
Each run of the 20 ms timer callback is one iteration of the loop in
`RetryUntilPlaced`.

Three behaviours of the code that the model keeps as written:
- `Resize` (`extension.js:234-238`) does not check for a missing focused
  window, so it would throw on `null`. The model states this as
  `requires w != null` and does not add a guard.
- The retry loop (`extension.js:209-231`) does not handle a window that
  closes while the loop is pending. No cancellation path is modelled.
- `MoveResize` reads the work area once per classification call. Both calls
  happen in the same synchronous step, so the model uses one snapshot.

`CenterInWorkArea` computes the centre from the frame it reads before `Move`
unmaximizes the window, so a maximized window is not centred; this is
recorded under Findings below. `CenterInWorkArea` models the code as written
and `CenterInWorkAreaRestored` the evidently intended behaviour.

## Model

| member | source | states |
|---|---|---|
| `Geometry.EntireWidthIff` | extension.js:141-148 | full width holds iff x equals the work area's x, width equals its width, and the rectangle lies vertically inside the work area |
| `Geometry.EntireHeightIff` | extension.js:150-157 | full height holds iff y and height match the work area and the rectangle lies horizontally inside it |
| `Geometry.NarrowerIsNotEntireWidth` | extension.js:141-148 | a rectangle at the work area's x but narrower than the work area is not full width |
| `Geometry.ShorterIsNotEntireHeight` | extension.js:150-157 | a rectangle at the work area's y but shorter than the work area is not full height |
| `Geometry.EntireBothIffWorkArea` | extension.js:141-157 | a rectangle spans both axes in full iff it equals the work area |
| `Geometry.OffsetWithinWorkArea` | extension.js:132-139 | a work-area-relative rectangle lands inside the work area iff it lies in [0, width] x [0, height] in relative coordinates |
| `Geometry.OffsetEntireWidth` | extension.js:255-258 | a work-area-relative rectangle spans the full width iff its relative x is 0, its width is the work area's, and it fits vertically |
| `Geometry.OffsetEntireHeight` | extension.js:255-258 | a work-area-relative rectangle spans the full height iff its relative y is 0, its height is the work area's, and it fits horizontally |
| `Geometry.Centered` | extension.js:266-267 | the centred position leaves a left margin that is at most the right margin and at most one pixel short of it; the same holds for top and bottom, also for a frame larger than the work area |
| `Geometry.CenteredUnique` | extension.js:266-267 | the margin condition determines the floor-rounded centred position uniquely |
| `Geometry.CenteredExample` | extension.js:266-267 | an 800x600 frame in a 1920x1080 work area at the origin is placed at (560, 240) |
| `Geometry.CenteredOversizedExample` | extension.js:266-267 | a frame one pixel wider than the work area gets x = -1, because the negative half-difference is floored |
| `MetaWindow.ApplyCall` | extension.js:170-207 | geometry calls leave the maximize flags and the saved frame alone; maximizing sets the named flags and leaves the frame alone; unmaximizing clears the named flags, keeps the saved frame, and changes the frame only on an axis that was maximized; no call makes the window smaller than its minimum size |
| `MetaWindow.MoveResizeFrameReaches` | extension.js:203-207 | a move+resize reaches the requested rectangle iff the request is at least the window's minimum size; otherwise the window keeps its position and takes the requested size clamped up to the minimum |
| `MetaWindow.MaximizeThenUnmaximize` | extension.js:191-201 | maximizing axes that are not maximized and then unmaximizing them gives back the frame and the flags |
| `MetaWindow.UnmaximizeBothRestores` | extension.js:170-172 | `unmaximize(BOTH)` clears both flags and gives back the saved x and width if the window was maximized horizontally, the saved y and height if vertically; a window maximized on neither axis is unchanged |
| `MetaWindow.Window.GetFrameRect` | extension.js:210 | returns the window's current frame |
| `MetaWindow.Window.GetMaximized` | extension.js:170 | reports true iff the window is maximized on some axis |
| `MetaWindow.Window.MoveFrame` | extension.js:174 | the frame moves to (x, y), and the call is appended to the log |
| `MetaWindow.Window.MoveResizeFrame` | extension.js:189 | the window takes the requested rectangle, clamped as `ApplyCall` says, and the call is appended to the log |
| `MetaWindow.Window.Maximize` | extension.js:192 | the named axes become maximized, each axis not maximized before saves its span, and the call is appended to the log |
| `MetaWindow.Window.Unmaximize` | extension.js:171 | the named axes become unmaximized, each of them that was maximized gets its saved span back, and the call is appended to the log |
| `Placement.RetryBound` | extension.js:226-228 | the retry loop makes at most 6 - k corrective calls from attempt k, so at most 6 in all |
| `Placement.RetryAlternates` | extension.js:220-226 | the i-th corrective call is the one for attempt k + i: `move_frame` to the requested position when k + i is even, `move_resize_frame` with the requested rectangle when it is odd |
| `Placement.RetryOutcome` | extension.js:210-231 | every corrective call follows a check that found the frame different from the request; the loop ends converged (frame equals request) or exhausted (all attempts used) |
| `Placement.RetryKeepsFlags` | extension.js:219-231 | the retry loop leaves the maximize flags unchanged |
| `Placement.UnmaximizingResult` | extension.js:170-172 | after the conditional `unmaximize(BOTH)` the window is maximized on neither axis and its frame is the restored one; a window that was not maximized is untouched |
| `Placement.MoveResult` | extension.js:166-175 | `Move` ends unmaximized with the frame at (x, y) and the restored size; a window that was not maximized keeps its size |
| `Placement.MoveUnmaximizesFirst` | extension.js:170-174 | `Move` makes one geometry call, its last; the window is unmaximized on both axes when that call is issued; an unmaximized window gets only the move |
| `Placement.MoveResizeUnmaximizesFirst` | extension.js:182-189 | the first geometry call of `MoveResize` is the move+resize; a maximized window gets `unmaximize(BOTH)` first, so it is unmaximized when the move+resize is issued |
| `Placement.AxisCallsResult` | extension.js:191-201 | the axis calls set the horizontal flag to the full-width test and the vertical flag to the full-height test, and leave the frame of a window maximized on neither axis alone |
| `Placement.PreludeResult` | extension.js:185-201 | before the retry loop, the frame is the move+resize applied to the restored frame, and the flags equal the full-width and full-height tests |
| `Placement.MoveResizeSetsFlags` | extension.js:191-201 | after `MoveResize`, including its retry loop, the horizontal flag equals the full-width test and the vertical flag equals the full-height test |
| `Placement.RetryUnderMinimum` | extension.js:203-231 | from a frame already at the clamped size, the loop ends at the requested position with the clamped size, and uses every attempt when the request is below the minimum |
| `Placement.MoveResizeOutcome` | extension.js:203-231 | `MoveResize` always ends at the requested position with the size clamped up to the minimum; it makes no corrective call iff the request fits, and otherwise makes all 6 |
| `Placement.MoveResizeIdempotent` | extension.js:208-218 | repeating a `MoveResize` that converged, or resizing to the rectangle the window already has, makes no corrective call |
| `Placement.UnreachableAlternatesSixTimes` | extension.js:208-231 | a request below the minimum size causes exactly 6 corrective calls: move, move+resize, move, move+resize, move, move+resize |
| `Placement.BreakMaximize` | extension.js:185-187 | the window log gains `unmaximize(BOTH)` exactly when the window was maximized on some axis |
| `Placement.SyncMaximize` | extension.js:191-201 | the log gains the horizontal, then the vertical, maximize or unmaximize call chosen by the classification |
| `Placement.Move` | extension.js:166-175 | with a focused window, the log gains exactly `MoveCalls` and the state is their replay; without one, nothing changes |
| `Placement.MoveResize` | extension.js:177-232 | with a focused window, the log gains exactly `MoveResizeCalls` (prelude plus retries) and the state is their replay; without one, nothing changes |
| `Placement.RetryUntilPlaced` | extension.js:208-231 | the loop's calls are exactly `RetryCalls` from attempt 0, and the final state is their replay |
| `Commands.Resize` | extension.js:234-238 | calls `MoveResize` with the frame's current x and y and the new size; a focused window is required |
| `Commands.MoveInMonitor` | extension.js:240-243 | calls `Move` with (monitor.x + x, monitor.y + y) |
| `Commands.MoveResizeInMonitor` | extension.js:245-248 | calls `MoveResize` with the monitor-relative rectangle translated by the monitor origin, size unchanged |
| `Commands.MoveInWorkArea` | extension.js:250-253 | calls `Move` with (workArea.x + x, workArea.y + y) |
| `Commands.MoveResizeInWorkArea` | extension.js:255-258 | calls `MoveResize` with the work-area-relative rectangle translated by the work-area origin, size unchanged |
| `Commands.CenterInWorkArea` | extension.js:260-270 | without a focused window nothing changes; otherwise calls `Move` to the floor-centred position of the frame as read before unmaximizing |
| `Commands.CenterInWorkAreaRestored` | extension.js:260-270 | as `CenterInWorkArea`, but the centre is computed from the frame the window has once unmaximized; the calls are those of `Move` to that position |
| `Commands.ResizeKeepsPosition` | extension.js:234-238 | after `Resize` the frame is at its old (x, y), with the requested size clamped up to the minimum |
| `Commands.MoveRelativeResult` | extension.js:240-253 | the relative move commands put the frame at (x, y) relative to the origin and leave it unmaximized with the restored size; a window that was not maximized keeps its size |
| `Commands.MoveResizeInWorkAreaFlags` | extension.js:255-258 | after `MoveResizeInWorkArea` the horizontal flag is set iff relative x = 0, width = work-area width and it fits vertically; the vertical flag symmetrically |
| `Commands.FillWorkAreaMaximizesBoth` | extension.js:255-258 | `MoveResizeInWorkArea(0, 0, wa.width, wa.height)` maximizes both axes for any work area |
| `Commands.FullWorkAreaMaximizesBoth` | extension.js:255-258 | `MoveResizeInWorkArea(0, 0, 1920, 1080)` on a 1920x1080 work area at the origin sets both maximize flags |
| `Commands.CenterInWorkAreaResult` | extension.js:260-270 | after `CenterInWorkArea` the window is unmaximized at the centre computed for its old frame, with the restored size; for a window that was not maximized the size is unchanged and opposite margins differ by at most one pixel |
| `Commands.CenterMaximizedMissesCentre` | extension.js:260-270 | a window maximized over the work area ends at the work area's top-left corner with its saved size, so a saved frame at least two pixels narrower than the work area gets no left margin and a larger right margin |
| `Commands.CenterRestoredIsCentred` | extension.js:260-270 | centring the restored frame leaves every window, maximized or not, unmaximized with its restored size and with opposite margins that differ by at most one pixel |

## Left out

- D-Bus interface, `enable` and `disable` (`extension.js:27-83`): transport and lifecycle plumbing.
- Argument types: the D-Bus interface declares every argument as unsigned 32-bit (`u`), which the model does not enforce. The arguments are unbounded integers, because JavaScript adds and floors them as plain numbers.
- `Get` and `_notifySizeChange` (`extension.js:104-130, 159-164`): these divide by a floating-point scale factor, format strings and post a desktop notification.
- `_getWindow`, `_getMonitorIndex`, `_getMonitorGeometry` and `_getWorkArea` (`extension.js:85-101`) query the compositor. They are replaced by the `w`, `monitor` and `workArea` parameters.
- The real behaviour of Mutter's `move_frame`, `move_resize_frame`, `maximize` and `unmaximize` is foreign code. It is replaced by the minimum-size window in `MetaWindow`. Unmaximizing restores the saved span synchronously, on the axes that were maximized. Backend glitches other than minimum-size clamping are not modelled. The `user_op` argument (`true`) of the mutators is not modelled.
- `MetaWindow.ApplyCall`: maximizing saves the frame's span and sets the flags but does not stretch the frame over the work area, because the window has no work area of its own; the extension maximizes only an axis its request spans in full, so the two agree whenever the move+resize was honoured.
- The 20 ms `GLib.timeout_add` scheduling: the callback's runs are the iterations of a synchronous loop. Events between runs are not modelled, such as another command, a monitor change, or the window closing.
- The maximize flags are one pair of booleans. `get_maximized()` returns a flag set, and its truth value is "maximized on some axis".

## Findings

| source | as written | input that shows it | evidently intended | confidence | as-written member | corrected member |
|---|---|---|---|---|---|---|
| extension.js:260-270 | `CenterInWorkArea` reads the frame and computes the centre before `Move` unmaximizes the window, so the centre is that of the maximized frame | a window maximized over a 1920x1080 work area at the origin whose saved frame is 800x600: the centre computed is (0, 0) and the restored window ends at (0, 0), with margins 0 and 1120 | unmaximize first and centre the frame the window then has, which puts the 800x600 window at (560, 240) | medium, not executed; depends on Mutter restoring the saved frame when unmaximizing | `Commands.CenterMaximizedMissesCentre` | `Commands.CenterRestoredIsCentred` |
