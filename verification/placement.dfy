/**
 * The window placement engine of the Sizer extension: `Move` and
 * `MoveResize`. Both clear any maximization before touching the geometry;
 * `MoveResize` then sets each maximize axis from the work-area
 * classification and runs the bounded retry loop that alternates between a
 * move and a move+resize until the observed frame equals the request.
 *
 * Each method is specified by the sequence of window calls it makes, given
 * by a function of the window's state before the command; the lemmas below
 * state what those call sequences do.
 */
module Placement {
  import opened Geometry
  import opened MetaWindow

  /** The last attempt index that still issues a corrective call. */
  const LastAttempt: nat := 5

  /** The calls that precede the geometry call: `unmaximize(BOTH)` on a maximized window. */
  function Unmaximizing(s: WinState): seq<Call>
  {
    if s.IsMaximized() then [Unmaximize(Both)] else []
  }

  /** Calls made by `Move(x, y)` on a window in state `s`. */
  function MoveCalls(s: WinState, x: int, y: int): seq<Call>
  {
    Unmaximizing(s) + [MoveFrame(x, y)]
  }

  /** The two calls that set each maximize axis from the work-area classification. */
  function AxisCalls(area: Rect, workArea: Rect): seq<Call>
  {
    [ if IsEntireWorkAreaWidth(area, workArea) then Maximize(Horizontal) else Unmaximize(Horizontal),
      if IsEntireWorkAreaHeight(area, workArea) then Maximize(Vertical) else Unmaximize(Vertical) ]
  }

  /** Calls made by `MoveResize` before its retry loop starts. */
  function Prelude(s: WinState, area: Rect, workArea: Rect): seq<Call>
  {
    Unmaximizing(s) + [MoveResizeFrame(area)] + AxisCalls(area, workArea)
  }

  /** The corrective call of retry attempt `attempt`: move on even, move+resize on odd. */
  function Corrective(attempt: nat, area: Rect): (c: Call)
    ensures c.IsGeometry()
    ensures attempt % 2 == 0 <==> c == MoveFrame(area.x, area.y)
    ensures attempt % 2 == 1 <==> c == MoveResizeFrame(area)
  {
    if attempt % 2 == 0 then MoveFrame(area.x, area.y) else MoveResizeFrame(area)
  }

  /**
   * The calls made by the retry loop from attempt `attempts` on, when the
   * window is in state `s`: none once the frame equals `area`; otherwise the
   * corrective call, then (unless this was the last attempt) the rest of the
   * loop on the state that call leaves.
   */
  function RetryCalls(s: WinState, area: Rect, attempts: nat, h: Hints): seq<Call>
    requires attempts <= LastAttempt
    decreases LastAttempt - attempts
  {
    if s.frame == area then []
    else
      var c := Corrective(attempts, area);
      [c] + (if attempts >= LastAttempt then []
             else RetryCalls(ApplyCall(s, c, h), area, attempts + 1, h))
  }

  /** The corrective calls `MoveResize` issues after its prelude. */
  function Retries(s: WinState, area: Rect, workArea: Rect, h: Hints): seq<Call>
  {
    RetryCalls(Replay(s, Prelude(s, area, workArea), h), area, 0, h)
  }

  /** All calls made by `MoveResize(area)` on a window in state `s`. */
  function MoveResizeCalls(s: WinState, area: Rect, workArea: Rect, h: Hints): seq<Call>
  {
    Prelude(s, area, workArea) + Retries(s, area, workArea, h)
  }

  // ---------------------------------------------------------------------
  // The retry loop

  /** The loop makes at most `6 - attempts` corrective calls. */
  lemma {:induction false} RetryBound(s: WinState, area: Rect, attempts: nat, h: Hints)
    requires attempts <= LastAttempt
    ensures |RetryCalls(s, area, attempts, h)| <= LastAttempt + 1 - attempts
    decreases LastAttempt - attempts
  {
    if s.frame != area && attempts < LastAttempt {
      RetryBound(ApplyCall(s, Corrective(attempts, area), h), area, attempts + 1, h);
    }
  }

  /**
   * The i-th corrective call is the one of attempt `attempts + i`: a move to
   * the requested position on an even attempt, a move+resize to the
   * requested rectangle on an odd one.
   */
  lemma {:induction false} RetryAlternates(s: WinState, area: Rect, attempts: nat, h: Hints)
    requires attempts <= LastAttempt
    ensures var cs := RetryCalls(s, area, attempts, h);
            forall i :: 0 <= i < |cs| ==> cs[i] == Corrective(attempts + i, area)
    ensures var cs := RetryCalls(s, area, attempts, h);
            forall i :: 0 <= i < |cs| ==>
              ((attempts + i) % 2 == 0 <==> cs[i] == MoveFrame(area.x, area.y)) &&
              ((attempts + i) % 2 == 1 <==> cs[i] == MoveResizeFrame(area))
    decreases LastAttempt - attempts
  {
    var cs := RetryCalls(s, area, attempts, h);
    if s.frame != area && attempts < LastAttempt {
      var c := Corrective(attempts, area);
      var rest := RetryCalls(ApplyCall(s, c, h), area, attempts + 1, h);
      RetryAlternates(ApplyCall(s, c, h), area, attempts + 1, h);
      assert cs == [c] + rest;
      forall i | 0 <= i < |cs| ensures cs[i] == Corrective(attempts + i, area) {
        if i > 0 { assert cs[i] == rest[i - 1]; }
      }
    }
  }

  /**
   * Every corrective call follows a check that found the frame different
   * from the request, and the loop ends either converged (the frame equals
   * the request) or exhausted (all `6 - attempts` calls made).
   */
  lemma {:induction false} RetryOutcome(s: WinState, area: Rect, attempts: nat, h: Hints)
    requires attempts <= LastAttempt
    ensures var cs := RetryCalls(s, area, attempts, h);
            (forall i :: 0 <= i < |cs| ==> Replay(s, cs[..i], h).frame != area) &&
            (Replay(s, cs, h).frame == area || |cs| == LastAttempt + 1 - attempts)
    decreases LastAttempt - attempts
  {
    var cs := RetryCalls(s, area, attempts, h);
    if s.frame != area {
      var c := Corrective(attempts, area);
      var t := ApplyCall(s, c, h);
      var rest := if attempts >= LastAttempt then [] else RetryCalls(t, area, attempts + 1, h);
      assert cs == [c] + rest;
      assert Replay(s, cs, h) == Replay(t, rest, h);
      if attempts < LastAttempt {
        RetryOutcome(t, area, attempts + 1, h);
      }
      forall i | 0 <= i < |cs| ensures Replay(s, cs[..i], h).frame != area {
        if i > 0 {
          assert cs[..i][0] == c && cs[..i][1..] == rest[..i - 1];
        } else {
          assert cs[..i] == [];
        }
      }
    }
  }

  /** One attempt of the loop on a frame that does not match: its corrective call comes first. */
  lemma RetryStep(s: WinState, area: Rect, attempts: nat, h: Hints)
    requires attempts <= LastAttempt && s.frame != area
    ensures var cs := RetryCalls(s, area, attempts, h);
            cs != [] && cs[0] == Corrective(attempts, area) &&
            cs[1..] == (if attempts >= LastAttempt then []
                        else RetryCalls(ApplyCall(s, Corrective(attempts, area), h), area, attempts + 1, h))
  {
  }

  /** Moving the head of `b` to the end of `a` keeps the concatenation. */
  lemma MoveHead<T>(a: seq<T>, b: seq<T>)
    requires b != []
    ensures (a + [b[0]]) + b[1..] == a + b
  {
    assert b == [b[0]] + b[1..];
  }

  /** Appending four pieces one after another appends their concatenation. */
  lemma AppendFour<T>(a: seq<T>, b: seq<T>, c: seq<T>, d: seq<T>, e: seq<T>)
    ensures a + b + c + d + e == a + (b + c + d + e)
  {
  }

  /** Corrective calls leave the maximize flags as they were. */
  lemma {:induction false} RetryKeepsFlags(s: WinState, area: Rect, attempts: nat, h: Hints)
    requires attempts <= LastAttempt
    ensures var t := Replay(s, RetryCalls(s, area, attempts, h), h);
            t.maxH == s.maxH && t.maxV == s.maxV
    decreases LastAttempt - attempts
  {
    if s.frame != area {
      var c := Corrective(attempts, area);
      var t := ApplyCall(s, c, h);
      var rest := if attempts >= LastAttempt then [] else RetryCalls(t, area, attempts + 1, h);
      assert RetryCalls(s, area, attempts, h) == [c] + rest;
      assert Replay(s, [c] + rest, h) == Replay(t, rest, h);
      if attempts < LastAttempt {
        RetryKeepsFlags(t, area, attempts + 1, h);
      }
    }
  }

  // ---------------------------------------------------------------------
  // Move and MoveResize as call sequences

  /**
   * After `Unmaximizing`, the window is maximized on neither axis, each axis
   * that was maximized has its saved span back, and a window that was not
   * maximized is untouched.
   */
  lemma UnmaximizingResult(s: WinState, h: Hints)
    ensures var t := Replay(s, Unmaximizing(s), h);
            !t.maxH && !t.maxV && t.saved == s.saved &&
            t.frame == RestoredFrame(s, Both) &&
            (!s.IsMaximized() ==> t == s)
  {
    if s.IsMaximized() {
      ReplayOne(s, Unmaximize(Both), h);
      UnmaximizeBothRestores(s, h);
    }
  }

  /**
   * `Move` leaves the window at (x, y), unmaximized, with the size it has
   * once unmaximized: its saved size on each axis that was maximized, its
   * current size otherwise.
   */
  lemma MoveResult(s: WinState, x: int, y: int, h: Hints)
    ensures var r := RestoredFrame(s, Both);
            Replay(s, MoveCalls(s, x, y), h) == WinState(Rect(x, y, r.width, r.height), false, false, s.saved)
    ensures !s.IsMaximized() ==>
            Replay(s, MoveCalls(s, x, y), h).frame == Rect(x, y, s.frame.width, s.frame.height)
  {
    var u := Unmaximizing(s);
    ReplayConcat(s, u, [MoveFrame(x, y)], h);
    ReplayOne(Replay(s, u, h), MoveFrame(x, y), h);
    UnmaximizingResult(s, h);
  }

  /**
   * `Move` makes exactly one geometry call, its last one, and a maximized
   * window is unmaximized on both axes before it; a window that is not
   * maximized receives only the move.
   */
  lemma MoveUnmaximizesFirst(s: WinState, x: int, y: int, h: Hints)
    ensures var cs := MoveCalls(s, x, y);
            var i := |cs| - 1;
            i >= 0 && cs[i] == MoveFrame(x, y) &&
            (forall j :: 0 <= j < i ==> !cs[j].IsGeometry()) &&
            !Replay(s, cs[..i], h).IsMaximized() &&
            (!s.IsMaximized() ==> cs == [MoveFrame(x, y)])
  {
    var cs := MoveCalls(s, x, y);
    assert cs[..|cs| - 1] == Unmaximizing(s);
    UnmaximizingResult(s, h);
  }

  /**
   * In `MoveResize` the first call that changes geometry is the
   * move+resize, and the window is unmaximized on both axes when it is
   * issued: a maximized window gets `unmaximize(BOTH)` first.
   */
  lemma MoveResizeUnmaximizesFirst(s: WinState, area: Rect, workArea: Rect, h: Hints)
    ensures var cs := MoveResizeCalls(s, area, workArea, h);
            var i := if s.IsMaximized() then 1 else 0;
            i < |cs| && cs[i] == MoveResizeFrame(area) &&
            (forall j :: 0 <= j < i ==> !cs[j].IsGeometry()) &&
            !Replay(s, cs[..i], h).IsMaximized() &&
            (s.IsMaximized() ==> cs[0] == Unmaximize(Both))
  {
    var cs := MoveResizeCalls(s, area, workArea, h);
    var i := if s.IsMaximized() then 1 else 0;
    assert cs[..i] == Unmaximizing(s);
    UnmaximizingResult(s, h);
  }

  /**
   * The axis calls set the flags from the classification; on a window
   * maximized on neither axis (as after the unmaximize that precedes them)
   * they leave the frame alone.
   */
  lemma AxisCallsResult(s: WinState, area: Rect, workArea: Rect, h: Hints)
    ensures var t := Replay(s, AxisCalls(area, workArea), h);
            (!s.IsMaximized() ==> t.frame == s.frame) &&
            t.maxH == IsEntireWorkAreaWidth(area, workArea) &&
            t.maxV == IsEntireWorkAreaHeight(area, workArea)
  {
    var ax := AxisCalls(area, workArea);
    ReplayFirst(s, ax, h);
    ReplayOne(ApplyCall(s, ax[0], h), ax[1], h);
    assert ax[1..] == [ax[1]];
  }

  /**
   * The state after the prelude: the move+resize applied to the unmaximized
   * window (whose frame is the restored one), flags from the classification.
   */
  lemma PreludeResult(s: WinState, area: Rect, workArea: Rect, h: Hints)
    ensures var t := Replay(s, Prelude(s, area, workArea), h);
            t.frame == ApplyCall(s.(frame := RestoredFrame(s, Both)), MoveResizeFrame(area), h).frame &&
            t.maxH == IsEntireWorkAreaWidth(area, workArea) &&
            t.maxV == IsEntireWorkAreaHeight(area, workArea)
  {
    var u := Unmaximizing(s);
    var ax := AxisCalls(area, workArea);
    ReplayConcat(s, u + [MoveResizeFrame(area)], ax, h);
    ReplayConcat(s, u, [MoveResizeFrame(area)], h);
    var s1 := Replay(s, u, h);
    UnmaximizingResult(s, h);
    ReplayOne(s1, MoveResizeFrame(area), h);
    AxisCallsResult(ApplyCall(s1, MoveResizeFrame(area), h), area, workArea, h);
  }

  /** `MoveResize`'s calls and their effect, taken one stage at a time. */
  lemma MoveResizeSteps(s: WinState, area: Rect, workArea: Rect, h: Hints)
    ensures var s1 := Replay(s, Unmaximizing(s), h);
            var s2 := Replay(s1, [MoveResizeFrame(area)], h);
            var s3 := Replay(s2, AxisCalls(area, workArea), h);
            var cs := MoveResizeCalls(s, area, workArea, h);
            Replay(s, Prelude(s, area, workArea), h) == s3 &&
            cs == Unmaximizing(s) + [MoveResizeFrame(area)] + AxisCalls(area, workArea) + RetryCalls(s3, area, 0, h) &&
            Replay(s, cs, h) == Replay(s3, RetryCalls(s3, area, 0, h), h)
  {
    var u := Unmaximizing(s);
    var pre := Prelude(s, area, workArea);
    ReplayConcat(s, u + [MoveResizeFrame(area)], AxisCalls(area, workArea), h);
    ReplayConcat(s, u, [MoveResizeFrame(area)], h);
    ReplayConcat(s, pre, Retries(s, area, workArea, h), h);
  }

  /**
   * After `MoveResize` the horizontal maximize flag says whether the request
   * spans the full work-area width, and the vertical flag whether it spans
   * the full height; the retry loop does not disturb them.
   */
  lemma MoveResizeSetsFlags(s: WinState, area: Rect, workArea: Rect, h: Hints)
    ensures var t := Replay(s, MoveResizeCalls(s, area, workArea, h), h);
            t.maxH == IsEntireWorkAreaWidth(area, workArea) &&
            t.maxV == IsEntireWorkAreaHeight(area, workArea)
  {
    var pre := Prelude(s, area, workArea);
    ReplayConcat(s, pre, Retries(s, area, workArea, h), h);
    PreludeResult(s, area, workArea, h);
    RetryKeepsFlags(Replay(s, pre, h), area, 0, h);
  }

  // ---------------------------------------------------------------------
  // Convergence against the minimum-size behaviour of the window

  /** The request fits the window's minimum size. */
  predicate Fits(area: Rect, h: Hints)
  {
    area.width >= h.minWidth && area.height >= h.minHeight
  }

  /** The frame a request can actually reach: the requested position, the size clamped up. */
  function Reachable(area: Rect, h: Hints): Rect
  {
    Rect(area.x, area.y, Max(area.width, h.minWidth), Max(area.height, h.minHeight))
  }

  /**
   * From a frame of the clamped size, the rest of the loop ends at the
   * requested position with the clamped size; if the request does not fit,
   * every remaining attempt is used. An odd attempt cannot fix the position,
   * so the frame must already be there unless the next attempt is a move.
   */
  lemma {:induction false} RetryUnderMinimum(s: WinState, area: Rect, attempts: nat, h: Hints)
    requires attempts <= LastAttempt
    requires s.frame.width == Max(area.width, h.minWidth) && s.frame.height == Max(area.height, h.minHeight)
    requires attempts % 2 == 0 || (s.frame.x == area.x && s.frame.y == area.y)
    ensures var cs := RetryCalls(s, area, attempts, h);
            Replay(s, cs, h).frame == Reachable(area, h) &&
            (!Fits(area, h) ==> |cs| == LastAttempt + 1 - attempts)
    decreases LastAttempt - attempts
  {
    var cs := RetryCalls(s, area, attempts, h);
    if s.frame != area {
      var c := Corrective(attempts, area);
      var t := ApplyCall(s, c, h);
      var rest := if attempts >= LastAttempt then [] else RetryCalls(t, area, attempts + 1, h);
      assert cs == [c] + rest;
      assert Replay(s, cs, h) == Replay(t, rest, h);
      if attempts < LastAttempt {
        RetryUnderMinimum(t, area, attempts + 1, h);
      }
    }
  }

  /**
   * Against a window with a minimum size, `MoveResize` always ends at the
   * requested position with the size clamped up to the minimum. It converges
   * with no corrective call exactly when the request fits; otherwise all six
   * corrective calls are made.
   */
  lemma MoveResizeOutcome(s: WinState, area: Rect, workArea: Rect, h: Hints)
    ensures var retries := Retries(s, area, workArea, h);
            Replay(s, MoveResizeCalls(s, area, workArea, h), h).frame == Reachable(area, h) &&
            (Fits(area, h) <==> retries == []) &&
            (!Fits(area, h) ==> |retries| == LastAttempt + 1)
  {
    var pre := Prelude(s, area, workArea);
    var s1 := Replay(s, pre, h);
    ReplayConcat(s, pre, Retries(s, area, workArea, h), h);
    PreludeResult(s, area, workArea, h);
    RetryUnderMinimum(s1, area, 0, h);
  }

  /**
   * Repeating a `MoveResize` that converged makes no corrective call, and
   * neither does a `MoveResize` to the rectangle the window already has.
   */
  lemma MoveResizeIdempotent(s: WinState, area: Rect, workArea: Rect, h: Hints)
    ensures var t := Replay(s, MoveResizeCalls(s, area, workArea, h), h);
            t.frame == area ==> Retries(t, area, workArea, h) == []
    ensures Respects(s, h) && s.frame == area ==> Retries(s, area, workArea, h) == []
  {
    MoveResizeOutcome(s, area, workArea, h);
    var t := Replay(s, MoveResizeCalls(s, area, workArea, h), h);
    MoveResizeOutcome(t, area, workArea, h);
  }

  /** A request below the minimum size uses up all six attempts, move first and then alternating. */
  lemma UnreachableAlternatesSixTimes(s: WinState, area: Rect, workArea: Rect, h: Hints)
    requires !Fits(area, h)
    ensures var retries := Retries(s, area, workArea, h);
            |retries| == 6 &&
            retries == [MoveFrame(area.x, area.y), MoveResizeFrame(area),
                        MoveFrame(area.x, area.y), MoveResizeFrame(area),
                        MoveFrame(area.x, area.y), MoveResizeFrame(area)]
  {
    MoveResizeOutcome(s, area, workArea, h);
    var s1 := Replay(s, Prelude(s, area, workArea), h);
    RetryAlternates(s1, area, 0, h);
  }

  // ---------------------------------------------------------------------
  // The engine

  /**
   * Breaks any maximization (and with it the compositor's own tiling, which
   * cannot be detected): `unmaximize(BOTH)` when the window is maximized on
   * some axis.
   */
  method BreakMaximize(w: Window)
    modifies w
    ensures w.calls == old(w.calls) + Unmaximizing(old(w.State()))
    ensures w.State() == Replay(old(w.State()), Unmaximizing(old(w.State())), w.hints)
  {
    var maximized := w.GetMaximized();
    if maximized {
      w.Unmaximize(Both);
      ReplayOne(old(w.State()), Call.Unmaximize(Both), w.hints);
    }
  }

  /** Maximizes each axis the request spans in full and unmaximizes the others. */
  method SyncMaximize(w: Window, area: Rect, workArea: Rect)
    modifies w
    ensures w.calls == old(w.calls) + AxisCalls(area, workArea)
    ensures w.State() == Replay(old(w.State()), AxisCalls(area, workArea), w.hints)
  {
    if IsEntireWorkAreaWidth(area, workArea) {
      w.Maximize(Horizontal);
    } else {
      w.Unmaximize(Horizontal);
    }
    if IsEntireWorkAreaHeight(area, workArea) {
      w.Maximize(Vertical);
    } else {
      w.Unmaximize(Vertical);
    }
    ghost var ax := AxisCalls(area, workArea);
    ReplayFirst(old(w.State()), ax, w.hints);
    ReplayOne(ApplyCall(old(w.State()), ax[0], w.hints), ax[1], w.hints);
    assert ax[1..] == [ax[1]];
  }

  /**
   * `Move(x, y)`: no effect without a focused window; otherwise unmaximize
   * if maximized, then move the frame.
   */
  method Move(w: Window?, x: int, y: int)
    modifies w
    ensures w != null ==> w.calls == old(w.calls) + MoveCalls(old(w.State()), x, y)
    ensures w != null ==> w.State() == Replay(old(w.State()), MoveCalls(old(w.State()), x, y), w.hints)
  {
    if w == null {
      return;
    }
    ghost var s0 := w.State();
    BreakMaximize(w);
    w.MoveFrame(x, y);
    MoveResult(s0, x, y, w.hints);
    UnmaximizingResult(s0, w.hints);
  }

  /**
   * `MoveResize(x, y, width, height)` against the work area `workArea`: no
   * effect without a focused window; otherwise unmaximize if maximized,
   * move+resize, set each maximize axis from the work-area classification,
   * then check the frame up to six more times, issuing a corrective call
   * after each check that finds it different from the request.
   */
  method MoveResize(w: Window?, workArea: Rect, x: int, y: int, width: int, height: int)
    modifies w
    ensures w != null ==> w.calls == old(w.calls) + MoveResizeCalls(old(w.State()), Rect(x, y, width, height), workArea, w.hints)
    ensures w != null ==> w.State() == Replay(old(w.State()), MoveResizeCalls(old(w.State()), Rect(x, y, width, height), workArea, w.hints), w.hints)
  {
    var area := Rect(x, y, width, height);
    if w == null {
      return;
    }
    ghost var s0, log0 := w.State(), w.calls;
    BreakMaximize(w);
    ghost var s1 := w.State();
    w.MoveResizeFrame(x, y, width, height);
    SyncMaximize(w, area, workArea);
    ghost var s3 := w.State();
    RetryUntilPlaced(w, area);
    MoveResizeSteps(s0, area, workArea, w.hints);
    ReplayOne(s1, MoveResizeFrame(area), w.hints);
    AppendFour(log0, Unmaximizing(s0), [MoveResizeFrame(area)], AxisCalls(area, workArea), RetryCalls(s3, area, 0, w.hints));
  }

  /**
   * The retry loop of `MoveResize`: each iteration is one run of the
   * extension's 20 ms timer callback. It reads the frame; if it equals
   * `area` the loop stops, otherwise it issues the corrective call of the
   * current attempt, and it stops after the call of attempt 5.
   */
  method RetryUntilPlaced(w: Window, area: Rect)
    modifies w
    ensures w.calls == old(w.calls) + RetryCalls(old(w.State()), area, 0, w.hints)
    ensures w.State() == Replay(old(w.State()), RetryCalls(old(w.State()), area, 0, w.hints), w.hints)
  {
    var x, y, width, height := area.x, area.y, area.width, area.height;
    ghost var s1, log1 := w.State(), w.calls;
    ghost var retries := RetryCalls(s1, area, 0, w.hints);
    ghost var todo := retries;
    var attempts := 0;
    var done := false;
    while !done
      invariant 0 <= attempts <= LastAttempt + 1
      invariant !done ==> attempts <= LastAttempt && todo == RetryCalls(w.State(), area, attempts, w.hints)
      invariant done ==> todo == []
      invariant log1 + retries == w.calls + todo
      invariant Replay(s1, retries, w.hints) == Replay(w.State(), todo, w.hints)
      decreases if done then 0 else 1, LastAttempt + 1 - attempts
    {
      ghost var cur, before := w.State(), w.calls;
      var frame := w.GetFrameRect();
      if frame.x == x && frame.y == y && frame.width == width && frame.height == height {
        done := true;
      } else {
        RetryStep(cur, area, attempts, w.hints);
        ReplayFirst(cur, todo, w.hints);
        if attempts % 2 == 0 {
          w.MoveFrame(x, y);
        } else {
          w.MoveResizeFrame(x, y, width, height);
        }
        assert w.calls == before + [todo[0]];
        MoveHead(before, todo);
        todo := todo[1..];
        var previous := attempts;
        attempts := attempts + 1;
        if previous >= LastAttempt {
          done := true;
        }
      }
    }
  }
}
