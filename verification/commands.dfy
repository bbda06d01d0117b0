/**
 * The command surface of the Sizer extension: the commands that resolve a
 * monitor- or work-area-relative position, keep the current position, or
 * centre the window, and then call `Move` or `MoveResize`. The focused
 * window, the monitor geometry and the work area are snapshots taken when
 * the command starts and are passed in as parameters.
 */
module Commands {
  import opened Geometry
  import opened MetaWindow
  import opened Placement

  /**
   * `Resize(width, height)`: move+resize to the current position with the
   * new size. Unlike the other commands this one has no guard for a missing
   * focused window, so a window is required here.
   */
  method Resize(w: Window?, workArea: Rect, width: int, height: int)
    requires w != null
    modifies w
    ensures w.calls == old(w.calls) + MoveResizeCalls(old(w.State()), Rect(old(w.x), old(w.y), width, height), workArea, w.hints)
    ensures w.State() == Replay(old(w.State()), MoveResizeCalls(old(w.State()), Rect(old(w.x), old(w.y), width, height), workArea, w.hints), w.hints)
  {
    var frame := w.GetFrameRect();
    MoveResize(w, workArea, frame.x, frame.y, width, height);
  }

  /** `MoveInMonitor(x, y)`: `Move` to (x, y) relative to the monitor's origin. */
  method MoveInMonitor(w: Window?, monitor: Rect, x: int, y: int)
    modifies w
    ensures w != null ==> w.calls == old(w.calls) + MoveCalls(old(w.State()), monitor.x + x, monitor.y + y)
    ensures w != null ==> w.State() == Replay(old(w.State()), MoveCalls(old(w.State()), monitor.x + x, monitor.y + y), w.hints)
  {
    Move(w, monitor.x + x, monitor.y + y);
  }

  /** `MoveResizeInMonitor(x, y, width, height)`: `MoveResize` to a monitor-relative rectangle. */
  method MoveResizeInMonitor(w: Window?, monitor: Rect, workArea: Rect, x: int, y: int, width: int, height: int)
    modifies w
    ensures w != null ==> w.calls == old(w.calls) + MoveResizeCalls(old(w.State()), Offset(monitor, Rect(x, y, width, height)), workArea, w.hints)
    ensures w != null ==> w.State() == Replay(old(w.State()), MoveResizeCalls(old(w.State()), Offset(monitor, Rect(x, y, width, height)), workArea, w.hints), w.hints)
  {
    MoveResize(w, workArea, monitor.x + x, monitor.y + y, width, height);
  }

  /** `MoveInWorkArea(x, y)`: `Move` to (x, y) relative to the work area's origin. */
  method MoveInWorkArea(w: Window?, workArea: Rect, x: int, y: int)
    modifies w
    ensures w != null ==> w.calls == old(w.calls) + MoveCalls(old(w.State()), workArea.x + x, workArea.y + y)
    ensures w != null ==> w.State() == Replay(old(w.State()), MoveCalls(old(w.State()), workArea.x + x, workArea.y + y), w.hints)
  {
    Move(w, workArea.x + x, workArea.y + y);
  }

  /** `MoveResizeInWorkArea(x, y, width, height)`: `MoveResize` to a work-area-relative rectangle. */
  method MoveResizeInWorkArea(w: Window?, workArea: Rect, x: int, y: int, width: int, height: int)
    modifies w
    ensures w != null ==> w.calls == old(w.calls) + MoveResizeCalls(old(w.State()), Offset(workArea, Rect(x, y, width, height)), workArea, w.hints)
    ensures w != null ==> w.State() == Replay(old(w.State()), MoveResizeCalls(old(w.State()), Offset(workArea, Rect(x, y, width, height)), workArea, w.hints), w.hints)
  {
    MoveResize(w, workArea, workArea.x + x, workArea.y + y, width, height);
  }

  /**
   * `CenterInWorkArea()`: `Move` to the position that centres the current
   * frame in the work area. The centre is computed from the frame as read
   * before `Move` unmaximizes, so a maximized window is positioned for its
   * maximized size (see `CenterMaximizedMissesCentre`).
   */
  method CenterInWorkArea(w: Window?, workArea: Rect)
    modifies w
    ensures w != null ==>
              var p := Centered(workArea, old(w.width), old(w.height));
              w.calls == old(w.calls) + MoveCalls(old(w.State()), p.x, p.y) &&
              w.State() == Replay(old(w.State()), MoveCalls(old(w.State()), p.x, p.y), w.hints)
  {
    if w == null {
      return;
    }
    var frame := w.GetFrameRect();
    var p := Centered(workArea, frame.width, frame.height);
    Move(w, p.x, p.y);
  }

  /**
   * `CenterInWorkArea` as it is evidently meant to work: break any
   * maximization first and centre the frame the window has afterwards.
   * It makes the same calls as the command itself, only with the centre
   * computed from the restored size.
   */
  method CenterInWorkAreaRestored(w: Window?, workArea: Rect)
    modifies w
    ensures w != null ==>
              var r := RestoredFrame(old(w.State()), Both);
              var p := Centered(workArea, r.width, r.height);
              w.calls == old(w.calls) + MoveCalls(old(w.State()), p.x, p.y) &&
              w.State() == Replay(old(w.State()), MoveCalls(old(w.State()), p.x, p.y), w.hints)
  {
    if w == null {
      return;
    }
    ghost var s0 := w.State();
    BreakMaximize(w);
    UnmaximizingResult(s0, w.hints);
    var frame := w.GetFrameRect();
    var p := Centered(workArea, frame.width, frame.height);
    Move(w, p.x, p.y);
    ReplayConcat(s0, Unmaximizing(s0), [MoveFrame(p.x, p.y)], w.hints);
  }

  // ---------------------------------------------------------------------
  // What the commands achieve

  /**
   * `Resize` keeps the window where it is: against a window with a minimum
   * size, the frame ends at its old position, with the requested size
   * clamped up to the minimum.
   */
  lemma ResizeKeepsPosition(s: WinState, workArea: Rect, width: int, height: int, h: Hints)
    ensures var area := Rect(s.frame.x, s.frame.y, width, height);
            var t := Replay(s, MoveResizeCalls(s, area, workArea, h), h);
            t.frame == Rect(s.frame.x, s.frame.y, Max(width, h.minWidth), Max(height, h.minHeight))
  {
    MoveResizeOutcome(s, Rect(s.frame.x, s.frame.y, width, height), workArea, h);
  }

  /**
   * `MoveInWorkArea` and `MoveInMonitor` put the frame at (x, y) relative to
   * the origin they use and leave it unmaximized, with the size it has once
   * unmaximized (its current size when it was not maximized).
   */
  lemma MoveRelativeResult(s: WinState, origin: Rect, x: int, y: int, h: Hints)
    ensures var t := Replay(s, MoveCalls(s, origin.x + x, origin.y + y), h);
            var r := RestoredFrame(s, Both);
            t.frame.x - origin.x == x && t.frame.y - origin.y == y &&
            t.frame.width == r.width && t.frame.height == r.height &&
            (!s.IsMaximized() ==> t.frame.width == s.frame.width && t.frame.height == s.frame.height) &&
            !t.maxH && !t.maxV
  {
    MoveResult(s, origin.x + x, origin.y + y, h);
  }

  /**
   * After `MoveResizeInWorkArea(x, y, width, height)` the window is
   * maximized horizontally exactly when the relative rectangle starts at
   * x = 0, is as wide as the work area and fits vertically; and vertically
   * exactly when it starts at y = 0, is as tall as the work area and fits
   * horizontally.
   */
  lemma MoveResizeInWorkAreaFlags(s: WinState, workArea: Rect, x: int, y: int, width: int, height: int, h: Hints)
    ensures var rel := Rect(x, y, width, height);
            var t := Replay(s, MoveResizeCalls(s, Offset(workArea, rel), workArea, h), h);
            (t.maxH <==> x == 0 && width == workArea.width && 0 <= y && y + height <= workArea.height) &&
            (t.maxV <==> y == 0 && height == workArea.height && 0 <= x && x + width <= workArea.width)
  {
    var rel := Rect(x, y, width, height);
    MoveResizeSetsFlags(s, Offset(workArea, rel), workArea, h);
    OffsetEntireWidth(workArea, rel);
    OffsetEntireHeight(workArea, rel);
  }

  /** `MoveResizeInWorkArea(0, 0, wa.width, wa.height)` maximizes the window on both axes. */
  lemma FillWorkAreaMaximizesBoth(s: WinState, workArea: Rect, h: Hints)
    ensures var rel := Rect(0, 0, workArea.width, workArea.height);
            var t := Replay(s, MoveResizeCalls(s, Offset(workArea, rel), workArea, h), h);
            t.maxH && t.maxV
  {
    MoveResizeInWorkAreaFlags(s, workArea, 0, 0, workArea.width, workArea.height, h);
  }

  /** The 1920x1080 instance: filling a 1920x1080 work area at the origin maximizes both axes. */
  lemma FullWorkAreaMaximizesBoth(s: WinState, h: Hints)
    ensures var wa := Rect(0, 0, 1920, 1080);
            var t := Replay(s, MoveResizeCalls(s, Offset(wa, Rect(0, 0, 1920, 1080)), wa, h), h);
            t.maxH && t.maxV
  {
    FillWorkAreaMaximizesBoth(s, Rect(0, 0, 1920, 1080), h);
  }

  /**
   * `CenterInWorkArea` leaves the window unmaximized, at the position that
   * centres the frame it had before the command, with the size it has once
   * unmaximized. For a window that was not maximized that is a centred
   * window of unchanged size: left and right margins (and top and bottom
   * margins) differ by at most one pixel, the extra pixel on the right
   * (bottom).
   */
  lemma CenterInWorkAreaResult(s: WinState, workArea: Rect, h: Hints)
    ensures var p := Centered(workArea, s.frame.width, s.frame.height);
            var t := Replay(s, MoveCalls(s, p.x, p.y), h);
            var r := RestoredFrame(s, Both);
            t.frame == Rect(p.x, p.y, r.width, r.height) && !t.maxH && !t.maxV
    ensures var p := Centered(workArea, s.frame.width, s.frame.height);
            var t := Replay(s, MoveCalls(s, p.x, p.y), h);
            var left, right := t.frame.x - workArea.x, workArea.x + workArea.width - (t.frame.x + t.frame.width);
            var top, bottom := t.frame.y - workArea.y, workArea.y + workArea.height - (t.frame.y + t.frame.height);
            !s.IsMaximized() ==>
              t.frame.width == s.frame.width && t.frame.height == s.frame.height &&
              left <= right <= left + 1 && top <= bottom <= top + 1
  {
    var p := Centered(workArea, s.frame.width, s.frame.height);
    MoveResult(s, p.x, p.y, h);
  }

  /**
   * `CenterInWorkArea` on a window maximized over the whole work area
   * computes the centre for a frame as large as the work area, which is the
   * work area's top-left corner, and so leaves the restored window there: a
   * saved frame at least two pixels narrower than the work area (say 800
   * pixels in a 1920-pixel work area) ends with no left margin and a larger
   * right margin, where centring the restored frame would not.
   */
  lemma CenterMaximizedMissesCentre(s: WinState, workArea: Rect, h: Hints)
    requires s.maxH && s.maxV && s.frame == workArea
    ensures var p := Centered(workArea, s.frame.width, s.frame.height);
            var t := Replay(s, MoveCalls(s, p.x, p.y), h);
            t.frame == Rect(workArea.x, workArea.y, s.saved.width, s.saved.height)
    ensures var p := Centered(workArea, s.frame.width, s.frame.height);
            var t := Replay(s, MoveCalls(s, p.x, p.y), h);
            var left, right := t.frame.x - workArea.x, workArea.x + workArea.width - (t.frame.x + t.frame.width);
            s.saved.width + 2 <= workArea.width ==> left == 0 && left + 1 < right
  {
    var p := Centered(workArea, s.frame.width, s.frame.height);
    assert p == Point(workArea.x, workArea.y);
    MoveResult(s, p.x, p.y, h);
  }

  /**
   * `CenterInWorkAreaRestored` centres every window, maximized or not: it
   * ends unmaximized, with its restored size, and with left and right (top
   * and bottom) margins that differ by at most one pixel, the extra pixel on
   * the right (bottom).
   */
  lemma CenterRestoredIsCentred(s: WinState, workArea: Rect, h: Hints)
    ensures var r := RestoredFrame(s, Both);
            var p := Centered(workArea, r.width, r.height);
            var t := Replay(s, MoveCalls(s, p.x, p.y), h);
            var left, right := t.frame.x - workArea.x, workArea.x + workArea.width - (t.frame.x + t.frame.width);
            var top, bottom := t.frame.y - workArea.y, workArea.y + workArea.height - (t.frame.y + t.frame.height);
            t.frame.width == r.width && t.frame.height == r.height &&
            left <= right <= left + 1 && top <= bottom <= top + 1 &&
            !t.maxH && !t.maxV
  {
    var r := RestoredFrame(s, Both);
    var p := Centered(workArea, r.width, r.height);
    MoveResult(s, p.x, p.y, h);
  }
}
