/**
 * A stand-in for the compositor's window object (Meta.Window): its frame
 * rectangle, its per-axis maximize state, the frame it saved on maximizing,
 * the four mutators the extension calls, and a log of every call made on it.
 * The real compositor is not part of this model; this fake honours each
 * request except that a window never becomes smaller than its minimum size,
 * and when a combined move+resize is clamped by that minimum it only resizes
 * and leaves the position where it was. That is the behaviour the
 * extension's retry loop exists to correct. Unmaximizing an axis restores
 * the span that was saved when the axis was maximized.
 */
module MetaWindow {
  import opened Geometry

  /** The axes named by Meta.MaximizeFlags. */
  datatype Axis = Horizontal | Vertical | Both

  /** One call the extension makes on a window. */
  datatype Call =
    | MoveFrame(x: int, y: int)
    | MoveResizeFrame(rect: Rect)
    | Maximize(axis: Axis)
    | Unmaximize(axis: Axis)
  {
    /** Calls that request a new frame rectangle. */
    predicate IsGeometry() { MoveFrame? || MoveResizeFrame? }
  }

  /**
   * The observable state of a window: its frame, its maximize flags, and the
   * frame the compositor saved when it maximized the window, whose span on an
   * axis comes back when that axis is unmaximized.
   */
  datatype WinState = WinState(frame: Rect, maxH: bool, maxV: bool, saved: Rect)
  {
    /** What `get_maximized()` reports as a truth value: maximized on some axis. */
    predicate IsMaximized() { maxH || maxV }
  }

  /** The window's minimum size, which the compositor enforces. */
  datatype Hints = Hints(minWidth: nat, minHeight: nat)

  function Max(a: int, b: int): int { if a >= b then a else b }

  /** The window's frame, and the frame it would restore, are at least its minimum size. */
  predicate Respects(s: WinState, h: Hints)
  {
    s.frame.width >= h.minWidth && s.frame.height >= h.minHeight &&
    s.saved.width >= h.minWidth && s.saved.height >= h.minHeight
  }

  function SetAxis(s: WinState, a: Axis, on: bool): WinState
  {
    match a
    case Horizontal => s.(maxH := on)
    case Vertical => s.(maxV := on)
    case Both => s.(maxH := on, maxV := on)
  }

  /**
   * Maximizing on `a` records the frame's span on each axis of `a` that is not
   * maximized yet; an axis that already is keeps the span saved earlier.
   */
  function SaveSpans(s: WinState, a: Axis): WinState
  {
    var hz, vt := a != Vertical && !s.maxH, a != Horizontal && !s.maxV;
    s.(saved := Rect(if hz then s.frame.x else s.saved.x, if vt then s.frame.y else s.saved.y,
                     if hz then s.frame.width else s.saved.width, if vt then s.frame.height else s.saved.height))
  }

  /** The frame after unmaximizing on `a`: each maximized axis of `a` gets its saved span back. */
  function RestoredFrame(s: WinState, a: Axis): Rect
  {
    var hz, vt := a != Vertical && s.maxH, a != Horizontal && s.maxV;
    Rect(if hz then s.saved.x else s.frame.x, if vt then s.saved.y else s.frame.y,
         if hz then s.saved.width else s.frame.width, if vt then s.saved.height else s.frame.height)
  }

  /**
   * The effect of one call on the window. Geometry calls leave the flags and
   * the saved frame alone; maximizing leaves the frame alone; unmaximizing
   * clears the flags it names and changes the frame only on an axis that was
   * maximized; no call makes the window smaller than its minimum size.
   */
  function ApplyCall(s: WinState, c: Call, h: Hints): (t: WinState)
    ensures c.IsGeometry() ==> t.maxH == s.maxH && t.maxV == s.maxV && t.saved == s.saved
    ensures c.Maximize? ==> t.frame == s.frame &&
                            (c.axis != Vertical ==> t.maxH) && (c.axis != Horizontal ==> t.maxV)
    ensures c.Unmaximize? ==> t.saved == s.saved &&
                              (c.axis != Vertical ==> !t.maxH) && (c.axis != Horizontal ==> !t.maxV)
    ensures c.Unmaximize? && !s.maxH ==> t.frame.x == s.frame.x && t.frame.width == s.frame.width
    ensures c.Unmaximize? && !s.maxV ==> t.frame.y == s.frame.y && t.frame.height == s.frame.height
    ensures Respects(s, h) ==> Respects(t, h)
  {
    match c
    case MoveFrame(x, y) => s.(frame := s.frame.(x := x, y := y))
    case MoveResizeFrame(r) =>
      var w, ht := Max(r.width, h.minWidth), Max(r.height, h.minHeight);
      if w == r.width && ht == r.height then s.(frame := r)
      else s.(frame := s.frame.(width := w, height := ht))
    case Maximize(a) => SetAxis(SaveSpans(s, a), a, true)
    case Unmaximize(a) => SetAxis(s.(frame := RestoredFrame(s, a)), a, false)
  }

  /** The effect of a sequence of calls, in order. */
  function Replay(s: WinState, cs: seq<Call>, h: Hints): WinState
    decreases |cs|
  {
    if cs == [] then s else Replay(ApplyCall(s, cs[0], h), cs[1..], h)
  }

  /** Replaying `a + b` is replaying `a` and then `b`. */
  lemma {:induction false} ReplayConcat(s: WinState, a: seq<Call>, b: seq<Call>, h: Hints)
    ensures Replay(s, a + b, h) == Replay(Replay(s, a, h), b, h)
    decreases |a|
  {
    if a == [] {
      assert a + b == b;
    } else {
      assert (a + b)[0] == a[0] && (a + b)[1..] == a[1..] + b;
      ReplayConcat(ApplyCall(s, a[0], h), a[1..], b, h);
    }
  }

  /** Replaying one call is applying it. */
  lemma ReplayOne(s: WinState, c: Call, h: Hints)
    ensures Replay(s, [c], h) == ApplyCall(s, c, h)
  {
    assert [c][1..] == [];
  }

  /** Replaying a non-empty sequence applies its first call, then replays the rest. */
  lemma ReplayFirst(s: WinState, cs: seq<Call>, h: Hints)
    requires cs != []
    ensures Replay(s, cs, h) == Replay(ApplyCall(s, cs[0], h), cs[1..], h)
  {
  }

  /**
   * A combined move+resize reaches the requested rectangle exactly when the
   * request is at least the minimum size; otherwise the window keeps its
   * position and takes the requested size clamped up to the minimum.
   */
  lemma MoveResizeFrameReaches(s: WinState, r: Rect, h: Hints)
    ensures ApplyCall(s, MoveResizeFrame(r), h).frame == r <==>
            (r.width >= h.minWidth && r.height >= h.minHeight)
    ensures !(r.width >= h.minWidth && r.height >= h.minHeight) ==>
            ApplyCall(s, MoveResizeFrame(r), h).frame ==
            Rect(s.frame.x, s.frame.y, Max(r.width, h.minWidth), Max(r.height, h.minHeight))
  {
  }

  /**
   * Maximizing an axis that is not maximized and then unmaximizing it gives
   * the window back its frame and its flags.
   */
  lemma MaximizeThenUnmaximize(s: WinState, a: Axis, h: Hints)
    ensures var t := ApplyCall(ApplyCall(s, Maximize(a), h), Unmaximize(a), h);
            (a != Vertical ==> !s.maxH) && (a != Horizontal ==> !s.maxV) ==>
            t.frame == s.frame && t.maxH == s.maxH && t.maxV == s.maxV
  {
  }

  /** Unmaximizing both axes clears both flags and restores the saved span on each axis that was maximized. */
  lemma UnmaximizeBothRestores(s: WinState, h: Hints)
    ensures var t := ApplyCall(s, Unmaximize(Both), h);
            !t.maxH && !t.maxV && t.saved == s.saved &&
            (s.maxH ==> t.frame.x == s.saved.x && t.frame.width == s.saved.width) &&
            (s.maxV ==> t.frame.y == s.saved.y && t.frame.height == s.saved.height) &&
            (!s.IsMaximized() ==> t == s)
  {
  }

  /** The focused window, as the extension sees it. */
  class Window {
    var x: int
    var y: int
    var width: int
    var height: int
    var maxH: bool
    var maxV: bool
    /** The frame saved on maximizing, restored per axis on unmaximizing. */
    var saved: Rect
    const hints: Hints
    /** Every mutator call made on this window, oldest first. */
    var calls: seq<Call>

    function State(): WinState
      reads this
    {
      WinState(Rect(x, y, width, height), maxH, maxV, saved)
    }

    constructor (frame: Rect, maxH: bool, maxV: bool, saved: Rect, hints: Hints)
      ensures State() == WinState(frame, maxH, maxV, saved)
      ensures this.hints == hints && calls == []
    {
      x, y, width, height := frame.x, frame.y, frame.width, frame.height;
      this.maxH, this.maxV, this.saved := maxH, maxV, saved;
      this.hints := hints;
      calls := [];
    }

    /** `get_frame_rect()`. */
    method GetFrameRect() returns (r: Rect)
      ensures r == State().frame
    {
      r := Rect(x, y, width, height);
    }

    /** `get_maximized()`, as a truth value. */
    method GetMaximized() returns (m: bool)
      ensures m == State().IsMaximized()
    {
      m := maxH || maxV;
    }

    /** `move_frame(true, nx, ny)`. */
    method MoveFrame(nx: int, ny: int)
      modifies this
      ensures State() == ApplyCall(old(State()), Call.MoveFrame(nx, ny), hints)
      ensures calls == old(calls) + [Call.MoveFrame(nx, ny)]
    {
      x, y := nx, ny;
      calls := calls + [Call.MoveFrame(nx, ny)];
    }

    /** `move_resize_frame(true, nx, ny, nw, nh)`. */
    method MoveResizeFrame(nx: int, ny: int, nw: int, nh: int)
      modifies this
      ensures State() == ApplyCall(old(State()), Call.MoveResizeFrame(Rect(nx, ny, nw, nh)), hints)
      ensures calls == old(calls) + [Call.MoveResizeFrame(Rect(nx, ny, nw, nh))]
    {
      var w := if nw >= hints.minWidth then nw else hints.minWidth;
      var h := if nh >= hints.minHeight then nh else hints.minHeight;
      if w == nw && h == nh {
        x, y := nx, ny;
      }
      width, height := w, h;
      calls := calls + [Call.MoveResizeFrame(Rect(nx, ny, nw, nh))];
    }

    /** `maximize(flags)`. */
    method Maximize(a: Axis)
      modifies this
      ensures State() == ApplyCall(old(State()), Call.Maximize(a), hints)
      ensures calls == old(calls) + [Call.Maximize(a)]
    {
      if a != Vertical && !maxH { saved := saved.(x := x, width := width); }
      if a != Horizontal && !maxV { saved := saved.(y := y, height := height); }
      if a != Vertical { maxH := true; }
      if a != Horizontal { maxV := true; }
      calls := calls + [Call.Maximize(a)];
    }

    /** `unmaximize(flags)`. */
    method Unmaximize(a: Axis)
      modifies this
      ensures State() == ApplyCall(old(State()), Call.Unmaximize(a), hints)
      ensures calls == old(calls) + [Call.Unmaximize(a)]
    {
      if a != Vertical && maxH { x, width := saved.x, saved.width; }
      if a != Horizontal && maxV { y, height := saved.y, saved.height; }
      if a != Vertical { maxH := false; }
      if a != Horizontal { maxV := false; }
      calls := calls + [Call.Unmaximize(a)];
    }
  }
}
