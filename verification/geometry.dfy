/**
 * Rectangles in the compositor's pixel frame and the pure geometry of the
 * Sizer extension: work-area containment and full-span classification, the
 * translation of monitor- and work-area-relative coordinates, and centering.
 */
module Geometry {

  /** A frame, monitor or work-area rectangle in absolute integer pixels. */
  datatype Rect = Rect(x: int, y: int, width: int, height: int)

  /** A target position for a move. */
  datatype Point = Point(x: int, y: int)

  /** `area` lies inside `workArea` on both axes (edges may touch). */
  predicate IsWithinWorkArea(area: Rect, workArea: Rect)
  {
    area.x >= workArea.x &&
    area.y >= workArea.y &&
    area.x + area.width <= workArea.x + workArea.width &&
    area.y + area.height <= workArea.y + workArea.height
  }

  /** `area` is inside the work area and covers exactly its horizontal span. */
  predicate IsEntireWorkAreaWidth(area: Rect, workArea: Rect)
  {
    IsWithinWorkArea(area, workArea) &&
    area.x == workArea.x &&
    area.width == workArea.width
  }

  /** `area` is inside the work area and covers exactly its vertical span. */
  predicate IsEntireWorkAreaHeight(area: Rect, workArea: Rect)
  {
    IsWithinWorkArea(area, workArea) &&
    area.y == workArea.y &&
    area.height == workArea.height
  }

  /**
   * Full width is "same left edge, same width, vertically inside": the
   * horizontal half of containment is implied by the exact span.
   */
  lemma EntireWidthIff(area: Rect, workArea: Rect)
    ensures IsEntireWorkAreaWidth(area, workArea) <==>
      (area.x == workArea.x && area.width == workArea.width &&
       workArea.y <= area.y && area.y + area.height <= workArea.y + workArea.height)
  {
  }

  /** Full height, symmetric to `EntireWidthIff`. */
  lemma EntireHeightIff(area: Rect, workArea: Rect)
    ensures IsEntireWorkAreaHeight(area, workArea) <==>
      (area.y == workArea.y && area.height == workArea.height &&
       workArea.x <= area.x && area.x + area.width <= workArea.x + workArea.width)
  {
  }

  /** A rectangle that starts at the work area's left edge but is narrower is not full width. */
  lemma NarrowerIsNotEntireWidth(area: Rect, workArea: Rect)
    requires area.x == workArea.x && area.width < workArea.width
    ensures !IsEntireWorkAreaWidth(area, workArea)
  {
  }

  /** A rectangle that starts at the work area's top edge but is shorter is not full height. */
  lemma ShorterIsNotEntireHeight(area: Rect, workArea: Rect)
    requires area.y == workArea.y && area.height < workArea.height
    ensures !IsEntireWorkAreaHeight(area, workArea)
  {
  }

  /** Spanning the work area on both axes means being the work area itself. */
  lemma EntireBothIffWorkArea(area: Rect, workArea: Rect)
    ensures (IsEntireWorkAreaWidth(area, workArea) && IsEntireWorkAreaHeight(area, workArea))
            <==> area == workArea
  {
  }

  /**
   * Translates a rectangle given relative to `origin` (a monitor or a work
   * area) into absolute pixels: only the position moves, the size is kept.
   */
  function Offset(origin: Rect, rel: Rect): (abs: Rect)
    ensures abs.width == rel.width && abs.height == rel.height
    ensures abs.x - origin.x == rel.x && abs.y - origin.y == rel.y
  {
    Rect(origin.x + rel.x, origin.y + rel.y, rel.width, rel.height)
  }

  /**
   * A work-area-relative rectangle lands inside the work area exactly when
   * it lies inside `[0, width] x [0, height]` in relative coordinates.
   */
  lemma OffsetWithinWorkArea(workArea: Rect, rel: Rect)
    ensures IsWithinWorkArea(Offset(workArea, rel), workArea) <==>
      (0 <= rel.x && rel.x + rel.width <= workArea.width &&
       0 <= rel.y && rel.y + rel.height <= workArea.height)
  {
  }

  /**
   * A work-area-relative rectangle spans the full width exactly when it starts
   * at relative x 0 with the work area's width and fits vertically.
   */
  lemma OffsetEntireWidth(workArea: Rect, rel: Rect)
    ensures IsEntireWorkAreaWidth(Offset(workArea, rel), workArea) <==>
      (rel.x == 0 && rel.width == workArea.width &&
       0 <= rel.y && rel.y + rel.height <= workArea.height)
  {
  }

  /** The vertical counterpart of `OffsetEntireWidth`. */
  lemma OffsetEntireHeight(workArea: Rect, rel: Rect)
    ensures IsEntireWorkAreaHeight(Offset(workArea, rel), workArea) <==>
      (rel.y == 0 && rel.height == workArea.height &&
       0 <= rel.x && rel.x + rel.width <= workArea.width)
  {
  }

  /**
   * The position that centres a `frameWidth` x `frameHeight` frame in the work
   * area, rounding towards negative infinity (Dafny's `/` by a positive
   * divisor floors, as `Math.floor` of the halved difference does). The left
   * margin never exceeds the right one and falls short of it by at most one
   * pixel, and likewise top and bottom; this holds also when the frame is
   * larger than the work area and the margins are negative.
   */
  function Centered(workArea: Rect, frameWidth: int, frameHeight: int): (p: Point)
    ensures var left, right := p.x - workArea.x, workArea.x + workArea.width - (p.x + frameWidth);
            left <= right <= left + 1
    ensures var top, bottom := p.y - workArea.y, workArea.y + workArea.height - (p.y + frameHeight);
            top <= bottom <= top + 1
  {
    Point(workArea.x + (workArea.width - frameWidth) / 2,
          workArea.y + (workArea.height - frameHeight) / 2)
  }

  /** The margins condition of `Centered` determines the position uniquely. */
  lemma CenteredUnique(workArea: Rect, frameWidth: int, frameHeight: int, p: Point)
    requires var left, right := p.x - workArea.x, workArea.x + workArea.width - (p.x + frameWidth);
             left <= right <= left + 1
    requires var top, bottom := p.y - workArea.y, workArea.y + workArea.height - (p.y + frameHeight);
             top <= bottom <= top + 1
    ensures p == Centered(workArea, frameWidth, frameHeight)
  {
  }

  /** An 800x600 frame in a 1920x1080 work area at the origin is centred at (560, 240). */
  lemma CenteredExample()
    ensures Centered(Rect(0, 0, 1920, 1080), 800, 600) == Point(560, 240)
  {
  }

  /** A 1001-pixel-wide frame in a 1000-pixel-wide work area gets x = -1 (floor of -0.5). */
  lemma CenteredOversizedExample()
    ensures Centered(Rect(0, 0, 1000, 1000), 1001, 1000) == Point(-1, 0)
  {
  }
}
