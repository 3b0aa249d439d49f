/**
 * Rectangle arithmetic of the crop marquee: the rectangle a mouse move
 * produces from the rectangle and pointer captured when the drag started.
 *
 * All coordinates are local to the image being cropped (the pointer minus the
 * image's top-left corner) and the image box is `w x h`.  Browser pointer
 * coordinates are doubles; here they are exact reals.
 */
module CropGeometry {

  /** The smallest side a resize leaves, in image pixels. */
  const MinSide: real := 40.0

  /** The crop area `{x, y, width, height}`. */
  datatype Rect = Rect(x: real, y: real, width: real, height: real)

  /** The area a freshly opened crop tool shows. */
  const DefaultArea := Rect(40.0, 40.0, 220.0, 220.0)

  /** The four corner handles. */
  datatype Corner = NW | NE | SW | SE

  /** What a drag does: move the whole rectangle or drag one corner. */
  datatype DragMode = Move | Resize(corner: Corner)

  function Min(a: real, b: real): real { if a <= b then a else b }
  function Max(a: real, b: real): real { if a >= b then a else b }

  /** The mode name the page passes around ("move", "resize-nw", ...). */
  function ModeName(m: DragMode): (s: string)
    ensures m.Move? <==> s == "move"
  {
    match m
    case Move => "move"
    case Resize(NW) => "resize-nw"
    case Resize(NE) => "resize-ne"
    case Resize(SW) => "resize-sw"
    case Resize(SE) => "resize-se"
  }

  /** The two-letter suffix that names a corner in a mode name. */
  function CornerTag(c: Corner): string
  {
    match c
    case NW => "nw"
    case NE => "ne"
    case SW => "sw"
    case SE => "se"
  }

  /** `t` occurs in `s` starting at index `i`. */
  predicate OccursAt(s: string, t: string, i: int)
  {
    0 <= i && i + |t| <= |s| && s[i..i + |t|] == t
  }

  /** `s.includes(t)` of JavaScript: `t` occurs in `s` at some index. */
  predicate Includes(s: string, t: string)
  {
    exists i | 0 <= i <= |s| - |t| :: OccursAt(s, t, i)
  }

  /**
   * A rectangle lies inside the `w x h` image box and keeps the minimum side:
   * the invariant a crop rectangle is meant to keep.
   */
  predicate Inside(r: Rect, w: real, h: real)
  {
    && 0.0 <= r.x && 0.0 <= r.y
    && r.x + r.width <= w && r.y + r.height <= h
    && MinSide <= r.width && MinSide <= r.height
  }

  // ---------------------------------------------------------------------
  // One function per drag mode.  `s` is the rectangle at drag start,
  // `dx, dy` the pointer's displacement since then.
  // ---------------------------------------------------------------------

  /** Move: the size is kept and the corner is clamped into `[0, w - width]`. */
  function MoveRect(s: Rect, dx: real, dy: real, w: real, h: real): (r: Rect)
    ensures r.width == s.width && r.height == s.height
    ensures r.x + r.width <= w && r.y + r.height <= h
    ensures s.width <= w ==> 0.0 <= r.x
    ensures s.height <= h ==> 0.0 <= r.y
    ensures 0.0 <= s.x + dx <= w - s.width ==> r.x == s.x + dx
    ensures 0.0 <= s.y + dy <= h - s.height ==> r.y == s.y + dy
    ensures s.x + dx <= 0.0 <= w - s.width ==> r.x == 0.0
    ensures w - s.width <= Max(0.0, s.x + dx) ==> r.x == w - s.width
    ensures s.y + dy <= 0.0 <= h - s.height ==> r.y == 0.0
    ensures h - s.height <= Max(0.0, s.y + dy) ==> r.y == h - s.height
  {
    Rect(Min(Max(0.0, s.x + dx), w - s.width),
         Min(Max(0.0, s.y + dy), h - s.height),
         s.width, s.height)
  }

  /**
   * North-west corner: the corner follows the pointer but never goes below 0;
   * the sides are floored at MinSide.  Nothing bounds the corner from above.
   */
  function ResizeNW(s: Rect, dx: real, dy: real): (r: Rect)
    ensures 0.0 <= r.x && 0.0 <= r.y
    ensures MinSide <= r.width && MinSide <= r.height
    ensures r.x == Max(0.0, s.x + dx) && r.y == Max(0.0, s.y + dy)
    ensures r.x + r.width >= s.x + s.width && r.y + r.height >= s.y + s.height
    ensures MinSide < r.width ==> r.x + r.width == s.x + s.width
    ensures MinSide < r.height ==> r.y + r.height == s.y + s.height
  {
    var newX := Max(0.0, s.x + dx);
    var newY := Max(0.0, s.y + dy);
    Rect(newX, newY,
         Max(MinSide, s.width - (newX - s.x)),
         Max(MinSide, s.height - (newY - s.y)))
  }

  /**
   * North-east corner: x stays, the top edge follows the pointer (not above 0),
   * the right edge follows the pointer but not past the box's right side.
   */
  function ResizeNE(s: Rect, dx: real, dy: real, w: real): (r: Rect)
    ensures r.x == s.x
    ensures 0.0 <= r.y && MinSide <= r.height
    ensures r.x + r.width <= w
    ensures MinSide <= w - s.x ==> MinSide <= r.width
    ensures MinSide <= s.width + dx <= w - s.x ==> r.width == s.width + dx
    ensures s.width + dx <= MinSide <= w - s.x ==> r.width == MinSide
    ensures w - s.x <= Max(MinSide, s.width + dx) ==> r.width == w - s.x
    ensures r.y == Max(0.0, s.y + dy)
    ensures r.y + r.height >= s.y + s.height
    ensures MinSide < r.height ==> r.y + r.height == s.y + s.height
  {
    var newY := Max(0.0, s.y + dy);
    var newW := Max(MinSide, s.width + dx);
    Rect(s.x, newY, Min(newW, w - s.x), Max(MinSide, s.height - (newY - s.y)))
  }

  /** South-west corner: the mirror image of north-east. */
  function ResizeSW(s: Rect, dx: real, dy: real, h: real): (r: Rect)
    ensures r.y == s.y
    ensures 0.0 <= r.x && MinSide <= r.width
    ensures r.y + r.height <= h
    ensures MinSide <= h - s.y ==> MinSide <= r.height
    ensures MinSide <= s.height + dy <= h - s.y ==> r.height == s.height + dy
    ensures s.height + dy <= MinSide <= h - s.y ==> r.height == MinSide
    ensures h - s.y <= Max(MinSide, s.height + dy) ==> r.height == h - s.y
    ensures r.x == Max(0.0, s.x + dx)
    ensures r.x + r.width >= s.x + s.width
    ensures MinSide < r.width ==> r.x + r.width == s.x + s.width
  {
    var newX := Max(0.0, s.x + dx);
    var newH := Max(MinSide, s.height + dy);
    Rect(newX, s.y, Max(MinSide, s.width - (newX - s.x)), Min(newH, h - s.y))
  }

  /** South-east corner: the top-left corner stays, the sides follow the pointer. */
  function ResizeSE(s: Rect, dx: real, dy: real, w: real, h: real): (r: Rect)
    ensures r.x == s.x && r.y == s.y
    ensures r.x + r.width <= w && r.y + r.height <= h
    ensures MinSide <= w - s.x ==> MinSide <= r.width
    ensures MinSide <= h - s.y ==> MinSide <= r.height
    ensures MinSide <= s.width + dx <= w - s.x ==> r.width == s.width + dx
    ensures MinSide <= s.height + dy <= h - s.y ==> r.height == s.height + dy
    ensures s.width + dx <= MinSide <= w - s.x ==> r.width == MinSide
    ensures w - s.x <= Max(MinSide, s.width + dx) ==> r.width == w - s.x
    ensures s.height + dy <= MinSide <= h - s.y ==> r.height == MinSide
    ensures h - s.y <= Max(MinSide, s.height + dy) ==> r.height == h - s.y
  {
    Rect(s.x, s.y,
         Min(Max(MinSide, s.width + dx), w - s.x),
         Min(Max(MinSide, s.height + dy), h - s.y))
  }

  /**
   * The rectangle one mouse move yields in mode `m`.  Only a move keeps the
   * size; the east corners keep x and the south corners keep y; the right
   * edge is bounded by the box in every mode but the west resizes, and the
   * bottom edge in every mode but the north resizes.
   */
  function Reshape(m: DragMode, s: Rect, dx: real, dy: real, w: real, h: real): (r: Rect)
    ensures m.Move? ==> r.width == s.width && r.height == s.height
    ensures m.Resize? && m.corner in {NE, SE} ==> r.x == s.x
    ensures m.Resize? && m.corner in {SW, SE} ==> r.y == s.y
    ensures m != Resize(NW) && m != Resize(SW) ==> r.x + r.width <= w
    ensures m != Resize(NW) && m != Resize(NE) ==> r.y + r.height <= h
  {
    match m
    case Move => MoveRect(s, dx, dy, w, h)
    case Resize(NW) => ResizeNW(s, dx, dy)
    case Resize(NE) => ResizeNE(s, dx, dy, w)
    case Resize(SW) => ResizeSW(s, dx, dy, h)
    case Resize(SE) => ResizeSE(s, dx, dy, w, h)
  }

  // ---------------------------------------------------------------------
  // Lemmas
  // ---------------------------------------------------------------------

  /**
   * Each resize mode name passes exactly one of the four corner tests, the
   * one for its own corner; so the page's chain of `includes` tests applies
   * exactly one corner rule.
   */
  lemma ExactlyOneCornerTest(c: Corner, d: Corner)
    ensures Includes(ModeName(Resize(c)), CornerTag(d)) <==> c == d
  {
    var n, t := ModeName(Resize(c)), CornerTag(d);
    assert n == "resize-" + CornerTag(c);
    if c == d {
      assert OccursAt(n, t, 7);
    } else {
      forall i | 0 <= i <= 7
        ensures !OccursAt(n, t, i)
      {
        assert n[i..i + 2][0] == n[i] && n[i..i + 2][1] == n[i + 1];
      }
    }
  }

  /** Move and south-east keep a rectangle that was inside the box inside it. */
  lemma MoveKeepsInside(s: Rect, dx: real, dy: real, w: real, h: real)
    requires Inside(s, w, h)
    ensures Inside(MoveRect(s, dx, dy, w, h), w, h)
  {
  }

  lemma SEKeepsInside(s: Rect, dx: real, dy: real, w: real, h: real)
    requires Inside(s, w, h)
    ensures Inside(ResizeSE(s, dx, dy, w, h), w, h)
  {
  }

  /**
   * The other three corners do not.  The witnesses start from the default
   * area in a 300 x 300 image and keep the pointer on the image: dragging
   * the north-west handle from (40, 40) to the image's far corner (300, 300)
   * pushes a minimum-size box past the right and bottom edges.
   */
  lemma NWCanLeaveBox()
    ensures Inside(DefaultArea, 300.0, 300.0)
    ensures var r := ResizeNW(DefaultArea, 260.0, 260.0);
      r == Rect(300.0, 300.0, 40.0, 40.0) && !Inside(r, 300.0, 300.0)
  {
  }

  /** Dragging the north-east handle from (260, 40) down to (260, 300) pushes the box past the bottom edge. */
  lemma NECanLeaveBox()
    ensures Inside(DefaultArea, 300.0, 300.0)
    ensures var r := ResizeNE(DefaultArea, 0.0, 260.0, 300.0);
      r == Rect(40.0, 300.0, 220.0, 40.0) && !Inside(r, 300.0, 300.0)
  {
  }

  /** Dragging the south-west handle from (40, 260) right to (300, 260) pushes the box past the right edge. */
  lemma SWCanLeaveBox()
    ensures Inside(DefaultArea, 300.0, 300.0)
    ensures var r := ResizeSW(DefaultArea, 260.0, 0.0, 300.0);
      r == Rect(300.0, 40.0, 40.0, 220.0) && !Inside(r, 300.0, 300.0)
  {
  }

  /**
   * What every mode does promise from an inside start: the sides stay at
   * least MinSide and the corner that the mode does not clamp from above
   * still stays at or right/below 0.
   */
  lemma ReshapeKeepsFloor(m: DragMode, s: Rect, dx: real, dy: real, w: real, h: real)
    requires Inside(s, w, h)
    ensures var r := Reshape(m, s, dx, dy, w, h);
      0.0 <= r.x && 0.0 <= r.y && MinSide <= r.width && MinSide <= r.height
  {
  }

  /**
   * A rectangle stays inside under every mode exactly when the mode is move
   * or south-east: for the other corners the witness above escapes.
   */
  lemma InsideUnderEveryDragIffMoveOrSE(m: DragMode)
    ensures (forall s, dx, dy, w, h :: Inside(s, w, h) ==> Inside(Reshape(m, s, dx, dy, w, h), w, h))
        <==> (m == Move || m == Resize(SE))
  {
    if m == Move || m == Resize(SE) {
      forall s, dx, dy, w, h | Inside(s, w, h)
        ensures Inside(Reshape(m, s, dx, dy, w, h), w, h)
      {
        if m == Move { MoveKeepsInside(s, dx, dy, w, h); } else { SEKeepsInside(s, dx, dy, w, h); }
      }
    } else if m == Resize(NW) {
      NWCanLeaveBox();
      assert !Inside(Reshape(m, DefaultArea, 400.0, 400.0, 300.0, 300.0), 300.0, 300.0);
    } else if m == Resize(NE) {
      NECanLeaveBox();
      assert !Inside(Reshape(m, DefaultArea, 0.0, 400.0, 300.0, 300.0), 300.0, 300.0);
    } else {
      SWCanLeaveBox();
      assert !Inside(Reshape(m, DefaultArea, 400.0, 0.0, 300.0, 300.0), 300.0, 300.0);
    }
  }
}
