/**
 * The crop dialog's drag engine: the crop area, the active drag mode and the
 * snapshot taken when the drag began, updated by mouse-down, mouse-move and
 * mouse-up (or mouse-leave) events.
 *
 * Pointer positions are already local to the image (client position minus
 * the image's top-left corner) and the image's box is given by its size.
 * Every handler takes that box as `image: Option<ImageBox>`, which is `None`
 * while the image is not mounted.
 */
module CropSession {
  import opened Wrappers
  import opened CropGeometry

  /** The bounding box of the image being cropped. */
  datatype ImageBox = ImageBox(width: real, height: real)

  /** What `startDrag` records: the pointer and the crop area at that moment. */
  datatype Snapshot = Snapshot(px: real, py: real, area: Rect)

  /**
   * The crop that `executeCrop` performs: the crop canvas's size, the region
   * of the image read (in the image's own pixels) and where it is drawn.
   */
  datatype CropJob = CropJob(canvasWidth: real, canvasHeight: real, source: Rect, dest: Rect)

  /** What a mouse-down lands on: the crop box itself or one of its corner handles. */
  datatype Target = Body | Handle(corner: Corner)

  /**
   * The modes handed to `startDrag`, in the order the handlers run, for a
   * mouse-down on `t` AS WRITTEN: the handles are children of the box and the
   * event bubbles, so a press on a handle runs the handle's handler and then
   * the box's.
   */
  function MouseDownModesAsWritten(t: Target): (ms: seq<DragMode>)
    ensures |ms| >= 1 && ms[|ms| - 1] == Move
    ensures t.Handle? ==> ms[0] == Resize(t.corner)
  {
    match t
    case Body => [Move]
    case Handle(c) => [Resize(c), Move]
  }

  /** The same, with the handle's handler stopping propagation. */
  function MouseDownModes(t: Target): (ms: seq<DragMode>)
    ensures |ms| == 1
    ensures t.Handle? <==> ms[0].Resize?
    ensures t.Handle? ==> ms[0].corner == t.corner
  {
    match t
    case Body => [Move]
    case Handle(c) => [Resize(c)]
  }

  /** State updates made in one event handler are batched: the last one wins. */
  function Settled(ms: seq<DragMode>): (m: DragMode)
    requires ms != []
    ensures m in ms
    ensures m == ms[|ms| - 1]
  {
    ms[|ms| - 1]
  }

  /** As written, no mouse-down ever settles in a resize mode. */
  lemma ResizeUnreachableAsWritten(t: Target)
    ensures Settled(MouseDownModesAsWritten(t)) == Move
  {
  }

  /** Corrected, a press on a handle settles in that handle's resize mode. */
  lemma HandleStartsResize(t: Target)
    ensures Settled(MouseDownModes(t)) == (if t.Handle? then Resize(t.corner) else Move)
  {
  }

  class CropTool {
    /** The crop area shown to the user. */
    var area: Rect
    /** The active drag, `None` between drags. */
    var mode: Option<DragMode>
    /** The drag-start snapshot; it is not cleared when the drag ends. */
    var start: Option<Snapshot>

    /** A freshly opened crop dialog. */
    constructor ()
      ensures area == DefaultArea && mode == None && start == None
    {
      area := DefaultArea;
      mode := None;
      start := None;
    }

    /** `startDrag`: snapshot the pointer and the area and enter mode `m`. */
    method StartDrag(image: Option<ImageBox>, px: real, py: real, m: DragMode)
      modifies this
      ensures area == old(area)
      ensures image.None? ==> mode == old(mode) && start == old(start)
      ensures image.Some? ==> mode == Some(m) && start == Some(Snapshot(px, py, old(area)))
    {
      if image.None? {
        return;
      }
      start := Some(Snapshot(px, py, area));
      mode := Some(m);
    }

    /**
     * The `startDrag` calls of one event, in the order its handlers make
     * them: each snapshots the same pointer and area, so what remains is the
     * last mode handed over.
     */
    method StartDrags(image: Option<ImageBox>, px: real, py: real, ms: seq<DragMode>)
      modifies this
      ensures area == old(area)
      ensures image.None? || ms == [] ==> mode == old(mode) && start == old(start)
      ensures image.Some? && ms != [] ==>
        mode == Some(Settled(ms)) && start == Some(Snapshot(px, py, old(area)))
    {
      var i := 0;
      while i < |ms|
        invariant 0 <= i <= |ms|
        invariant area == old(area)
        invariant image.None? || i == 0 ==> mode == old(mode) && start == old(start)
        invariant image.Some? && i > 0 ==> mode == Some(ms[i - 1]) && start == Some(Snapshot(px, py, old(area)))
      {
        StartDrag(image, px, py, ms[i]);
        i := i + 1;
      }
    }

    /**
     * A mouse-down on `t` as the page handles it: every handler the event
     * reaches calls `startDrag` in turn.
     */
    method MouseDownAsWritten(image: Option<ImageBox>, px: real, py: real, t: Target)
      modifies this
      ensures area == old(area)
      ensures image.None? ==> mode == old(mode) && start == old(start)
      ensures image.Some? ==> mode == Some(Move) && start == Some(Snapshot(px, py, old(area)))
    {
      StartDrags(image, px, py, MouseDownModesAsWritten(t));
      ResizeUnreachableAsWritten(t);
    }

    /** A mouse-down on `t` with the handles stopping propagation. */
    method MouseDown(image: Option<ImageBox>, px: real, py: real, t: Target)
      modifies this
      ensures area == old(area)
      ensures image.None? ==> mode == old(mode) && start == old(start)
      ensures image.Some? ==> mode == Some(Settled(MouseDownModes(t)))
      ensures image.Some? ==> start == Some(Snapshot(px, py, old(area)))
    {
      StartDrags(image, px, py, MouseDownModes(t));
    }

    /**
     * `handleMouseMove`: recompute the area from the snapshot and the pointer.
     * The result does not depend on the area before the move, so replaying
     * the same pointer yields the same area.  Without an active drag, a
     * mounted image or a snapshot nothing changes.
     */
    method MouseMove(image: Option<ImageBox>, px: real, py: real)
      modifies this`area
      ensures mode == old(mode) && start == old(start)
      ensures old(mode).None? || image.None? || old(start).None? ==> area == old(area)
      ensures mode.Some? && image.Some? && start.Some? ==>
        area == Reshape(mode.value, start.value.area, px - start.value.px, py - start.value.py,
                        image.value.width, image.value.height)
    {
      if mode.None? || image.None? || start.None? {
        return;
      }
      var m, b, snap := mode.value, image.value, start.value;
      var dx, dy := px - snap.px, py - snap.py;
      var s := snap.area;
      var next := s;
      var name := ModeName(m);
      if name == "move" {
        next := next.(x := Min(Max(0.0, s.x + dx), b.width - s.width));
        next := next.(y := Min(Max(0.0, s.y + dy), b.height - s.height));
      } else {
        ExactlyOneCornerTest(m.corner, NW);
        ExactlyOneCornerTest(m.corner, NE);
        ExactlyOneCornerTest(m.corner, SW);
        ExactlyOneCornerTest(m.corner, SE);
        if Includes(name, "nw") {
          var newX := Max(0.0, s.x + dx);
          var newY := Max(0.0, s.y + dy);
          next := next.(width := Max(MinSide, s.width - (newX - s.x)));
          next := next.(height := Max(MinSide, s.height - (newY - s.y)));
          next := next.(x := newX);
          next := next.(y := newY);
        }
        if Includes(name, "ne") {
          var newY := Max(0.0, s.y + dy);
          var newW := Max(MinSide, s.width + dx);
          next := next.(width := Min(newW, b.width - s.x));
          next := next.(height := Max(MinSide, s.height - (newY - s.y)));
          next := next.(y := newY);
        }
        if Includes(name, "sw") {
          var newX := Max(0.0, s.x + dx);
          var newH := Max(MinSide, s.height + dy);
          next := next.(width := Max(MinSide, s.width - (newX - s.x)));
          next := next.(height := Min(newH, b.height - s.y));
          next := next.(x := newX);
        }
        if Includes(name, "se") {
          next := next.(width := Min(Max(MinSide, s.width + dx), b.width - s.x));
          next := next.(height := Min(Max(MinSide, s.height + dy), b.height - s.y));
        }
      }
      area := next;
    }

    /** `handleMouseUp`, also bound to mouse-leave: end the drag, keep the area. */
    method MouseUp()
      modifies this`mode
      ensures mode == None
    {
      mode := None;
    }

    /**
     * `executeCrop`, up to handing the canvas to the save callback: size the
     * crop canvas to the crop area and copy that area of the image to it.
     * Nothing happens unless the image, the crop canvas and its 2D context
     * all exist.
     */
    method ExecuteCrop(imageMounted: bool, canvasMounted: bool, hasContext: bool)
      returns (job: Option<CropJob>)
      ensures job.Some? <==> imageMounted && canvasMounted && hasContext
      ensures job.Some? ==> job.value.source == area
      ensures job.Some? ==> job.value.canvasWidth == area.width && job.value.canvasHeight == area.height
      ensures job.Some? ==> job.value.dest == Rect(0.0, 0.0, job.value.canvasWidth, job.value.canvasHeight)
    {
      if !imageMounted || !canvasMounted || !hasContext {
        return None;
      }
      job := Some(CropJob(area.width, area.height, area, Rect(0.0, 0.0, area.width, area.height)));
    }
  }
}
