/**
 * The page compositor: the drawing commands it issues to the hidden output
 * canvas, and a small model of the 2D context (current transform, fill
 * style and the save/restore stack) that gives those commands a meaning.
 */
module Compositor {
  import opened Wrappers
  import opened Placements

  const White := "#ffffff"

  /** A command issued to the canvas's 2D context. */
  datatype Op =
    | ClearRect(x: real, y: real, w: real, h: real)
    | SetFill(color: string)
    | FillRect(x: real, y: real, w: real, h: real)
    | Save
    | Restore
    | Translate(dx: real, dy: real)
    | RotateDeg(degrees: real)       // rotate(degrees * PI / 180)
    | Scale(sx: real, sy: real)
    | DrawImage(src: string)         // drawImage(img, 0, 0)

  /** The part of the context's state that save/restore keep. */
  datatype Gfx = Gfx(transform: seq<Op>, fill: string)

  /** The context: its state and the stack of saved states. */
  datatype Ctx = Ctx(gfx: Gfx, stack: seq<Gfx>)

  /** What reaches the pixels, in the order it is painted. */
  datatype Paint =
    | Cleared(x: real, y: real, w: real, h: real, transform: seq<Op>)
    | Filled(x: real, y: real, w: real, h: real, color: string, transform: seq<Op>)
    | Image(src: string, transform: seq<Op>)

  /** One command's effect on the context's state. */
  function Step(op: Op, c: Ctx): Ctx
  {
    match op
    case SetFill(color) => c.(gfx := c.gfx.(fill := color))
    case Save => c.(stack := c.stack + [c.gfx])
    case Restore =>
      if c.stack == [] then c
      else Ctx(c.stack[|c.stack| - 1], c.stack[..|c.stack| - 1])
    case Translate(_, _) => c.(gfx := c.gfx.(transform := c.gfx.transform + [op]))
    case RotateDeg(_) => c.(gfx := c.gfx.(transform := c.gfx.transform + [op]))
    case Scale(_, _) => c.(gfx := c.gfx.(transform := c.gfx.transform + [op]))
    case _ => c
  }

  /** One command's painting, under the context's current state. */
  function Paints(op: Op, c: Ctx): seq<Paint>
  {
    match op
    case ClearRect(x, y, w, h) => [Cleared(x, y, w, h, c.gfx.transform)]
    case FillRect(x, y, w, h) => [Filled(x, y, w, h, c.gfx.fill, c.gfx.transform)]
    case DrawImage(src) => [Image(src, c.gfx.transform)]
    case _ => []
  }

  /** The context after a command sequence. */
  function Run(ops: seq<Op>, c: Ctx): Ctx
    decreases |ops|
  {
    if ops == [] then c else Run(ops[1..], Step(ops[0], c))
  }

  /** Everything a command sequence paints, in order. */
  function Painted(ops: seq<Op>, c: Ctx): seq<Paint>
    decreases |ops|
  {
    if ops == [] then [] else Paints(ops[0], c) + Painted(ops[1..], Step(ops[0], c))
  }

  /** The transform a placement is drawn under, as the page applies it. */
  function PlacementTransform(p: Placement): seq<Op>
  {
    [Translate(p.x, p.y), RotateDeg(p.rotation), Scale(p.scale, p.scale)]
  }

  /** The page cleared and filled white. */
  const Background: seq<Op> :=
    [ClearRect(0.0, 0.0, PageWidth, PageHeight), SetFill(White), FillRect(0.0, 0.0, PageWidth, PageHeight)]

  /** The commands drawing one loaded image. */
  function ImageOps(p: Placement): (ops: seq<Op>)
    ensures |ops| == 6 && ops[0] == Save && ops[5] == Restore
    ensures ops[4] == DrawImage(p.src)
  {
    [Save, Translate(p.x, p.y), RotateDeg(p.rotation), Scale(p.scale, p.scale), DrawImage(p.src), Restore]
  }

  /** Between its opening save and its closing restore, one image's commands neither save nor restore. */
  lemma ImageOpsBracketed(p: Placement)
    ensures forall i :: 0 < i < 5 ==> ImageOps(p)[i] != Save && ImageOps(p)[i] != Restore
  {
    assert ImageOps(p)[1..4] == PlacementTransform(p);
  }

  /** How a composition ends: no canvas or context (null), the canvas, or a rejection. */
  datatype Outcome = NoSurface | Done | Rejected

  /**
   * The commands a composition issues once it has a context: the white page,
   * then each present image in the order front, back; an image that fails to
   * load ends the composition with nothing more drawn.
   */
  function CompositionOps(front: Option<Placement>, back: Option<Placement>,
                          frontLoads: bool, backLoads: bool): (ops: seq<Op>)
    ensures |ops| >= 3 && ops[..3] == Background
    ensures front.Some? && !frontLoads ==> ops == Background
    ensures front.None? && back.None? ==> ops == Background
    ensures back.Some? && backLoads && (front.Some? ==> frontLoads) ==>
      |ops| >= 9 && ops[|ops| - 2] == DrawImage(back.value.src)
  {
    if front.Some? && !frontLoads then Background
    else
      var afterFront := Background + (if front.Some? then ImageOps(front.value) else []);
      if back.Some? && backLoads then afterFront + ImageOps(back.value) else afterFront
  }

  function CompositionOutcome(front: Option<Placement>, back: Option<Placement>,
                              frontLoads: bool, backLoads: bool): (out: Outcome)
    ensures out != NoSurface
    ensures out == Done <==> (front.Some? ==> frontLoads) && (back.Some? ==> backLoads)
  {
    if (front.Some? && !frontLoads) || (back.Some? && !backLoads) then Rejected else Done
  }

  // ---------------------------------------------------------------------
  // Lemmas
  // ---------------------------------------------------------------------

  /** Running two command sequences one after the other. */
  lemma {:induction false} RunAppend(a: seq<Op>, b: seq<Op>, c: Ctx)
    ensures Run(a + b, c) == Run(b, Run(a, c))
    ensures Painted(a + b, c) == Painted(a, c) + Painted(b, Run(a, c))
    decreases |a|
  {
    if a == [] {
      assert a + b == b;
    } else {
      var rest := a[1..] + b;
      assert (a + b)[0] == a[0] && (a + b)[1..] == rest;
      RunAppend(a[1..], b, Step(a[0], c));
      var head := Paints(a[0], c);
      assert Painted(a + b, c) == head + Painted(rest, Step(a[0], c));
      assert Painted(a, c) == head + Painted(a[1..], Step(a[0], c));
      AppendAssoc(head, Painted(a[1..], Step(a[0], c)), Painted(b, Run(a, c)));
    }
  }


  /** The context after an image's transform: its own transform appended, the entry state saved. */
  lemma {:induction false} ImageOpsTransformed(p: Placement, c: Ctx)
    ensures Run(ImageOps(p)[..4], c) == Ctx(Gfx(c.gfx.transform + PlacementTransform(p), c.gfx.fill), c.stack + [c.gfx])
    ensures Painted(ImageOps(p)[..4], c) == []
  {
    var pre := ImageOps(p)[..4];
    var c1 := Step(Save, c);
    var c2 := Step(Translate(p.x, p.y), c1);
    var c3 := Step(RotateDeg(p.rotation), c2);
    AppendAssoc(c.gfx.transform, [Translate(p.x, p.y)], [RotateDeg(p.rotation)]);
    AppendAssoc(c.gfx.transform, [Translate(p.x, p.y), RotateDeg(p.rotation)], [Scale(p.scale, p.scale)]);
    assert pre[3..] == [Scale(p.scale, p.scale)];
    assert pre[2..] == [RotateDeg(p.rotation), Scale(p.scale, p.scale)];
    assert pre[1..] == [Translate(p.x, p.y), RotateDeg(p.rotation), Scale(p.scale, p.scale)];
    var c4 := Step(Scale(p.scale, p.scale), c3);
    assert pre[3..][1..] == [];
    assert Run(pre[3..], c3) == c4 && Painted(pre[3..], c3) == [];
    assert Run(pre[2..], c2) == c4 && Painted(pre[2..], c2) == [];
    assert Run(pre[1..], c1) == c4 && Painted(pre[1..], c1) == [];
  }

  /**
   * Drawing one image paints it once, under exactly the surface's transform
   * followed by its own, and leaves the context as it found it.
   */
  lemma {:induction false} ImageOpsIsolated(p: Placement, c: Ctx)
    ensures Run(ImageOps(p), c) == c
    ensures Painted(ImageOps(p), c) == [Image(p.src, c.gfx.transform + PlacementTransform(p))]
  {
    var ops := ImageOps(p);
    var t := c.gfx.transform + PlacementTransform(p);
    var c4 := Ctx(Gfx(t, c.gfx.fill), c.stack + [c.gfx]);
    ImageOpsTransformed(p, c);
    assert ops == ops[..4] + ops[4..];
    RunAppend(ops[..4], ops[4..], c);
    assert ops[4..][1..] == [Restore] && ops[4..][1..][1..] == [];
    var c5 := Step(DrawImage(p.src), c4);
    assert c5 == c4;
    assert Run(ops[4..][1..], c5) == c && Painted(ops[4..][1..], c5) == [];
    assert Run(ops[4..], c4) == c && Painted(ops[4..], c4) == [Image(p.src, t)];
  }

  /** The background clears and fills the whole page, in white, and sets the fill style. */
  lemma BackgroundPaints(c: Ctx)
    ensures Run(Background, c) == c.(gfx := c.gfx.(fill := White))
    ensures Painted(Background, c) ==
      [Cleared(0.0, 0.0, PageWidth, PageHeight, c.gfx.transform),
       Filled(0.0, 0.0, PageWidth, PageHeight, White, c.gfx.transform)]
  {
    var c1 := Step(SetFill(White), c);
    var bg := Background;
    assert bg[1..] == [SetFill(White), FillRect(0.0, 0.0, PageWidth, PageHeight)];
    assert bg[2..] == bg[1..][1..] == [FillRect(0.0, 0.0, PageWidth, PageHeight)];
    assert Run(bg[2..], c1) == c1;
    assert Painted(bg[2..], c1) == [Filled(0.0, 0.0, PageWidth, PageHeight, White, c.gfx.transform)];
    assert Painted(bg[1..], c) == Painted(bg[2..], c1);
  }

  /** The paints of an image that is present and loaded, else none. */
  function ImagePaint(p: Option<Placement>, t: seq<Op>): seq<Paint>
  {
    if p.Some? then [Image(p.value.src, t + PlacementTransform(p.value))] else []
  }

  /**
   * A successful composition paints the white page, then the front image,
   * then the back image (so the back covers the front where they overlap),
   * each under only its own placement transform on top of the surface's,
   * and leaves the context's transform and saved-state stack as they were.
   */
  lemma {:induction false} CompositionPaints(front: Option<Placement>, back: Option<Placement>, c: Ctx)
    ensures var ops := CompositionOps(front, back, true, true);
      && Painted(ops, c) ==
           [Cleared(0.0, 0.0, PageWidth, PageHeight, c.gfx.transform),
            Filled(0.0, 0.0, PageWidth, PageHeight, White, c.gfx.transform)]
           + ImagePaint(front, c.gfx.transform) + ImagePaint(back, c.gfx.transform)
      && Run(ops, c) == c.(gfx := c.gfx.(fill := White))
  {
    var c1 := c.(gfx := c.gfx.(fill := White));
    BackgroundPaints(c);
    var f := if front.Some? then ImageOps(front.value) else [];
    var b := if back.Some? then ImageOps(back.value) else [];
    assert CompositionOps(front, back, true, true) == Background + f + b;
    RunAppend(Background, f, c);
    RunAppend(Background + f, b, c);
    if front.Some? { ImageOpsIsolated(front.value, c1); }
    if back.Some? { ImageOpsIsolated(back.value, c1); }
  }

  /** With no images the composition is the white page alone. */
  lemma NoImagesWhitePage(frontLoads: bool, backLoads: bool)
    ensures CompositionOps(None, None, frontLoads, backLoads) == Background
    ensures CompositionOutcome(None, None, frontLoads, backLoads) == Done
  {
  }

  /**
   * Whatever happens, the composition starts by clearing and whitening the
   * page; it succeeds exactly when every present image loads; a front image
   * that fails to load stops the back image from being drawn.
   */
  lemma CompositionShape(front: Option<Placement>, back: Option<Placement>, frontLoads: bool, backLoads: bool)
    ensures var ops := CompositionOps(front, back, frontLoads, backLoads);
      && ops[..3] == Background
      && (CompositionOutcome(front, back, frontLoads, backLoads) == Done
          <==> (front.Some? ==> frontLoads) && (back.Some? ==> backLoads))
      && (front.Some? && !frontLoads ==> ops == Background)
  {
  }

  /** Appending is associative; stated once so that the proofs need not rediscover it. */
  lemma AppendAssoc<T>(a: seq<T>, b: seq<T>, c: seq<T>)
    ensures a + b + c == a + (b + c)
  {
  }

  // ---------------------------------------------------------------------
  // The canvas and the compositor
  // ---------------------------------------------------------------------

  /** The hidden output canvas: the log of commands its 2D context has received. */
  class Canvas {
    var ops: seq<Op>
    /** Whether `getContext("2d")` yields a context. */
    const hasContext: bool

    constructor (hasContext: bool)
      ensures ops == [] && this.hasContext == hasContext
    {
      ops := [];
      this.hasContext := hasContext;
    }

    method Issue(op: Op)
      modifies this
      ensures ops == old(ops) + [op]
    {
      ops := ops + [op];
    }

    /** The page cleared and filled white. */
    method PaintBackground()
      modifies this
      ensures ops == old(ops) + Background
    {
      Issue(ClearRect(0.0, 0.0, PageWidth, PageHeight));
      Issue(SetFill(White));
      Issue(FillRect(0.0, 0.0, PageWidth, PageHeight));
    }

    /** An image slot: nothing to draw when it is empty, else `DrawPlacement`. */
    method DrawIfPresent(p: Option<Placement>, loads: bool) returns (ok: bool)
      modifies this
      ensures ok == (p.Some? ==> loads)
      ensures ops == old(ops) + (if p.Some? && loads then ImageOps(p.value) else [])
    {
      ok := true;
      if p.Some? {
        ok := DrawPlacement(p.value, loads);
      }
    }

    /**
     * `drawImageOnCanvas`: once the image loads, draw it in a bracket of
     * save and restore under its own transform; if it fails to load, draw
     * nothing and report the failure.
     */
    method DrawPlacement(p: Placement, loads: bool) returns (ok: bool)
      modifies this
      ensures ok == loads
      ensures ops == old(ops) + (if loads then ImageOps(p) else [])
    {
      if !loads {
        return false;
      }
      Issue(Save);
      Issue(Translate(p.x, p.y));
      Issue(RotateDeg(p.rotation));
      Issue(Scale(p.scale, p.scale));
      Issue(DrawImage(p.src));
      Issue(Restore);
      return true;
    }
  }

  /**
   * `renderCanvasComposition` for the images `e` holds.  `frontLoads` and
   * `backLoads` say whether each image's source decodes.
   */
  method Render(e: Editor, canvas: Canvas?, frontLoads: bool, backLoads: bool) returns (out: Outcome)
    modifies canvas
    ensures canvas == null || !canvas.hasContext ==> out == NoSurface
    ensures canvas != null && !canvas.hasContext ==> canvas.ops == old(canvas.ops)
    ensures canvas != null && canvas.hasContext ==>
      && out == CompositionOutcome(e.front, e.back, frontLoads, backLoads)
      && canvas.ops == old(canvas.ops) + CompositionOps(e.front, e.back, frontLoads, backLoads)
  {
    if canvas == null || !canvas.hasContext {
      return NoSurface;
    }
    var front, back := e.front, e.back;
    ghost var before := canvas.ops;
    ghost var f := if front.Some? && frontLoads then ImageOps(front.value) else [];
    ghost var b := if back.Some? && backLoads then ImageOps(back.value) else [];
    canvas.PaintBackground();
    var frontOk := canvas.DrawIfPresent(front, frontLoads);
    AppendAssoc(before, Background, f);
    if !frontOk {
      return Rejected;
    }
    var backOk := canvas.DrawIfPresent(back, backLoads);
    AppendAssoc(before, Background + f, b);
    if !backOk {
      return Rejected;
    }
    return Done;
  }
}
