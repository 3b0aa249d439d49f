/**
 * The two-slot image record of the editor page (front and back), the
 * selected side, and the operations that replace the record: upload, the
 * adjustment controls' merge, saving a crop and clearing a side.
 */
module Placements {
  import opened Wrappers

  /** The output page in canvas pixels: 616 x 1056. */
  const PageWidth: real := 616.0
  const PageHeight: real := 1056.0

  datatype Side = Front | Back

  function Other(s: Side): Side
  {
    if s == Front then Back else Front
  }

  /** One side's image: its source, scale factor, offset and rotation in degrees. */
  datatype Placement = Placement(src: string, scale: real, x: real, y: real, rotation: real)

  /** A partial placement: the fields an update supplies. */
  datatype Patch = Patch(src: Option<string>, scale: Option<real>, x: Option<real>,
                         y: Option<real>, rotation: Option<real>)

  const EmptyPatch := Patch(None, None, None, None, None)

  /** The patch a saved crop applies: only a new source. */
  function SrcPatch(src: string): (u: Patch)
    ensures u.src == Some(src)
    ensures u.(src := None) == EmptyPatch
  {
    EmptyPatch.(src := Some(src))
  }

  function Pick<T>(u: Option<T>, cur: T): T
  {
    if u.Some? then u.value else cur
  }

  /** `{ ...p, ...u }`: the fields `u` supplies override those of `p`. */
  function Merge(p: Placement, u: Patch): (r: Placement)
    ensures u.src.Some? ==> r.src == u.src.value
    ensures u.src.None? ==> r.src == p.src
    ensures u.scale.Some? ==> r.scale == u.scale.value
    ensures u.scale.None? ==> r.scale == p.scale
    ensures u.x.Some? ==> r.x == u.x.value
    ensures u.x.None? ==> r.x == p.x
    ensures u.y.Some? ==> r.y == u.y.value
    ensures u.y.None? ==> r.y == p.y
    ensures u.rotation.Some? ==> r.rotation == u.rotation.value
    ensures u.rotation.None? ==> r.rotation == p.rotation
  {
    Placement(Pick(u.src, p.src), Pick(u.scale, p.scale), Pick(u.x, p.x),
              Pick(u.y, p.y), Pick(u.rotation, p.rotation))
  }

  /** Two updates in a row: the later one's fields win. */
  function Then(a: Patch, b: Patch): Patch
  {
    Patch(if b.src.Some? then b.src else a.src,
          if b.scale.Some? then b.scale else a.scale,
          if b.x.Some? then b.x else a.x,
          if b.y.Some? then b.y else a.y,
          if b.rotation.Some? then b.rotation else a.rotation)
  }

  /**
   * The placement an upload gives: half size, a quarter of the half page
   * from the left, 40 from the top for the front and 180 for the back, so
   * the two start one above the other; no rotation.
   */
  function DefaultPlacement(side: Side, src: string): (p: Placement)
    ensures p.src == src && p.scale == 0.5 && p.rotation == 0.0
    ensures p.x == 77.0
    ensures p.y == (if side == Front then 40.0 else 180.0)
  {
    Placement(src, 0.5, (PageWidth / 2.0) * 0.25, if side == Front then 40.0 else 180.0, 0.0)
  }

  /** The empty update changes nothing. */
  lemma MergeEmpty(p: Placement)
    ensures Merge(p, EmptyPatch) == p
  {
  }

  /** Applying the same update twice is applying it once. */
  lemma MergeIdempotent(p: Placement, u: Patch)
    ensures Merge(Merge(p, u), u) == Merge(p, u)
  {
  }

  /** Two updates in a row are one combined update. */
  lemma MergeThen(p: Placement, a: Patch, b: Patch)
    ensures Merge(Merge(p, a), b) == Merge(p, Then(a, b))
  {
  }

  /** A saved crop replaces the source and nothing else. */
  lemma CropSaveReplacesOnlySrc(p: Placement, src: string)
    ensures Merge(p, SrcPatch(src)) == p.(src := src)
  {
  }

  /** The editor page's image state. */
  class Editor {
    var front: Option<Placement>
    var back: Option<Placement>
    /** The side the controls act on. */
    var selected: Side
    /** Whether the crop dialog has been opened. */
    var cropping: bool

    function Slot(s: Side): Option<Placement>
      reads this
    {
      if s == Front then front else back
    }

    /** The crop dialog is on screen only while the selected side has an image. */
    predicate CropDialogShown()
      reads this
    {
      cropping && Slot(selected).Some?
    }

    /** A fresh page: no images, front selected, no crop dialog. */
    constructor ()
      ensures front == None && back == None && selected == Front && !cropping
    {
      front, back := None, None;
      selected := Front;
      cropping := false;
    }

    method SetSlot(s: Side, v: Option<Placement>)
      modifies this
      ensures Slot(s) == v && Slot(Other(s)) == old(Slot(Other(s)))
      ensures selected == old(selected) && cropping == old(cropping)
    {
      if s == Front { front := v; } else { back := v; }
    }

    /** Choosing a side; the images are untouched. */
    method Select(s: Side)
      modifies this`selected
      ensures selected == s
    {
      selected := s;
    }

    /** An upload's result lands on the selected side with the default placement. */
    method Upload(src: string)
      modifies this
      ensures Slot(selected) == Some(DefaultPlacement(selected, src))
      ensures Slot(Other(selected)) == old(Slot(Other(selected)))
      ensures selected == old(selected) && cropping == old(cropping)
    {
      SetSlot(selected, Some(DefaultPlacement(selected, src)));
    }

    /** `updateImage`: merge into the selected side; nothing happens if it is empty. */
    method UpdateImage(u: Patch)
      modifies this
      ensures old(Slot(selected)).None? ==> Slot(selected) == None
      ensures old(Slot(selected)).Some? ==> Slot(selected) == Some(Merge(old(Slot(selected)).value, u))
      ensures Slot(Other(selected)) == old(Slot(Other(selected)))
      ensures selected == old(selected) && cropping == old(cropping)
    {
      var cur := Slot(selected);
      if cur.Some? {
        SetSlot(selected, Some(Merge(cur.value, u)));
      }
    }

    method OpenCropTool()
      modifies this`cropping
      ensures cropping
      ensures CropDialogShown() <==> Slot(selected).Some?
    {
      cropping := true;
    }

    /** Closing the dialog or cancelling the crop: the images are untouched. */
    method CancelCrop()
      modifies this`cropping
      ensures !cropping && !CropDialogShown()
    {
      cropping := false;
    }

    /**
     * `handleCropSave`: the cropped image (already encoded as `croppedSrc`)
     * replaces the selected side's source, and the dialog closes.
     */
    method CropSave(croppedSrc: string)
      modifies this
      ensures old(Slot(selected)).None? ==> Slot(selected) == None
      ensures old(Slot(selected)).Some? ==> Slot(selected) == Some(old(Slot(selected)).value.(src := croppedSrc))
      ensures Slot(Other(selected)) == old(Slot(Other(selected)))
      ensures selected == old(selected) && !cropping
      ensures !CropDialogShown()
    {
      UpdateImage(SrcPatch(croppedSrc));
      if old(Slot(selected)).Some? {
        CropSaveReplacesOnlySrc(old(Slot(selected)).value, croppedSrc);
      }
      cropping := false;
    }

    /** The clear button: remove the selected side's image only. */
    method Clear()
      modifies this
      ensures Slot(selected) == None
      ensures Slot(Other(selected)) == old(Slot(Other(selected)))
      ensures selected == old(selected) && cropping == old(cropping)
      ensures !CropDialogShown()
    {
      SetSlot(selected, None);
    }
  }
}
