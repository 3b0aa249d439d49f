# Doc Master editor core, modelled in Dafny

Doc Master is a browser page for documents that have a front and a back.
The user uploads an image for each side and places the two images on an
A4 page of 616 x 1056 pixels. The user can crop an image in a dialog and
then prints the page or downloads it as a PNG or JPEG file. Everything in
this model comes from the editor page, `app/page.tsx`.

The model has five modules:

- `CropGeometry` (`geometry.dfy`): the crop rectangle and the rectangle each
  drag mode computes. There are five modes: move, and a resize from each
  of the four corners. Every rule takes the rectangle and pointer captured
  at drag start plus the image box `w x h`. Each function's contract says
  what that mode promises, and the promises are uneven:
  - move and south-east keep a rectangle that started inside the box
    inside it;
  - north-west, north-east and south-west only bound the corners they
    clamp, and the lemmas exhibit a drag that pushes the box out of the
    image;
  - `InsideUnderEveryDragIffMoveOrSE` states this split as an equivalence.
- `CropSession` (`crop_tool.dfy`): the crop dialog as a class. Its fields
  are the crop area, the drag mode and the drag-start snapshot. Its methods
  handle mouse-down, mouse-move and mouse-up/mouse-leave, and build the
  crop job for "Save Crop". The move handler builds its result field by
  field with the page's chain of `includes` tests. It is proved equal to
  the per-mode function applied to the snapshot, so the result never
  depends on the area the move started from.
- `Placements` (`placement.dfy`): the two-slot image record (front, back),
  the selected side, and the operations that replace the record: upload,
  the adjustment controls' merge, saving a crop, and clearing a side. Each
  of these touches only the selected side.
- `DownloadConfig` (`settings.dfy`): checking the stored settings value,
  JavaScript's `trim`, and the download file name and MIME type.
- `Compositor` (`compositor.dfy`): the list of commands the output canvas
  receives, with a small model of a 2D context (transform, fill style,
  save/restore stack) that gives those commands meaning. On success the
  page is painted white, then the front image, then the back image. Each
  image is painted under only its own translate, rotate and scale. The
  transform and the save stack end as they started; the fill style is
  left white.

Some facts about the code that the model keeps:

- The default file name is `doc-master-document`.
- The crop dialog has five drag modes: move and the four corner resizes.
- The crop area is handed to `drawImage` unscaled, so it is read as image
  pixels.
- The compositor draws placements at their stored offsets, on a canvas of
  616 x 1056 pixels, with no further scaling.
- If an image fails to load during composition, whatever was already
  drawn stays on the hidden canvas and the promise rejects.
- Restoring with an empty save stack does nothing. This is what the HTML
  canvas standard specifies.

## Model

| member | source | states |
|---|---|---|
| `CropGeometry.ModeName` | app/page.tsx:737-739 | only the move mode is named "move", so the page's `dragMode === "move"` test picks out exactly the move drags |
| `CropGeometry.MoveRect` | app/page.tsx:772-780 | a move keeps width and height; right and bottom edges never pass the box; x, y are at least 0 whenever the rectangle fits the box; in range the corner follows the pointer exactly; dragged past the left/top edge it sits at 0, dragged past the right/bottom edge at the box size minus the side |
| `CropGeometry.ResizeNW` | app/page.tsx:782-789 | x, y at least 0 and both sides at least 40; the corner follows the pointer clamped at 0; right and bottom edges never move left/up, and stay fixed while the side is above 40 |
| `CropGeometry.ResizeNE` | app/page.tsx:790-796 | x unchanged; y at least 0; height at least 40; right edge within the box; width at least 40 when the box leaves room; the width is exactly 40 when dragged in past the floor and exactly `w - x` when dragged past the right edge; bottom edge fixed while height is above 40 |
| `CropGeometry.ResizeSW` | app/page.tsx:797-803 | y unchanged; x at least 0; width at least 40; bottom edge within the box; height at least 40 when the box leaves room; the height is exactly 40 when dragged in past the floor and exactly `h - y` when dragged past the bottom edge; right edge fixed while width is above 40 |
| `CropGeometry.ResizeSE` | app/page.tsx:804-813 | x and y unchanged; right and bottom edges within the box; sides at least 40 when the box leaves room; in range the sides follow the pointer exactly; each side is exactly 40 when dragged in past the floor and exactly the room left in the box when dragged past its edge |
| `CropGeometry.Reshape` | app/page.tsx:770-814 | the page's per-mode dispatch: only a move keeps the size; the east corners keep x and the south corners keep y; the right edge stays in the box except for the west resizes, the bottom edge except for the north resizes |
| `CropGeometry.ExactlyOneCornerTest` | app/page.tsx:782-813 | each resize mode name passes the `includes` test for its own corner and fails the other three |
| `CropGeometry.MoveKeepsInside` | app/page.tsx:772-780 | a move keeps a rectangle that was inside the box (sides at least 40) inside it |
| `CropGeometry.SEKeepsInside` | app/page.tsx:804-813 | a south-east resize keeps a rectangle that was inside the box inside it |
| `CropGeometry.NWCanLeaveBox` | app/page.tsx:782-789 | dragging the north-west handle of the default area from (40, 40) to the far corner (300, 300) of a 300 x 300 image gives 300,300,40,40, outside the image |
| `CropGeometry.NECanLeaveBox` | app/page.tsx:790-796 | dragging the north-east handle of the default area down to the bottom edge of a 300 x 300 image gives 40,300,220,40, past the bottom edge |
| `CropGeometry.SWCanLeaveBox` | app/page.tsx:797-803 | dragging the south-west handle of the default area right to the right edge of a 300 x 300 image gives 300,40,40,220, past the right edge |
| `CropGeometry.ReshapeKeepsFloor` | app/page.tsx:770-814 | from a rectangle inside the box, every mode keeps x, y at least 0 and both sides at least 40 |
| `CropGeometry.InsideUnderEveryDragIffMoveOrSE` | app/page.tsx:770-814 | a mode keeps every inside rectangle inside for every drag exactly when it is move or south-east |
| `CropSession.MouseDownModesAsWritten` | app/page.tsx:857-883 | a press on a handle reaches the handle's `startDrag` first and the box's `startDrag(e, "move")` last |
| `CropSession.MouseDownModes` | app/page.tsx:857-883 | with propagation stopped at the handle, a press hands exactly one mode to `startDrag`, a resize of that handle's corner |
| `CropSession.Settled` | app/page.tsx:758 | the mode that one event's batched `setDragMode` calls leave; `CropSession.CropTool.StartDrags` ties it to those calls |
| `CropSession.ResizeUnreachableAsWritten` | app/page.tsx:746-759 | as written, every mouse-down settles in move mode, because the last batched `setDragMode` wins |
| `CropSession.HandleStartsResize` | app/page.tsx:746-759 | corrected, a press on a corner handle settles in that corner's resize mode and a press on the box settles in move mode |
| `CropSession.CropTool.constructor` | app/page.tsx:731-744 | a new dialog shows the area 40,40,220,220 with no drag and no snapshot |
| `CropSession.CropTool.StartDrag` | app/page.tsx:746-759 | with the image mounted, records pointer and current area as the snapshot and enters the mode; otherwise changes nothing; never changes the area |
| `CropSession.CropTool.StartDrags` | app/page.tsx:746-759 | running one press's `startDrag` calls in order leaves the last mode handed over, the snapshot of this press and the area unchanged; without an image, or with no calls, nothing changes |
| `CropSession.CropTool.MouseDownAsWritten` | app/page.tsx:857-883 | a press on any target, run through every handler it bubbles to, leaves move mode and the snapshot of this press |
| `CropSession.CropTool.MouseDown` | app/page.tsx:857-883 | the corrected press: it enters the settled mode of `MouseDownModes` with this press's snapshot |
| `CropSession.CropTool.MouseMove` | app/page.tsx:761-817 | with a mode, a mounted image and a snapshot, the area becomes the mode's rectangle computed from the snapshot and the pointer displacement, independent of the previous area; otherwise nothing changes; mode and snapshot are untouched |
| `CropSession.CropTool.MouseUp` | app/page.tsx:819-821 | ends the drag; area and snapshot stay |
| `CropSession.CropTool.ExecuteCrop` | app/page.tsx:823-842 | a crop happens exactly when image, crop canvas and context exist; the canvas gets the area's size; the source region is the crop area unscaled; the destination is the whole canvas |
| `Placements.DefaultPlacement` | app/page.tsx:160-169 | an upload is placed at scale 0.5, x 77 (a quarter of half the page width), y 40 for the front and 180 for the back, rotation 0 |
| `Placements.Merge` | app/page.tsx:178 | `{ ...current, ...updates }`: a field the update supplies takes that value, every other field keeps the current one |
| `Placements.SrcPatch` | app/page.tsx:211 | the crop-save update supplies the new source and no other field |
| `Placements.MergeEmpty` | app/page.tsx:174-181 | an update that supplies no field changes nothing |
| `Placements.MergeIdempotent` | app/page.tsx:174-181 | applying the same update twice equals applying it once |
| `Placements.MergeThen` | app/page.tsx:174-181 | two updates in a row equal one combined update in which the later fields win |
| `Placements.CropSaveReplacesOnlySrc` | app/page.tsx:209-213 | the update a saved crop applies replaces the source and keeps scale, position and rotation |
| `Placements.Editor.constructor` | app/page.tsx:38-43 | the page starts with no images, the front selected and no crop dialog |
| `Placements.Editor.SetSlot` | app/page.tsx:160-162 | writing one side's slot (`{...images, [side]: v}`) leaves the other side, the selection and the dialog flag alone |
| `Placements.Editor.Select` | app/page.tsx:451-457 | choosing a side changes only the selection |
| `Placements.Editor.Upload` | app/page.tsx:158-169 | the selected side gets the default placement for it; the other side is untouched |
| `Placements.Editor.UpdateImage` | app/page.tsx:174-181 | the selected side becomes the merge of its placement and the update; an empty side stays empty; the other side is untouched |
| `Placements.Editor.OpenCropTool` | app/page.tsx:205-207 | sets the crop flag; the dialog is then on screen exactly when the selected side has an image (the condition at line 689) |
| `Placements.Editor.CancelCrop` | app/page.tsx:696-706 | clears the crop flag, so the dialog is off screen; the images are untouched |
| `Placements.Editor.CropSave` | app/page.tsx:209-213 | only the selected side's source is replaced, if that side has an image; the crop flag is cleared and the dialog is off screen |
| `Placements.Editor.Clear` | app/page.tsx:633-638 | the selected side is removed; the other side is untouched; the crop dialog cannot be on screen afterwards |
| `DownloadConfig.ToJson` | app/page.tsx:100-103 | the object the page stores has exactly the keys `filename` and `format`, and it passes the shape test with the same settings |
| `DownloadConfig.Validate` | app/page.tsx:83-88 | a parsed value is accepted exactly when it is an object whose `filename` is a string and whose `format` is exactly "png" or "jpeg"; the result carries those two values |
| `DownloadConfig.Load` | app/page.tsx:77-94 | stored settings replace the current ones exactly when the stored text is non-empty, parses and passes the shape test; otherwise, including on a parse error, the current settings are kept |
| `DownloadConfig.LoadRejectsBadShape` | app/page.tsx:81-93 | a value that parses but fails the shape test leaves the settings as they were |
| `DownloadConfig.LoadStoredRoundTrip` | app/page.tsx:96-106 | loading the JSON object the page stores for some settings gives those settings back |
| `DownloadConfig.LoadDiscardsGif` | app/page.tsx:50-53 | a stored `{filename: "", format: "gif"}` leaves the defaults `doc-master-document`/png in place |
| `DownloadConfig.Lead` | app/page.tsx:248-249 | counts the leading white space: every character before it is white space and the next one is not |
| `DownloadConfig.Trail` | app/page.tsx:248-249 | counts the trailing white space: every character after the cut is white space and the one before it is not |
| `DownloadConfig.Trim` | app/page.tsx:248-249 | the trimmed name neither starts nor ends with white space, and it is empty exactly when the name is all white space |
| `DownloadConfig.TrimIdempotent` | app/page.tsx:248-249 | trimming twice is trimming once |
| `DownloadConfig.TrimIsInfix` | app/page.tsx:248-249 | the trimmed name is a contiguous part of the name with only white space before and after it |
| `DownloadConfig.BaseName` | app/page.tsx:248-249 | the base name is never empty and never starts or ends with white space; it is the default name exactly when the trimmed name is blank or already equals the default |
| `DownloadConfig.Extension` | app/page.tsx:247 | the extension is "jpg" exactly for JPEG |
| `DownloadConfig.Mime` | app/page.tsx:245-246 | the MIME type is "image/" followed by the format's name |
| `DownloadConfig.DownloadName` | app/page.tsx:253 | the file name is longer than its extension and ends in ".jpg" for JPEG and ".png" for PNG |
| `DownloadConfig.DownloadNameShape` | app/page.tsx:245-253 | the file name is the trimmed name, or the default when that is blank, followed by ".jpg" for JPEG and ".png" for PNG |
| `DownloadConfig.MimeMatchesExtension` | app/page.tsx:245-247 | the MIME type and the extension always name the same format |
| `Compositor.ImageOps` | app/page.tsx:128-133 | one image's six commands open with a save, draw that image fifth and close with a restore |
| `Compositor.ImageOpsBracketed` | app/page.tsx:128-133 | between that save and that restore there is no other save or restore |
| `Compositor.CompositionOps` | app/page.tsx:116-148 | every composition starts with the white page; a front image that fails to load ends it there; with no images nothing follows the white page; when everything loads and there is a back image, the back image is the last thing drawn |
| `Compositor.CompositionOutcome` | app/page.tsx:139-150 | the composition returns the canvas exactly when every present image loads, and rejects otherwise |
| `Compositor.Canvas.Issue` | app/page.tsx:117-132 | each 2D-context call appends that one command to the canvas's log |
| `Compositor.ImageOpsTransformed` | app/page.tsx:128-131 | after the save and the three transform calls the context holds the surface's transform followed by the image's own translate, rotate and scale, with the entry state saved, and nothing has been painted |
| `Compositor.ImageOpsIsolated` | app/page.tsx:121-141 | drawing one image paints it once, under the surface's transform followed by its own translate, rotate and scale, and leaves the context exactly as it found it |
| `Compositor.BackgroundPaints` | app/page.tsx:116-119 | the first three commands clear, then fill white, the whole 616 x 1056 page |
| `Compositor.CompositionPaints` | app/page.tsx:109-151 | a successful composition paints the white page, then the front image, then the back image, each under its own transform only, and leaves the context's transform and save stack as they were |
| `Compositor.NoImagesWhitePage` | app/page.tsx:116-148 | with no images the composition is the white page alone and succeeds |
| `Compositor.CompositionShape` | app/page.tsx:109-151 | every composition starts with the white page; it succeeds exactly when every present image loads; a front image that fails to load stops the back image from being drawn |
| `Compositor.Canvas.DrawPlacement` | app/page.tsx:121-141 | a loaded image adds the save, translate, rotate, scale, draw, restore bracket to the canvas; an image that fails to load adds nothing and reports failure |
| `Compositor.Canvas.PaintBackground` | app/page.tsx:116-119 | the canvas receives the clear, the white fill style and the fill of the whole page, in that order |
| `Compositor.Canvas.DrawIfPresent` | app/page.tsx:143-148 | an empty slot adds nothing and succeeds; a present image is drawn as `DrawPlacement` draws it, and the call succeeds exactly when it loads |
| `Compositor.Render` | app/page.tsx:109-151 | with no canvas or no 2D context, nothing is drawn and the result is null; otherwise the canvas receives exactly the composition's commands and the result is the canvas or a rejection |

## Findings

| source | as written | input that shows it | evidently intended | confidence | as-written member | corrected member |
|---|---|---|---|---|---|---|
| app/page.tsx:857-883 | The four resize handles are children of the crop box. A mouse-down on a handle bubbles to the box, whose handler calls `startDrag(e, "move")` after the handle's call. The batched `setDragMode` keeps the last value, so the drag is a move. | a mouse-down on any corner handle, e.g. the north-west one | a press on a handle starts that corner's resize (the handle stops propagation) | high, not executed | `CropSession.ResizeUnreachableAsWritten` | `CropSession.HandleStartsResize` |

The as-written press is also a method, `CropSession.CropTool.MouseDownAsWritten`.
The dialog's press handler, `CropSession.CropTool.MouseDown`, uses the corrected
dispatch.

## Left out

- Reading the selected file (`FileReader`) is not modelled. An upload starts from the data URL it produces.
- Reading and writing local storage is not modelled. `Load` takes the stored text and `JSON.parse` as parameters. `persistDownloadSettings` and the file-name and format controls only set the record and write it to storage.
- `removeBackground` is a network request to the background-removal endpoint, so it is not modelled. On success it ends in `UpdateImage` with a new source.
- The print window, the `setTimeout` before printing and the click on the download link are not modelled.
- Pixel data is not modelled: what `drawImage` samples and what `toDataURL` encodes. The cropped image arrives in `CropSave` as a string.
- Rotation is kept in degrees. The conversion to radians through `Math.PI` is floating point.
- All coordinates are exact reals, so floating-point rounding is not modelled.
- `CropSession.CropTool.ExecuteCrop`: does not model the DOM converting a fractional crop width or height to the canvas's integer width and height.
- Layout is not modelled: the `ResizeObserver` preview scale, and the conversion from `clientX`/`clientY` and `getBoundingClientRect` to image-local coordinates. Pointer positions and the image box are inputs.
- `Compositor.Render`: runs one composition from start to end as a single step. The page awaits each image load, and printing and downloading share the one hidden canvas. Two overlapping compositions can therefore interleave their commands; for example, one composition's clear and fill can land between another's front and back images. That interleaving is not modelled.
- Exceptions thrown by the canvas calls inside `drawImageOnCanvas` are not modelled. Such a throw would leave a `save` without its `restore`.
- `DownloadConfig.Validate`: ignores extra keys of the stored object, and `Settings` and `ToJson` have no place for them. The page adopts the stored object with its extra keys. The file-name and format controls spread it into the next settings, and every save, including the one after a download, writes those keys back to storage. So an object that once held extra keys keeps them; `ToJson`'s two-key object is what the page stores only for settings that never had any.
- The asynchronous ordering of React state updates across events is not modelled. This includes stale closures over `images` in the upload callback.
- The JSX rendering is not modelled, except what the crop dialog's press dispatch needs (`CropSession.Target`).
- The other pages, the navigation, the footer, the layout, the manifest and the background-removal route are not part of this model.
