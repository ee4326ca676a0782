# Image editor: edit state and preview geometry

A Dafny model of the logic in a small tkinter/OpenCV photo editor
(`app.py`) that sits around the library calls. It covers four pieces.

- **Preview sizing and the view ratio.** `display_image` scales a buffer
  into a 300 x 400 canvas box. It stores `ratio = height / preview height`,
  and later gestures use that ratio to map canvas coordinates to source
  pixels.
- **Selection normalisation.** `end_crop` and `end_text_crop` turn a drag
  in any of four directions into a rectangle whose start is at most its end
  on each axis.
- **The crop slice.** `edited[y0:y1, x0:x1]` follows Python's slice rules:
  a negative bound counts from the end, and every bound is clamped.
- **The three-buffer edit machine.** The slots are `original` (the decoded
  file), `edited` (the last applied result) and `filtered` (the preview).
  The model covers upload, the menu actions and their "no image" guard, the
  canvas gestures, the side-panel previews, apply, cancel and revert.
  Blur sliders round even values to odd kernel sizes.

The vision library is a parameter, `Vision.Library`. It is any function from
an operation and an input buffer to an output buffer, or to `None` when the
call raises. The model therefore pins down which buffer each action reads and
writes, not what the pixels become.

Modules: `Options` (the optional slot value), `Geometry` (sizes, ratio,
coordinate mapping, selection), `Raster` (buffers and the crop slice),
`Vision` (library operations and kernel rounding), `Editor` (state and
actions), `EditorLaws` (properties that span several actions).

Behaviour of the code that is easy to miss, all of which the model keeps:

- The preview is not bounded by 300 x 400. Any oversized image at least as
  tall as it is wide gets the portrait branch, so 1000 x 1000 is shown at
  400 x 400.
  An image wider than 300 that is at least as tall as it is wide but under
  400 tall is even enlarged: 350 x 380 is shown at 368 x 400.
- A file that does not decode empties `original` only. `edited` and
  `filtered` keep the previous work.
- Only the main-menu and footer actions and the text placement
  (`end_text_crop`) check for a loaded image. The side-panel previews and
  the crop and draw gestures have no guard. After a failed upload they still
  preview from `edited` or `filtered`, while emboss and sepia fail because
  they read the empty `original`.
- Emboss and sepia read `original`, not `edited`. The model keeps that.
- Opening the blur or adjust panel is not free of side effects. A new Tk
  scale runs its command once when it is first displayed, with its current
  value, even if that value never changed. The blur panel therefore previews
  averaging, Gaussian and median blur with kernel 1 on `edited`, in that
  order. The adjust panel previews brightness 1.0 and then saturation 0.0.
  The last preview that succeeds is left in `filtered`, and a pending
  rotation or flip preview is lost.
- Both axes are scaled by the height ratio. With the ratio read as an exact
  rational, the corner round trip is exact on the y axis. On the x axis it is within one pixel plus one ratio
  unit for portrait and fitting images, but a landscape preview's right
  edge can map well past the source width.
- `int()` truncates toward zero. Canvas coordinates can be negative when
  the drag leaves the canvas, so the model uses truncation, not floor.
  Truncation keeps order, so start <= end still holds.

## Model

| member | source | states |
|---|---|---|
| Geometry.PreviewSize | app.py:444-455 | An image that fits the box keeps its size. An oversized landscape image (h < w) is exactly 300 wide and its height is the floor of 300·h/w, so it is below 300. Otherwise the preview is exactly 400 high and its width is the floor of 400·w/h, at most 400. |
| Geometry.PreviewPositive | app.py:449-456 | The preview has at least one row iff h > 0 and w <= 300·h. It has at least one column iff h <= 400·w. |
| Geometry.ViewRatio | app.py:444-456 | The stored ratio exists iff 0 < h and 0 < w <= 300·h. Otherwise display raises before storing it: an empty buffer fails the colour conversion at line 444, and a preview with no rows divides by zero at line 456. When it exists it is h over the preview height. |
| Geometry.Renders | app.py:444-457 | Display runs to completion iff 0 < h, 0 < w <= 300·h and h <= 400·w. With a zero-width preview the resize raises after the ratio was stored. |
| Geometry.Trunc | app.py:129-132 | `int()` of n/d truncates toward zero. For n >= 0 the result q meets q·d <= n < q·d + d. For n < 0 it meets q·d - d < n <= q·d. |
| Geometry.ToSource | app.py:129-147 | `int(c * ratio)` truncates c·num/den toward zero. For c >= 0 the result x meets x·den <= c·num < x·den + den. For c < 0 it meets x·den - den < c·num <= x·den. |
| Geometry.TruncMonotone | app.py:129-147 | Truncating division keeps the order of its dividends. |
| Geometry.ToSourceMonotone | app.py:129-147 | Mapping a canvas coordinate to source pixels keeps order. |
| Geometry.Normalize | app.py:127-147 | On each axis the four drag-direction branches give start = int(min·ratio) and end = int(max·ratio), so start <= end on both axes. |
| Geometry.NormalizeIgnoresDragDirection | app.py:127-147 | Swapping the two corners, or pairing them crosswise, gives the same rectangle. |
| Geometry.NormalizeExample | app.py:127-147 | A drag from (50,50) to (10,80) at ratio 1 selects (10,50)-(50,80). |
| Geometry.TruncExact | app.py:456 | Truncating an exact multiple k·d by d gives back k. |
| Geometry.FittingImageIsUnscaled | app.py:445-456 | An image within 300 x 400 is shown at its own size with ratio 1, and every canvas coordinate maps to itself. |
| Geometry.BottomEdgeMapsBack | app.py:456 | With the exact rational ratio, the preview's bottom edge maps back to exactly the source height. |
| Geometry.RightEdgeMapsBack | app.py:449-456 | For a portrait or fitting image, the right edge maps back to at most the source width, and less than one pixel plus one ratio unit short of it. |
| Geometry.PortraitExample | app.py:449-456 | A 600-wide, 900-high image is shown at 266 x 400 with ratio 900/400 = 2.25. |
| Geometry.SquareExceedsBoxWidth | app.py:449-455 | A 1000 x 1000 image is shown at 400 x 400, wider than the 300-pixel box. |
| Geometry.PortraitCanEnlarge | app.py:449-455 | A 350-wide, 380-high image is shown at 368 x 400, larger than the source. |
| Geometry.LandscapeRightEdgeOvershoots | app.py:449-456 | A 1000-wide, 333-high image has ratio 333/99, and the preview's right edge x = 300 maps to 1009, past the width. |
| Raster.ClampIndex | app.py:148-149 | A slice bound is clamped into [0, len]. A non-negative bound becomes min(bound, len). A negative bound counts from the end and becomes max(bound + len, 0). |
| Raster.SliceSpan | app.py:148-149 | Python's slice of range(len) is a span lo <= hi <= len. lo is the clamped start. hi is the clamped stop, raised to lo when it falls before it. |
| Raster.Crop | app.py:148-150 | The crop has one row per index of the row span, each as wide as the column span. Pixel (k, j) is source pixel (row lo + k, column lo + j). |
| Raster.CropInsideCanvas | app.py:148-150 | For non-negative, normalised bounds the crop is rows [y0, min(y1,H)) and columns [x0, min(x1,W)), starting at source pixel (y0, x0). |
| Raster.CropWhole | app.py:148-150 | Selecting the full rectangle returns the image unchanged. |
| Vision.KernelSize | app.py:365-368 | The kernel size is odd and is either the slider value or one more. It equals the value exactly when the value is odd. It is at least 1 for non-negative values. |
| Vision.KernelSizeIdempotent | app.py:365-383 | Rounding an already rounded kernel size changes nothing. |
| Vision.KernelSizeExamples | app.py:372-375 | Slider 4 gives kernel 5, 5 stays 5, and 0 gives 1. |
| Vision.TextOrDefault | app.py:190 | The text written is never empty. It is the entry when the entry is non-empty and "hello" otherwise. |
| Editor.Request | app.py:365-383 | The three blur sliders request their blur with the rounded kernel size, so every requested blur kernel is odd. |
| Editor.Show | app.py:437-456 | Displaying a buffer changes only the stored ratio. The new ratio is the shown buffer's ratio, or the old one when computing it raises. |
| Editor.UploadAction | app.py:69-83 | A cancelled dialog changes nothing. An undecodable file empties `original` and leaves `edited` and `filtered` as they were. A decoded image fills all three slots with the same image and stores its ratio. |
| Editor.Refresh | app.py:227-239 | Refreshing the side panel unbinds the canvas and changes only the ratio, which becomes the ratio of `edited`. |
| Editor.MenuAction | app.py:85-306 | Without a loaded image nothing changes. Menus never touch `original` or `edited`, and only the blur and adjust menus touch `filtered`. Crop binds the crop gesture from the origin and keeps the ratio. The other menus refresh first, which unbinds the canvas. When the refresh raises, nothing more happens, so the canvas stays unbound. Otherwise text binds its gesture and resets both drag corners to the origin, draw binds its gesture, and filter, rotate and flip change nothing beyond the refresh. When its refresh completes, the blur menu runs its three sliders' commands at 0 and the adjust menu runs brightness 1.0 and then saturation 0.0, all on `edited`. `filtered` ends as the last of these previews that succeeded, or stays as it was when none did. |
| Editor.PressEvent | app.py:116-215 | A press starts the crop or text drag, or puts down the pen in draw mode. It changes nothing else. |
| Editor.MotionEvent | app.py:120-224 | A drag moves the drag end. In draw mode with a pen and a preview, the stroke from the mapped pen position to the mapped mouse position, with thickness int(2·ratio), replaces `filtered` and moves the pen. When the stroke raises, or there is no pen or preview, nothing changes. `edited`, `original` and the ratio never change. |
| Editor.ReleaseEvent | app.py:127-195 | In crop mode `filtered` becomes the crop of `edited` at the normalised selection, and that crop is shown. In text mode, with a loaded image, `filtered` becomes the library's text write on `edited` at the selection's top-left corner and is shown. Without a loaded image, or when the write raises, nothing changes. `edited` and `original` are untouched. |
| Editor.Reads | app.py:323-410 | Emboss and sepia read `original`. The rotate and flip buttons read `filtered`. Every other control reads `edited`. |
| Editor.PreviewAction | app.py:323-410 | `filtered` becomes the requested operation applied to the slot the control reads, and the result is shown. Only `filtered` and the ratio change. An empty slot or a raising library call changes nothing. |
| Editor.ApplyAction | app.py:413-419 | With a loaded image, `edited` becomes the preview and the ratio becomes the preview's ratio, or stays when computing it raises. Nothing but `edited` and the ratio changes. |
| Editor.CancelAction | app.py:421-426 | No slot changes, so the cancelled preview stays in `filtered`. The ratio becomes that of `edited`. |
| Editor.RevertAction | app.py:428-435 | With a loaded image, `edited` and `filtered` both become `original`, and the ratio becomes the ratio of `original`, or stays when computing it raises. Without one, nothing changes. |
| EditorLaws.StepPreservesValid | app.py:69-435 | Every action keeps `edited` and `filtered` filled together, and keeps `original` filled only alongside them. |
| EditorLaws.RunPreservesValid | app.py:69-435 | The same holds after any sequence of actions. |
| EditorLaws.OnlyUploadWritesOriginal | app.py:73-79 | No action other than upload changes `original`. |
| EditorLaws.RunKeepsOriginal | app.py:73-79 | A sequence of actions without an upload leaves `original` as it was. |
| EditorLaws.RevertUndoesAllEdits | app.py:428-435 | After any upload-free sequence of edits, revert makes `edited` and `filtered` equal to the uploaded image. |
| EditorLaws.GrayApplyRevertScenario | app.py:327-435 | Upload, black-and-white preview, apply, revert: all three slots hold the uploaded image. |
| EditorLaws.ApplyThenCancel | app.py:413-426 | Cancelling right after applying keeps the applied result and the preview. |
| EditorLaws.FailedUploadLocksActions | app.py:73-77 | After an undecodable file, `edited` and `filtered` keep the previous work, and every menu, apply, cancel and revert is refused. |
| EditorLaws.PreviewIgnoresGuard | app.py:323-393 | A preview that reads `edited` still works when `original` is empty. |
| EditorLaws.EmbossNeedsOriginal | app.py:340-348 | With `original` empty, emboss and sepia change nothing. |
| EditorLaws.EmbossReadsOriginal | app.py:340-348 | With `original` filled, emboss and sepia preview the library's result on `original` and leave `edited` alone. |
| EditorLaws.OpeningAdjustPreviewsSaturation | app.py:294-306 | Opening the adjust panel leaves `filtered` at saturation 0.0 of `edited`, because the saturation slider's command runs after the brightness slider's. `edited` is unchanged. |
| EditorLaws.OpeningBlurPreviewsMedian | app.py:259-271 | Opening the blur panel leaves `filtered` at the median blur with kernel 1 of `edited`, because the median slider's command runs last, at value 0. `edited` is unchanged. |
| EditorLaws.AdjustMenuDropsRotation | app.py:294-419 | A rotation previewed, then the adjust panel opened, then apply: the committed image is saturation 0.0 of `edited`, and the rotation is lost. |
| EditorLaws.BlurMenuDropsRotation | app.py:259-419 | A rotation previewed, then the blur panel opened, then apply: the committed image is the median blur with kernel 1 of `edited`, and the rotation is lost. |
| EditorLaws.PreviewsDoNotCompose | app.py:323-393 | Two filter, blur or adjust previews in a row leave the second one's result: each starts again from `edited`. |
| EditorLaws.RotationsAccumulate | app.py:396-398 | Two left rotations compose on `filtered` while `edited` stays put. |
| EditorLaws.EvenSliderBlursOdd | app.py:365-370 | The averaging slider at 4 blurs `edited` with a 5 x 5 kernel. |
| EditorLaws.CropThenApply | app.py:127-151 | A crop release previews the selected part of `edited` without changing `edited` or `original`. Applying then makes the crop the working image. |
| EditorLaws.DragSelectsRectangle | app.py:116-151 | Press, drag and release in crop mode preview the crop of `edited` at the normalised rectangle of the two points. |
| EditorLaws.ClickReusesPreviousEnd | app.py:116-151 | A click without a drag crops between the click and the previous drag's end. |
| EditorLaws.CropUsesLastShownRatio | app.py:127-151 | After a rotated preview, a crop of `edited` maps the drag through the rotated preview's ratio, because that was shown last. |

## Left out

- The tkinter interface is not modelled: widgets, layout, the canvas rectangles and lines drawn while dragging, dialogs, message boxes and the status label. Which side panel is visible is not modelled either, so every preview control is treated as available.
- The vision library's pixel kernels (blur, threshold, morphology, stylisation, filter2D, rotate, flip, putText, line, resize, colour conversion) are foreign calls. They appear only as the `Library` parameter.
- Geometry.PreviewSize: reads the float products `int(300 * ratio)` and `int(400 / ratio)` as exact quotients. Float rounding at an exact integer boundary is not modelled.
- Geometry.ViewRatio: the stored ratio is an exact rational, not the rounded float that `height / new_height` yields.
- Geometry.BottomEdgeMapsBack: the exact round trip holds only for the exact rational ratio. With the float `height / new_height`, a 402-high portrait image has a 400-high preview and `int(400 * (402 / 400))` is 401, one pixel short.
- Brightness alpha and saturation beta are float slider values. They are passed to the library as opaque `real`s.
- The colour, font face, font size and line type given to putText and line are not modelled, so `choose_color` and `update_font_size` are left out. The chosen text and its position are modelled.
- `save_action` is left out: it writes the file and changes no buffer. `cv2.imread` decoding is reduced to the three outcomes of `FileChoice`.
- Editor.MotionEvent: treats the stroke as a new value of `filtered` only. After a crop, `filtered` is a numpy view into `edited`, so an in-place stroke drawn before apply may also write into `edited`. That sharing is not modelled.
- `font_size_slider` also runs `update_font_size` when the text panel is first displayed, but font size is not modelled.
- `<ButtonPress>` fires for any mouse button, while `<B1-Motion>` fires only for the left one. The model has one press event.
- Exceptions are modelled only by their effect on the state: an assignment whose right-hand side raises does not happen, and later statements of that handler do not run.
