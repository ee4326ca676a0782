/** The calls the editor makes into the vision library.

    The library's pixel kernels are not modelled: a `Library` is any
    function from an operation and an input buffer to an output buffer, or
    to None when the call raises. The editor model only decides which
    operation is requested and which buffer it reads. */
module Vision {
  import opened Options
  import opened Geometry
  import opened Raster

  datatype BlurKind = Averaging | Gaussian | Median

  datatype Op =
    | Negative                       // cv2.bitwise_not (app.py:324)
    | BlackAndWhite                  // BGR -> gray -> BGR (app.py:328-329)
    | Stylisation                    // cv2.stylization (app.py:333)
    | Sketch                         // cv2.pencilSketch, colour output (app.py:337)
    | Emboss                         // cv2.filter2D, emboss kernel (app.py:341-342)
    | Sepia                          // cv2.filter2D, sepia kernel (app.py:346-347)
    | BinaryThreshold                // cv2.threshold at 127 (app.py:351)
    | Erosion                        // cv2.erode, 5 x 5 (app.py:355-356)
    | Dilation                       // cv2.dilate, 5 x 5 (app.py:360-361)
    | Blur(kind: BlurKind, ksize: int)   // blur / GaussianBlur / medianBlur (app.py:369-383)
    | Brightness(alpha: real)        // cv2.convertScaleAbs alpha (app.py:388)
    | Saturation(beta: real)         // cv2.convertScaleAbs beta (app.py:392)
    | RotateLeft                     // cv2.rotate counter-clockwise (app.py:397)
    | RotateRight                    // cv2.rotate clockwise (app.py:401)
    | FlipVertical                   // cv2.flip(_, 0) (app.py:405)
    | FlipHorizontal                 // cv2.flip(_, 1) (app.py:409)
    | PutText(text: string, origin: Point)              // cv2.putText (app.py:193-194)
    | Line(from: Point, to: Point, thickness: int)      // cv2.line (app.py:220-222)

  /** The vision library: the buffer an operation produces, or None when
      the call raises. */
  type Library = (Op, Image) -> Option<Image>

  /** The kernel size a blur slider value becomes (app.py:366-368,
      app.py:373-375, app.py:380-382): the library only accepts odd sizes,
      so an even value is bumped to the next odd number. Python's `% 2`
      and Dafny's agree, since the divisor is positive. */
  function KernelSize(value: int): (k: int)
    ensures k % 2 == 1
    ensures k == value || k == value + 1
    ensures value % 2 == 1 <==> k == value
    ensures value >= 0 ==> k >= 1
  {
    if value % 2 == 0 then value + 1 else value
  }

  /** Rounding a size that is already odd changes nothing. */
  lemma KernelSizeIdempotent(value: int)
    ensures KernelSize(KernelSize(value)) == KernelSize(value)
  {
  }

  /** A slider at 4 blurs with a 5 x 5 kernel; at 0 with a 1 x 1 kernel. */
  lemma KernelSizeExamples()
    ensures KernelSize(4) == 5 && KernelSize(5) == 5 && KernelSize(0) == 1
  {
  }

  /** The text `end_text_crop` writes: the entry's contents, or "hello"
      when the entry is empty (app.py:190). */
  function TextOrDefault(entry: string): (text: string)
    ensures |text| > 0
    ensures entry != [] ==> text == entry
    ensures entry == [] ==> text == "hello"
  {
    if entry == [] then "hello" else entry
  }
}
