/** Image buffers and the crop slice `edited[y0:y1, x0:x1]`.

    A buffer is OpenCV's height x width x 3 array of 8-bit BGR pixels,
    modelled as a rectangular sequence of rows. */
module Raster {
  import opened Geometry

  newtype byte = x: int | 0 <= x < 256

  datatype Pixel = Pixel(b: byte, g: byte, r: byte)

  predicate Rectangular(rows: seq<seq<Pixel>>) {
    forall i | 0 <= i < |rows| :: |rows[i]| == |rows[0]|
  }

  /** A buffer: every row has the same number of pixels. */
  type Image = rows: seq<seq<Pixel>> | Rectangular(rows) witness []

  function Height(img: Image): nat {
    |img|
  }

  function Width(img: Image): nat {
    if |img| == 0 then 0 else |img[0]|
  }

  /** A half-open range `[lo, hi)` of indices. */
  datatype Span = Span(lo: nat, hi: nat)

  /** One bound of a Python slice made concrete for a sequence of length
      `len`: a negative bound counts from the end, and the result is
      clamped to `[0, len]`. */
  function ClampIndex(i: int, len: nat): (j: nat)
    ensures j <= len
    ensures 0 <= i ==> j == Min(i, len)
    ensures i < 0 ==> j == Max(i + len, 0)
  {
    if i < 0 then
      (if i + len < 0 then 0 else i + len)
    else if i > len then len
    else i
  }

  /** The indices `range(len)[start:stop]` selects: never out of range, and
      empty when the stop bound lies before the start bound. */
  function SliceSpan(start: int, stop: int, len: nat): (s: Span)
    ensures s.lo <= s.hi <= len
    ensures s.lo == ClampIndex(start, len)
    ensures ClampIndex(stop, len) >= s.lo ==> s.hi == ClampIndex(stop, len)
    ensures ClampIndex(stop, len) < s.lo ==> s.hi == s.lo
  {
    var lo := ClampIndex(start, len);
    var hi := ClampIndex(stop, len);
    Span(lo, if hi < lo then lo else hi)
  }

  /** The numpy slice `img[rect.y0:rect.y1, rect.x0:rect.x1]` (app.py:148-150):
      the rows of the row span, each cut to the column span. */
  function Crop(img: Image, rect: Rect): (r: Image)
    ensures var rows := SliceSpan(rect.y0, rect.y1, Height(img));
      var cols := SliceSpan(rect.x0, rect.x1, Width(img));
      && |r| == rows.hi - rows.lo
      && (forall k | 0 <= k < |r| :: |r[k]| == cols.hi - cols.lo)
      && forall k, j | 0 <= k < |r| && 0 <= j < |r[k]| :: r[k][j] == img[rows.lo + k][cols.lo + j]
  {
    var rows := SliceSpan(rect.y0, rect.y1, Height(img));
    var cols := SliceSpan(rect.x0, rect.x1, Width(img));
    var out := seq(rows.hi - rows.lo, k requires 0 <= k < rows.hi - rows.lo => img[rows.lo + k][cols.lo..cols.hi]);
    assert Rectangular(out) by {
      forall k | 0 <= k < |out|
        ensures |out[k]| == cols.hi - cols.lo
      {
        assert |img[rows.lo + k]| == Width(img);
      }
    }
    out
  }

  /** For a selection with non-negative corners, as a drag inside the
      canvas produces, the crop holds rows `[y0, min(y1, H))` and columns
      `[x0, min(x1, W))` of the image. */
  lemma CropInsideCanvas(img: Image, rect: Rect)
    requires 0 <= rect.x0 <= rect.x1 && 0 <= rect.y0 <= rect.y1
    ensures Height(Crop(img, rect)) == Min(rect.y1, Height(img)) - Min(rect.y0, Height(img))
    ensures forall k | 0 <= k < Height(Crop(img, rect)) ::
      |Crop(img, rect)[k]| == Min(rect.x1, Width(img)) - Min(rect.x0, Width(img))
    ensures forall k, j | 0 <= k < Height(Crop(img, rect)) && 0 <= j < |Crop(img, rect)[k]| ::
      Crop(img, rect)[k][j] == img[rect.y0 + k][rect.x0 + j]
  {
  }

  /** Selecting the whole image gives the image back. */
  lemma CropWhole(img: Image)
    ensures Crop(img, Rect(0, 0, Width(img), Height(img))) == img
  {
    var c := Crop(img, Rect(0, 0, Width(img), Height(img)));
    assert |c| == |img|;
    forall k | 0 <= k < |c|
      ensures c[k] == img[k]
    {
      assert |img[k]| == Width(img);
      assert |c[k]| == |img[k]|;
    }
  }
}
