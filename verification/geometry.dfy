/** Preview sizing and coordinate mapping of the editor's canvas.

    An image is shown scaled into a 300 x 400 canvas box; the editor then
    remembers `ratio = source height / preview height` and uses it to map
    canvas coordinates of a mouse gesture back to source pixels. */
module Geometry {
  import opened Options

  /** The canvas box the preview is scaled into (app.py:54, app.py:449-455). */
  const BoxWidth: nat := 300
  const BoxHeight: nat := 400

  type Positive = n: int | n > 0 witness 1

  datatype Size = Size(width: nat, height: nat)

  /** A scale factor read as the exact rational `num / den`. */
  datatype Ratio = Ratio(num: nat, den: Positive)

  /** The ratio the editor starts with (app.py:13). */
  const Unit: Ratio := Ratio(1, 1)

  datatype Point = Point(x: int, y: int)

  /** A selection in source coordinates, as the slice bounds `[y0:y1, x0:x1]`. */
  datatype Rect = Rect(x0: int, y0: int, x1: int, y1: int)

  function Min(a: int, b: int): int { if a <= b then a else b }
  function Max(a: int, b: int): int { if a <= b then b else a }

  /** Euclidean division bounds `q*d <= n < q*d + d` for `q = n / d`. */
  lemma DivBounds(n: int, d: Positive)
    ensures (n / d) * d <= n < (n / d) * d + d
  {
  }

  /** Cancelling a positive factor from a strict inequality. */
  lemma LessCancel(a: int, b: int, d: Positive)
    requires a * d < b * d
    ensures a < b
  {
  }

  /** Whether `display_image` has to scale the image down (app.py:449). */
  predicate Oversized(height: nat, width: nat) {
    height > BoxHeight || width > BoxWidth
  }

  /** Bounds on the floor of `box * num / den`, kept apart from the
      preview size so that no other proof has to redo this arithmetic. */
  lemma ScaledBounds(box: Positive, num: nat, den: Positive)
    ensures (box * num / den) * den <= box * num < (box * num / den) * den + den
    ensures num <= den ==> box * num / den <= box
    ensures num < den ==> box * num / den < box
  {
    var q := box * num / den;
    DivBounds(box * num, den);
    if num < den {
      MulMonotone(num + 1, den, box);
      LessCancel(q, box, den);
    } else if num == den {
      LessCancel(q, box + 1, den);
    }
  }

  /** One side of a scaled preview whose other side is pinned to `box`:
      the floor of `box * num / den`. It stays within `box` when
      `num <= den`, and below it when `num < den`. */
  function ScaledSide(box: Positive, num: nat, den: Positive): (q: nat)
    ensures q * den <= box * num < q * den + den
    ensures num <= den ==> q <= box
    ensures num < den ==> q < box
  {
    var q := box * num / den;
    ScaledBounds(box, num, den);
    q
  }

  /** The preview size `display_image` picks for a `height` x `width` buffer
      (app.py:445-455). `height / width < 1` decides between landscape and
      portrait; the float products `int(300 * ratio)` and `int(400 / ratio)`
      are read as the exact quotients `300*h/w` and `400*w/h`. */
  function PreviewSize(height: nat, width: Positive): (s: Size)
    ensures !Oversized(height, width) ==> s == Size(width, height)
    ensures Oversized(height, width) && height < width ==>
      && s.width == BoxWidth
      && s.height < BoxWidth
      && s.height * width <= BoxWidth * height < s.height * width + width
    ensures Oversized(height, width) && height >= width ==>
      && s.height == BoxHeight
      && s.width <= BoxHeight
      && s.width * height <= BoxHeight * width < s.width * height + height
  {
    if Oversized(height, width) then
      if height < width then Size(BoxWidth, ScaledSide(BoxWidth, height, width))
      else Size(ScaledSide(BoxHeight, width, height), BoxHeight)
    else
      Size(width, height)
  }

  /** When each side of the preview is at least one pixel. */
  lemma PreviewPositive(height: nat, width: Positive)
    ensures PreviewSize(height, width).height > 0 <==> 0 < height && width <= BoxWidth * height
    ensures PreviewSize(height, width).width > 0 <==> height <= BoxHeight * width
  {
    var s := PreviewSize(height, width);
    if Oversized(height, width) && height < width && s.height > 0 {
      MulMonotone(1, s.height, width);
    }
    if Oversized(height, width) && height >= width && s.width > 0 {
      MulMonotone(1, s.width, height);
    }
  }

  /** The ratio `display_image` stores for a `height` x `width` buffer
      (app.py:456), or None where it raises before storing it: an empty
      buffer, without rows or without columns, fails the colour conversion
      (app.py:444), and a preview without rows divides by zero (app.py:456). */
  function ViewRatio(height: nat, width: nat): (r: Option<Ratio>)
    ensures r.Some? <==> 0 < height && 0 < width <= BoxWidth * height
    ensures r.Some? ==> r.value.num == height && r.value.den == PreviewSize(height, width).height
  {
    if width == 0 then None
    else
      var s := PreviewSize(height, width);
      PreviewPositive(height, width);
      if s.height == 0 then None else Some(Ratio(height, s.height))
  }

  /** Whether `display_image` runs to completion: besides storing the ratio,
      `cv2.resize` (app.py:457) needs a preview at least one pixel wide. */
  function Renders(height: nat, width: nat): (ok: bool)
    ensures ok <==> 0 < height && 0 < width <= BoxWidth * height && height <= BoxHeight * width
  {
    ViewRatio(height, width).Some? && (PreviewPositive(height, width); PreviewSize(height, width).width > 0)
  }

  /** The sign of a product with a non-negative factor. */
  lemma MulSign(c: int, n: nat)
    ensures c >= 0 ==> c * n >= 0
    ensures c < 0 ==> c * n <= 0
  {
  }

  /** `(-k) * d == -(k * d)`, kept out of the solver's way. */
  lemma NegateProduct(k: int, d: int)
    ensures (-k) * d == -(k * d)
  {
  }

  /** Python's `int()` of the quotient `n / d`: truncation toward zero. */
  function Trunc(n: int, d: Positive): (q: int)
    ensures n >= 0 ==> 0 <= q && q * d <= n < q * d + d
    ensures n < 0 ==> q <= 0 && q * d - d < n <= q * d
  {
    if n >= 0 then
      DivBounds(n, d);
      n / d
    else
      var k := (-n) / d;
      DivBounds(-n, d);
      NegateProduct(k, d);
      -k
  }

  /** `int(c * self.ratio)`: a canvas coordinate mapped to source pixels
      (app.py:129-147, app.py:220-222). */
  function ToSource(c: int, r: Ratio): (x: int)
    ensures c >= 0 ==> 0 <= x && x * r.den <= c * r.num < x * r.den + r.den
    ensures c < 0 ==> x <= 0 && x * r.den - r.den < c * r.num <= x * r.den
  {
    MulSign(c, r.num);
    Trunc(c * r.num, r.den)
  }

  /** Multiplying by a positive factor keeps order. */
  lemma MulMonotone(a: int, b: int, d: Positive)
    requires a <= b
    ensures a * d <= b * d
    ensures (a + 1) * d == a * d + d
  {
  }

  /** Truncating division keeps the order of its dividends. */
  lemma TruncMonotone(m: int, n: int, d: Positive)
    requires m <= n
    ensures Trunc(m, d) <= Trunc(n, d)
  {
    var p, q := Trunc(m, d), Trunc(n, d);
    if p > q {
      MulMonotone(q + 1, p, d);
    }
  }

  /** Mapping to source coordinates keeps the order of canvas coordinates. */
  lemma ToSourceMonotone(a: int, b: int, r: Ratio)
    requires a <= b
    ensures ToSource(a, r) <= ToSource(b, r)
  {
    assert a * r.num <= b * r.num by {
      assert b * r.num - a * r.num == (b - a) * r.num;
    }
    TruncMonotone(a * r.num, b * r.num, r.den);
  }

  /** The selection `end_crop` and `end_text_crop` cut out of the source
      (app.py:127-147, app.py:170-189): one of four branches by drag
      direction, each scaling the corners by the current ratio. */
  function Normalize(start: Point, end: Point, r: Ratio): (rect: Rect)
    ensures rect.x0 == ToSource(Min(start.x, end.x), r) && rect.x1 == ToSource(Max(start.x, end.x), r)
    ensures rect.y0 == ToSource(Min(start.y, end.y), r) && rect.y1 == ToSource(Max(start.y, end.y), r)
    ensures rect.x0 <= rect.x1 && rect.y0 <= rect.y1
  {
    ToSourceMonotone(Min(start.x, end.x), Max(start.x, end.x), r);
    ToSourceMonotone(Min(start.y, end.y), Max(start.y, end.y), r);
    if start.x <= end.x && start.y <= end.y then
      Rect(ToSource(start.x, r), ToSource(start.y, r), ToSource(end.x, r), ToSource(end.y, r))
    else if start.x > end.x && start.y <= end.y then
      Rect(ToSource(end.x, r), ToSource(start.y, r), ToSource(start.x, r), ToSource(end.y, r))
    else if start.x <= end.x && start.y > end.y then
      Rect(ToSource(start.x, r), ToSource(end.y, r), ToSource(end.x, r), ToSource(start.y, r))
    else
      Rect(ToSource(end.x, r), ToSource(end.y, r), ToSource(start.x, r), ToSource(start.y, r))
  }

  /** A drag in either direction selects the same rectangle: only the two
      corners matter, not which one was pressed first. */
  lemma NormalizeIgnoresDragDirection(p: Point, q: Point, r: Ratio)
    ensures Normalize(p, q, r) == Normalize(q, p, r)
    ensures Normalize(p, q, r) == Normalize(Point(p.x, q.y), Point(q.x, p.y), r)
  {
  }

  /** Dragging from (50,50) to (10,80) at ratio 1 selects (10,50)-(50,80). */
  lemma NormalizeExample()
    ensures Normalize(Point(50, 50), Point(10, 80), Unit) == Rect(10, 50, 50, 80)
  {
  }

  /** Truncating an exact multiple gives back the factor. */
  lemma TruncExact(k: int, d: Positive)
    ensures Trunc(k * d, d) == k
  {
  }

  /** An image that fits the box is shown at its own size with ratio 1, so
      canvas and source coordinates coincide (app.py:447-449, app.py:456). */
  lemma FittingImageIsUnscaled(height: Positive, width: Positive, c: int)
    requires !Oversized(height, width)
    ensures PreviewSize(height, width) == Size(width, height)
    ensures ViewRatio(height, width) == Some(Ratio(height, height))
    ensures ToSource(c, ViewRatio(height, width).value) == c
  {
    TruncExact(c, height);
  }

  /** Mapping the preview's bottom edge back through the stored ratio gives
      exactly the source height (app.py:456). */
  lemma BottomEdgeMapsBack(height: nat, width: nat)
    requires ViewRatio(height, width).Some?
    ensures ToSource(PreviewSize(height, width).height, ViewRatio(height, width).value) == height
  {
    var s := PreviewSize(height, width);
    TruncExact(height, s.height);
  }

  /** For a portrait or fitting image the preview's right edge maps back to
      the source width up to one pixel plus one ratio unit. */
  lemma RightEdgeMapsBack(height: nat, width: nat)
    requires Renders(height, width)
    requires height >= width || !Oversized(height, width)
    ensures var x := ToSource(PreviewSize(height, width).width, ViewRatio(height, width).value);
      && x <= width
      && (width - x) * PreviewSize(height, width).height < height + PreviewSize(height, width).height
  {
    if !Oversized(height, width) {
      TruncExact(width, height);
    }
  }

  /** A 600 x 900 (width x height) image is shown at 266 x 400 with ratio
      900/400 = 2.25. */
  lemma PortraitExample()
    ensures PreviewSize(900, 600) == Size(266, 400)
    ensures ViewRatio(900, 600) == Some(Ratio(900, 400))
  {
  }

  /** The preview can be wider than the 300-pixel box: a 1000 x 1000 image
      is shown at 400 x 400, because squares take the portrait branch. */
  lemma SquareExceedsBoxWidth()
    ensures PreviewSize(1000, 1000) == Size(400, 400)
  {
  }

  /** An image wider than the box but at least as tall as it is wide is
      scaled to 400 rows, which can enlarge it: 350 x 380 is shown at
      368 x 400. */
  lemma PortraitCanEnlarge()
    ensures PreviewSize(380, 350) == Size(368, 400)
  {
  }

  /** Horizontal coordinates are scaled by the height ratio, so for a
      landscape image the preview's right edge can map well past the source
      width: 1000 x 333 is shown 300 x 99 and x = 300 maps to 1009. */
  lemma LandscapeRightEdgeOvershoots()
    ensures ViewRatio(333, 1000) == Some(Ratio(333, 99))
    ensures ToSource(300, Ratio(333, 99)) == 1009
  {
  }
}
