/**
 * The one calculation of the report pages that is not drawing: fitting a
 * diagram into a box on the page, keeping its aspect ratio and centring it.
 */
module ReportWriter {
  import opened Common

  /** The size the image is resized to and the page position of its top-left corner. */
  datatype Placement = Placement(width: int, height: int, x: int, y: int)

  /**
   * Fits an image of imgW x imgH pixels into the box (left, right, top,
   * bottom). An image wider than the box, relative to its height, takes the
   * box's width and is centred vertically; any other takes the box's height
   * and is centred horizontally. Every size and offset is truncated toward
   * zero. None is a division by zero: a box of height 0, an image of height 0,
   * or an image of width 0 compared against a box with a negative aspect ratio.
   */
  function FitImage(imgW: int, imgH: int, left: int, right: int, top: int, bottom: int): (r: Option<Placement>)
    ensures r.None? ==> top == bottom || imgH == 0 || imgW == 0
    ensures r.Some? ==> r.value.width == right - left || r.value.height == bottom - top
  {
    var boxW := (right - left) as real;
    var boxH := (bottom - top) as real;
    if boxH == 0.0 || imgH == 0 then None
    else
      var boxAspect := boxW / boxH;
      var imgAspect := imgW as real / imgH as real;
      if imgAspect > boxAspect then
        if imgAspect == 0.0 then None
        else
          var h := Trunc(boxW / imgAspect);
          Some(Placement(right - left, h, left, top + Trunc(boxH / 2.0 - h as real / 2.0)))
      else
        var w := Trunc(boxH * imgAspect);
        Some(Placement(w, bottom - top, left + Trunc(boxW / 2.0 - w as real / 2.0), top))
  }

  /** The image is wider than the box when compared by aspect ratio, stated without division. */
  predicate Wider(imgW: int, imgH: int, left: int, right: int, top: int, bottom: int)
  {
    imgW * (bottom - top) > (right - left) * imgH
  }

  /** With positive sizes, comparing aspect ratios is comparing cross products. */
  lemma AspectCompare(a: real, b: real, c: real, d: real)
    requires b > 0.0 && d > 0.0
    ensures a / b > c / d <==> a * d > c * b
  {
    var p, q := a / b, c / d;
    assert a == p * b && c == q * d;
    assert a * d == p * (b * d) && c * b == q * (b * d);
    assert b * d > 0.0;
    if p > q {
      MultiplyStrict(p, q, b * d);
    } else {
      MultiplyMono(p, q, b * d);
    }
  }

  lemma MultiplyStrict(p: real, q: real, m: real)
    requires p > q && m > 0.0
    ensures p * m > q * m
  {
    assert p * m - q * m == (p - q) * m;
  }

  lemma MultiplyMono(p: real, q: real, m: real)
    requires p <= q && m > 0.0
    ensures p * m <= q * m
  {
    assert q * m - p * m == (q - p) * m;
  }

  /**
   * A centring offset: truncating half the slack leaves at least as much
   * room after the image as before it, and at most one pixel more.
   */
  lemma CentredOffset(slack: int)
    requires slack >= 0
    ensures var o := Trunc(slack as real / 2.0);
      0 <= o && 0 <= slack - 2 * o <= 1
  {
  }

  /** The offset that centres a length `inner` in a length `outer`, as the page layout computes it. */
  lemma CentredIn(outer: int, inner: int)
    requires 0 <= inner <= outer
    ensures var o := Trunc(outer as real / 2.0 - inner as real / 2.0);
      0 <= o && 0 <= (outer - inner - o) - o <= 1
  {
    assert outer as real / 2.0 - inner as real / 2.0 == (outer - inner) as real / 2.0;
    CentredOffset(outer - inner);
  }

  /** A length q within the box, truncated, fits the box and is centred in it to within one pixel. */
  lemma TruncatedFits(q: real, outer: int)
    requires 0.0 <= q <= outer as real
    ensures var n := Trunc(q);
      && n as real <= q < n as real + 1.0
      && 0 <= n <= outer
      && var o := Trunc(outer as real / 2.0 - n as real / 2.0);
      0 <= o && 0 <= (outer - n - o) - o <= 1
  {
    CentredIn(outer, Trunc(q));
  }

  /** In the wide case, the box width over the image aspect is the aspect-true height, and it is below the box height. */
  lemma WideHeight(imgW: real, imgH: real, boxW: real, boxH: real)
    requires imgW > 0.0 && imgH > 0.0 && boxW > 0.0 && boxH > 0.0
    requires imgW * boxH > boxW * imgH
    ensures imgW / imgH > boxW / boxH
    ensures boxW / (imgW / imgH) == boxW * imgH / imgW < boxH
  {
    AspectCompare(imgW, imgH, boxW, boxH);
    var ia := imgW / imgH;
    assert ia * imgH == imgW;
    assert boxW / ia == boxW * imgH / imgW;
    CrossBound(boxW, imgH, imgW, boxH);
  }

  /** In the other case, the box height times the image aspect is the aspect-true width, and it is at most the box width. */
  lemma TallWidth(imgW: real, imgH: real, boxW: real, boxH: real)
    requires imgW >= 0.0 && imgH > 0.0 && boxW > 0.0 && boxH > 0.0
    requires imgW * boxH <= boxW * imgH
    ensures !(imgW / imgH > boxW / boxH)
    ensures boxH * (imgW / imgH) == boxH * imgW / imgH <= boxW
  {
    AspectCompare(imgW, imgH, boxW, boxH);
    CrossBoundWeak(boxH, imgW, imgH, boxW);
  }

  /** The wide branch, with the height written without the nested division. */
  lemma FitWideForm(imgW: int, imgH: int, left: int, right: int, top: int, bottom: int)
    requires left < right && top < bottom && imgW > 0 && imgH > 0
    requires imgW as real / imgH as real > (right - left) as real / (bottom - top) as real
    requires (right - left) as real / (imgW as real / imgH as real) == (right - left) as real * imgH as real / imgW as real
    ensures var h := Trunc((right - left) as real * imgH as real / imgW as real);
      FitImage(imgW, imgH, left, right, top, bottom)
      == Some(Placement(right - left, h, left, top + Trunc((bottom - top) as real / 2.0 - h as real / 2.0)))
  {
  }

  /** The other branch, with the width written without the nested division. */
  lemma FitTallForm(imgW: int, imgH: int, left: int, right: int, top: int, bottom: int)
    requires left < right && top < bottom && imgW >= 0 && imgH > 0
    requires !(imgW as real / imgH as real > (right - left) as real / (bottom - top) as real)
    requires (bottom - top) as real * (imgW as real / imgH as real) == (bottom - top) as real * imgW as real / imgH as real
    ensures var w := Trunc((bottom - top) as real * imgW as real / imgH as real);
      FitImage(imgW, imgH, left, right, top, bottom)
      == Some(Placement(w, bottom - top, left + Trunc((right - left) as real / 2.0 - w as real / 2.0), top))
  {
  }

  /** The wide branch's placement, with its aspect-true height shown to lie within the box. */
  lemma WidePlacement(imgW: int, imgH: int, left: int, right: int, top: int, bottom: int)
    requires left < right && top < bottom && imgW > 0 && imgH > 0
    requires Wider(imgW, imgH, left, right, top, bottom)
    ensures var q := (right - left) as real * imgH as real / imgW as real;
      && 0.0 <= q <= (bottom - top) as real
      && FitImage(imgW, imgH, left, right, top, bottom)
         == Some(Placement(right - left, Trunc(q), left, top + Trunc((bottom - top) as real / 2.0 - Trunc(q) as real / 2.0)))
  {
    var boxW, boxH := (right - left) as real, (bottom - top) as real;
    WiderInReals(imgW, imgH, left, right, top, bottom);
    WideHeight(imgW as real, imgH as real, boxW, boxH);
    NonNegQuotient(boxW, imgH as real, imgW as real);
    FitWideForm(imgW, imgH, left, right, top, bottom);
  }

  /** The other branch's placement, with its aspect-true width shown to lie within the box. */
  lemma TallPlacement(imgW: int, imgH: int, left: int, right: int, top: int, bottom: int)
    requires left < right && top < bottom && imgW >= 0 && imgH > 0
    requires !Wider(imgW, imgH, left, right, top, bottom)
    ensures var q := (bottom - top) as real * imgW as real / imgH as real;
      && 0.0 <= q <= (right - left) as real
      && FitImage(imgW, imgH, left, right, top, bottom)
         == Some(Placement(Trunc(q), bottom - top, left + Trunc((right - left) as real / 2.0 - Trunc(q) as real / 2.0), top))
  {
    var boxW, boxH := (right - left) as real, (bottom - top) as real;
    WiderInReals(imgW, imgH, left, right, top, bottom);
    TallWidth(imgW as real, imgH as real, boxW, boxH);
    NonNegQuotient(boxH, imgW as real, imgH as real);
    FitTallForm(imgW, imgH, left, right, top, bottom);
  }

  /**
   * An image wider than a proper box fills the box's width at its left edge
   * and is centred vertically; its height is the aspect-true height,
   * truncated, so it fits the box.
   */
  lemma FitWide(imgW: int, imgH: int, left: int, right: int, top: int, bottom: int)
    requires left < right && top < bottom && imgW > 0 && imgH > 0
    requires Wider(imgW, imgH, left, right, top, bottom)
    ensures var r := FitImage(imgW, imgH, left, right, top, bottom);
      && r.Some?
      && r.value.width == right - left && r.value.x == left
      && r.value.height as real <= (right - left) as real * imgH as real / imgW as real < r.value.height as real + 1.0
      && 0 <= r.value.height <= bottom - top
      && top <= r.value.y
      && 0 <= (bottom - (r.value.y + r.value.height)) - (r.value.y - top) <= 1
  {
    WidePlacement(imgW, imgH, left, right, top, bottom);
    TruncatedFits((right - left) as real * imgH as real / imgW as real, bottom - top);
  }

  /**
   * Any other image in a proper box fills the box's height at its top edge
   * and is centred horizontally; its width is the aspect-true width,
   * truncated, so it fits the box.
   */
  lemma FitTall(imgW: int, imgH: int, left: int, right: int, top: int, bottom: int)
    requires left < right && top < bottom && imgW >= 0 && imgH > 0
    requires !Wider(imgW, imgH, left, right, top, bottom)
    ensures var r := FitImage(imgW, imgH, left, right, top, bottom);
      && r.Some?
      && r.value.height == bottom - top && r.value.y == top
      && r.value.width as real <= (bottom - top) as real * imgW as real / imgH as real < r.value.width as real + 1.0
      && 0 <= r.value.width <= right - left
      && left <= r.value.x
      && 0 <= (right - (r.value.x + r.value.width)) - (r.value.x - left) <= 1
  {
    TallPlacement(imgW, imgH, left, right, top, bottom);
    TruncatedFits((bottom - top) as real * imgW as real / imgH as real, right - left);
  }

  /** a * b / c is not negative for a, b >= 0 and c > 0. */
  lemma NonNegQuotient(a: real, b: real, c: real)
    requires a >= 0.0 && b >= 0.0 && c > 0.0
    ensures a * b / c >= 0.0
  {
    if b > 0.0 {
      MultiplyMono(0.0, a, b);
    }
    var q := a * b / c;
    assert q * c == a * b;
    if q < 0.0 {
      MultiplyStrict(0.0, q, c);
    }
  }

  /** Wider, read in the reals. */
  lemma WiderInReals(imgW: int, imgH: int, left: int, right: int, top: int, bottom: int)
    ensures Wider(imgW, imgH, left, right, top, bottom)
      <==> imgW as real * (bottom - top) as real > (right - left) as real * imgH as real
  {
    CastProduct(imgW, bottom - top);
    CastProduct(right - left, imgH);
  }

  lemma CastProduct(a: int, b: int)
    ensures (a * b) as real == a as real * b as real
  {
  }

  /** w * h / W < H when W * H exceeds w * h. */
  lemma CrossBound(w: real, h: real, bigW: real, bigH: real)
    requires bigW > 0.0
    requires bigW * bigH > w * h
    ensures w * h / bigW < bigH
  {
    var q := w * h / bigW;
    assert q * bigW == w * h;
    if q >= bigH {
      MultiplyMono(bigH, q, bigW);
    }
  }

  /** h * w / H <= W when H * W is at least h * w. */
  lemma CrossBoundWeak(h: real, w: real, bigH: real, bigW: real)
    requires bigH > 0.0
    requires h * w <= bigW * bigH
    ensures h * w / bigH <= bigW
  {
    var q := h * w / bigH;
    assert q * bigH == h * w;
    if q > bigW {
      MultiplyStrict(q, bigW, bigH);
    }
  }

  /** For a proper box and image, the fitted image lies entirely inside the box. */
  lemma FitImageInsideBox(imgW: int, imgH: int, left: int, right: int, top: int, bottom: int)
    requires left < right && top < bottom && imgW > 0 && imgH > 0
    ensures var r := FitImage(imgW, imgH, left, right, top, bottom);
      && r.Some?
      && 0 <= r.value.width && 0 <= r.value.height
      && left <= r.value.x && r.value.x + r.value.width <= right
      && top <= r.value.y && r.value.y + r.value.height <= bottom
  {
    if Wider(imgW, imgH, left, right, top, bottom) {
      FitWide(imgW, imgH, left, right, top, bottom);
    } else {
      FitTall(imgW, imgH, left, right, top, bottom);
    }
  }
}
