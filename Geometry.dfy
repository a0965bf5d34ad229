/**
 * The arithmetic of the full-page and area captures: rounding CSS pixels to device pixels,
 * the scroll offsets along one axis, the canvas limits, the rectangle of each tile and the
 * clamped crop rectangle.
 */
module Geometry {
  import opened Wrappers
  import opened ListOps

  const MaxCanvasEdge: int := 32000
  const MaxCanvasPixels: int := 268000000

  function Min(a: int, b: int): int { if a <= b then a else b }
  function Max(a: int, b: int): int { if a >= b then a else b }

  /** `Math.round` on a finite value: the nearest integer, halves rounded up. */
  function Round(v: real): int {
    (v + 0.5).Floor
  }

  /** The rounded value is within half a pixel below and under half a pixel above. */
  lemma RoundNearest(v: real)
    ensures Round(v) as real - 0.5 <= v < Round(v) as real + 0.5
  {
  }

  lemma RoundOfInt(n: int)
    ensures Round(n as real) == n
  {
  }

  lemma RoundMonotone(a: real, b: real)
    requires a <= b
    ensures Round(a) <= Round(b)
  {
    RoundNearest(a);
    RoundNearest(b);
  }

  /** Rounding two parts separately overshoots rounding their sum by at most one. */
  lemma RoundSum(a: real, b: real)
    ensures Round(a) + Round(b) <= Round(a + b) + 1
  {
    RoundNearest(a);
    RoundNearest(b);
    RoundNearest(a + b);
  }

  lemma ScaleMonotone(a: int, b: int, d: real)
    requires a <= b && d > 0.0
    ensures a as real * d <= b as real * d
  {
    assert b as real * d - a as real * d == (b - a) as real * d;
  }

  /** `Math.round(v * dpr)` for a CSS coordinate that need not be whole. */
  function Scaled(v: real, dpr: real): int {
    Round(v * dpr)
  }

  /** A whole CSS length in device pixels. */
  function Device(size: int, dpr: real): int {
    Scaled(size as real, dpr)
  }

  lemma DeviceMonotone(a: int, b: int, d: real)
    requires a <= b && d > 0.0
    ensures Device(a, d) <= Device(b, d)
  {
    ScaleMonotone(a, b, d);
    RoundMonotone(a as real * d, b as real * d);
  }

  lemma DeviceSum(a: int, b: int, d: real)
    ensures Device(a, d) + Device(b, d) <= Device(a + b, d) + 1
  {
    assert a as real * d + b as real * d == (a + b) as real * d;
    RoundSum(a as real * d, b as real * d);
  }

  /** With a whole-number ratio the conversion is exact. */
  lemma DeviceWhole(n: int, k: int)
    ensures Device(n, k as real) == n * k
  {
    assert n as real * k as real == (n * k) as real;
    RoundOfInt(n * k);
  }

  /** `clamp(value, min, max)`, i.e. `Math.min(Math.max(value, min), max)`. */
  function Clamp(v: int, lo: int, hi: int): (r: int)
    ensures r <= hi
    ensures lo <= hi ==> lo <= r
    ensures lo <= v <= hi ==> r == v
    ensures v < lo <= hi ==> r == lo
    ensures hi < v ==> r == hi
  {
    Min(Max(v, lo), hi)
  }

  // ---------------------------------------------------------------------------
  // Scroll offsets along one axis
  // ---------------------------------------------------------------------------

  /** The first `n` multiples of the viewport. */
  function Multiples(viewport: int, n: nat): (r: seq<int>)
    ensures |r| == n
  {
    seq(n, k => k * viewport)
  }

  /**
   * The offsets `buildPositions` produces when the page is longer than the viewport:
   * the multiples of the viewport that lie below `total - viewport`, then `total - viewport`.
   */
  function Ladder(total: int, viewport: int): seq<int>
    requires total > viewport > 0
  {
    Multiples(viewport, (total - 1) / viewport) + [total - viewport]
  }

  function AxisPositions(total: int, viewport: int): seq<int>
    requires total <= viewport || viewport > 0
  {
    if total <= viewport then [0] else Ladder(total, viewport)
  }

  /** What the loop of `buildPositions` pushes before the duplicates are dropped. */
  function Pushed(total: int, viewport: int, n: nat): (r: seq<int>)
    ensures |r| == n
  {
    seq(n, k => Min(k * viewport, total - viewport))
  }

  lemma MulMonotone(a: int, b: int, c: int)
    requires a <= b && c >= 0
    ensures a * c <= b * c
  {
    assert b * c - a * c == (b - a) * c;
  }

  /** The multiples of the viewport below `total - viewport` are exactly the first `(total - 1) / viewport`. */
  lemma LadderSplit(total: int, viewport: int, k: int)
    requires total > viewport > 0 && k >= 0
    ensures k < (total - 1) / viewport <==> k * viewport < total - viewport
  {
    var m := (total - 1) / viewport;
    assert m * viewport <= total - 1 < m * viewport + viewport;
    if k < m {
      MulMonotone(k, m - 1, viewport);
      assert (m - 1) * viewport == m * viewport - viewport;
    } else {
      MulMonotone(m, k, viewport);
    }
  }

  lemma PushedSnoc(total: int, viewport: int, n: nat)
    ensures Pushed(total, viewport, n + 1) == Pushed(total, viewport, n) + [Min(n * viewport, total - viewport)]
  {
  }

  lemma MultiplesSnoc(viewport: int, n: nat)
    ensures Multiples(viewport, n + 1) == Multiples(viewport, n) + [n * viewport]
  {
  }

  /** Below the ladder's top every pushed value is a distinct multiple, smaller than the next one. */
  lemma PushedBelow(total: int, viewport: int, n: nat, bound: int)
    requires total > viewport > 0 && n <= (total - 1) / viewport
    requires n * viewport <= bound
    ensures bound !in Pushed(total, viewport, n)
  {
    var p := Pushed(total, viewport, n);
    forall k | 0 <= k < n ensures p[k] < bound {
      LadderSplit(total, viewport, k);
      MulMonotone(k + 1, n, viewport);
      assert (k + 1) * viewport == k * viewport + viewport;
    }
  }

  lemma DedupPushedBelow(total: int, viewport: int, n: nat)
    requires total > viewport > 0 && n < (total - 1) / viewport
    requires Dedup(Pushed(total, viewport, n)) == Multiples(viewport, n)
    ensures Dedup(Pushed(total, viewport, n + 1)) == Multiples(viewport, n + 1)
  {
    var p := Pushed(total, viewport, n);
    var v := n * viewport;
    LadderSplit(total, viewport, n);
    PushedSnoc(total, viewport, n);
    PushedBelow(total, viewport, n, v);
    DedupSnoc(p, v);
    MultiplesSnoc(viewport, n);
  }

  lemma DedupPushedTop(total: int, viewport: int, n: nat)
    requires total > viewport > 0 && n == (total - 1) / viewport
    requires Dedup(Pushed(total, viewport, n)) == Multiples(viewport, n)
    ensures Dedup(Pushed(total, viewport, n + 1)) == Ladder(total, viewport)
  {
    var p := Pushed(total, viewport, n);
    var x := total - viewport;
    LadderSplit(total, viewport, n);
    PushedSnoc(total, viewport, n);
    forall k | 0 <= k < n ensures p[k] < x {
      LadderSplit(total, viewport, k);
    }
    DedupSnoc(p, x);
  }

  lemma DedupPushedAbove(total: int, viewport: int, n: nat)
    requires total > viewport > 0 && n > (total - 1) / viewport
    requires Dedup(Pushed(total, viewport, n)) == Ladder(total, viewport)
    ensures Dedup(Pushed(total, viewport, n + 1)) == Ladder(total, viewport)
  {
    var m := (total - 1) / viewport;
    var p := Pushed(total, viewport, n);
    var x := total - viewport;
    LadderSplit(total, viewport, n);
    LadderSplit(total, viewport, m);
    PushedSnoc(total, viewport, n);
    assert p[m] == x;
    DedupSnoc(p, x);
  }

  lemma DedupPushedStep(total: int, viewport: int, n: nat)
    requires total > viewport > 0
    requires Dedup(Pushed(total, viewport, n))
      == if n <= (total - 1) / viewport then Multiples(viewport, n) else Ladder(total, viewport)
    ensures Dedup(Pushed(total, viewport, n + 1))
      == if n + 1 <= (total - 1) / viewport then Multiples(viewport, n + 1) else Ladder(total, viewport)
  {
    var m := (total - 1) / viewport;
    if n < m {
      DedupPushedBelow(total, viewport, n);
    } else if n == m {
      DedupPushedTop(total, viewport, n);
    } else {
      DedupPushedAbove(total, viewport, n);
    }
  }

  lemma {:induction false} DedupPushed(total: int, viewport: int, n: nat)
    requires total > viewport > 0
    ensures Dedup(Pushed(total, viewport, n))
      == if n <= (total - 1) / viewport then Multiples(viewport, n) else Ladder(total, viewport)
  {
    if n > 0 {
      DedupPushed(total, viewport, n - 1);
      DedupPushedStep(total, viewport, n - 1);
    }
  }

  /** `buildPositions(totalSize, viewportSize)`: push `min(value, total - viewport)` per viewport step, then drop duplicates. */
  method BuildPositions(total: int, viewport: int) returns (positions: seq<int>)
    requires total <= viewport || viewport > 0
    ensures positions == AxisPositions(total, viewport)
  {
    if total <= viewport {
      return [0];
    }
    var pushed: seq<int> := [];
    var value := 0;
    while value < total
      invariant value == |pushed| * viewport
      invariant value - viewport < total
      invariant pushed == Pushed(total, viewport, |pushed|)
      decreases total - value
    {
      pushed := pushed + [Min(value, total - viewport)];
      value := value + viewport;
    }
    var m := (total - 1) / viewport;
    assert m * viewport <= total - 1;
    if |pushed| <= m {
      MulMonotone(|pushed|, m, viewport);
    }
    DedupPushed(total, viewport, |pushed|);
    positions := Dedup(pushed);
  }

  /**
   * The offsets start at 0, end at `total - viewport`, stay in that range, rise strictly,
   * and no two neighbours are more than one viewport apart.
   */
  lemma LadderShape(total: int, viewport: int)
    requires total > viewport > 0
    ensures var l := Ladder(total, viewport);
      |l| >= 2 && l[0] == 0 && l[|l| - 1] == total - viewport
      && (forall i :: 0 <= i < |l| ==> 0 <= l[i] <= total - viewport)
      && (forall i :: 0 <= i < |l| - 1 ==> l[i] < l[i + 1] <= l[i] + viewport)
  {
    var l := Ladder(total, viewport);
    var m := (total - 1) / viewport;
    assert m >= 1;
    forall i | 0 <= i < |l| ensures 0 <= l[i] <= total - viewport {
      if i < m {
        LadderSplit(total, viewport, i);
      }
    }
    forall i | 0 <= i < |l| - 1 ensures l[i] < l[i + 1] <= l[i] + viewport {
      LadderSplit(total, viewport, i);
      if i + 1 < m {
        assert l[i + 1] == i * viewport + viewport;
      } else {
        LadderSplit(total, viewport, i + 1);
      }
    }
  }

  lemma AxisPositionsStrictlyIncreasing(total: int, viewport: int)
    requires total <= viewport || viewport > 0
    ensures var p := AxisPositions(total, viewport);
      NoDups(p) && forall i, j :: 0 <= i < j < |p| ==> p[i] < p[j]
  {
    if total > viewport {
      var p := AxisPositions(total, viewport);
      LadderShape(total, viewport);
      forall i, j | 0 <= i < j < |p| ensures p[i] < p[j] {
        var k := i;
        while k < j - 1
          invariant i <= k < j && p[i] <= p[k]
        {
          k := k + 1;
        }
      }
    }
  }

  /** Every CSS pixel of the axis lies in the window of some offset: the viewports cover the page. */
  lemma CoveringOffset(total: int, viewport: int, p: int) returns (i: nat)
    requires viewport > 0 && 0 <= p < total
    ensures i < |AxisPositions(total, viewport)|
    ensures AxisPositions(total, viewport)[i] <= p < AxisPositions(total, viewport)[i] + viewport
  {
    if total <= viewport {
      return 0;
    }
    var l := Ladder(total, viewport);
    var m := (total - 1) / viewport;
    LadderShape(total, viewport);
    if p >= total - viewport {
      return m;
    }
    i := p / viewport;
    assert i * viewport <= p < i * viewport + viewport;
    assert i * viewport < total - viewport;
    LadderSplit(total, viewport, i);
  }

  lemma PositionsExample()
    ensures AxisPositions(1000, 400) == [0, 400, 600]
  {
    assert (1000 - 1) / 400 == 2;
    assert Ladder(1000, 400) == [0 * 400, 1 * 400] + [600];
  }

  // ---------------------------------------------------------------------------
  // Canvas limits and tiles
  // ---------------------------------------------------------------------------

  /** What `getPageMetrics` reports, in CSS pixels except for the device pixel ratio. */
  datatype Metrics = Metrics(
    pageWidth: int, pageHeight: int,
    viewportWidth: int, viewportHeight: int,
    dpr: real,
    originalX: int, originalY: int)

  /** Metrics as measured in the page: the page is at least as large as the viewport. */
  predicate Measured(m: Metrics) {
    m.viewportWidth > 0 && m.viewportHeight > 0
    && m.pageWidth >= m.viewportWidth && m.pageHeight >= m.viewportHeight
    && m.dpr > 0.0
  }

  /** The body of `getPageMetrics`: the largest of the document, body, client and window extents. */
  function MeasurePage(docScroll: int, bodyScroll: Option<int>, client: int, inner: int): (page: int)
    ensures page >= docScroll && page >= client && page >= inner
    ensures bodyScroll.Some? ==> page >= bodyScroll.value
    ensures page == docScroll || page == client || page == inner || page == bodyScroll.GetOr(0)
  {
    Max(Max(Max(docScroll, bodyScroll.GetOr(0)), client), inner)
  }

  /** `Math.max(1, Math.round(size * dpr))`: one canvas edge in device pixels. */
  function CanvasEdge(size: int, dpr: real): int {
    Max(1, Device(size, dpr))
  }

  datatype BoundsError = TooLarge | OverMemory

  function BoundsMessage(e: BoundsError): string {
    match e
    case TooLarge => "Page is too large to export as a single image in this browser."
    case OverMemory => "Page capture exceeds memory limits. Try visible or selected area capture."
  }

  /** `validateCanvasBounds`: the edge limit is checked before the pixel budget. */
  function ValidateCanvasBounds(m: Metrics): (r: Result<(), BoundsError>)
    ensures var w, h := Device(m.pageWidth, m.dpr), Device(m.pageHeight, m.dpr);
      && (r == Err(TooLarge) <==> (w > MaxCanvasEdge || h > MaxCanvasEdge))
      && (r == Err(OverMemory) <==> (w <= MaxCanvasEdge && h <= MaxCanvasEdge && w * h > MaxCanvasPixels))
  {
    var w := Device(m.pageWidth, m.dpr);
    var h := Device(m.pageHeight, m.dpr);
    if w > MaxCanvasEdge || h > MaxCanvasEdge then Err(TooLarge)
    else if w * h > MaxCanvasPixels then Err(OverMemory)
    else Ok(())
  }

  lemma CanvasArea(rw: int, rh: int)
    requires 0 <= rw <= MaxCanvasEdge && 0 <= rh <= MaxCanvasEdge && rw * rh <= MaxCanvasPixels
    ensures Max(1, rw) * Max(1, rh) <= MaxCanvasPixels
  {
    if rw == 0 && rh == 0 {
    } else if rw == 0 {
      assert Max(1, rw) * Max(1, rh) == rh;
    } else if rh == 0 {
      assert Max(1, rw) * Max(1, rh) == rw;
    } else {
      assert Max(1, rw) * Max(1, rh) == rw * rh;
    }
  }

  /** A page that passes validation gets a canvas within both limits. */
  lemma ValidatedCanvasFits(m: Metrics)
    requires Measured(m) && ValidateCanvasBounds(m).Ok?
    ensures var w, h := CanvasEdge(m.pageWidth, m.dpr), CanvasEdge(m.pageHeight, m.dpr);
      1 <= w <= MaxCanvasEdge && 1 <= h <= MaxCanvasEdge && w * h <= MaxCanvasPixels
  {
    DeviceMonotone(0, m.pageWidth, m.dpr);
    DeviceMonotone(0, m.pageHeight, m.dpr);
    CanvasArea(Device(m.pageWidth, m.dpr), Device(m.pageHeight, m.dpr));
  }

  /** `Math.min(viewport, page - offset)`: the CSS size of the tile taken at `offset`. */
  function TileCss(page: int, viewport: int, offset: int): int {
    Min(viewport, page - offset)
  }

  /** Where a tile lands on the canvas along one axis, and how many device pixels it spans. */
  datatype Span = Span(start: int, size: int)

  function TileSpan(page: int, viewport: int, offset: int, dpr: real): (s: Span)
    ensures s.size >= 1
  {
    Span(Device(offset, dpr), Max(1, Device(TileCss(page, viewport, offset), dpr)))
  }

  /** Each tile's CSS clip ends at or before the page edge, and is one full viewport when the page is longer. */
  lemma TileWithinPage(page: int, viewport: int, i: nat)
    requires page >= 0 && viewport > 0 && i < |AxisPositions(page, viewport)|
    ensures var o := AxisPositions(page, viewport)[i];
      0 <= o && o + TileCss(page, viewport, o) <= page
      && TileCss(page, viewport, o) == (if page > viewport then viewport else page)
  {
    if page > viewport {
      LadderShape(page, viewport);
    }
  }

  /** The device-pixel rectangle of a tile starts on the canvas and ends at most one pixel past it. */
  lemma TileSpanNearCanvas(page: int, viewport: int, dpr: real, i: nat)
    requires page >= 0 && viewport > 0 && dpr > 0.0 && i < |AxisPositions(page, viewport)|
    ensures var s := TileSpan(page, viewport, AxisPositions(page, viewport)[i], dpr);
      0 <= s.start && s.start + s.size <= CanvasEdge(page, dpr) + 1
  {
    var o := AxisPositions(page, viewport)[i];
    var t := TileCss(page, viewport, o);
    TileWithinPage(page, viewport, i);
    DeviceMonotone(0, o, dpr);
    DeviceMonotone(o, page, dpr);
    DeviceMonotone(o + t, page, dpr);
    DeviceSum(o, t, dpr);
  }

  /** With a whole-number device pixel ratio a tile never passes the canvas edge. */
  lemma TileSpanInsideCanvas(page: int, viewport: int, k: int, i: nat)
    requires page >= 0 && viewport > 0 && k >= 1 && i < |AxisPositions(page, viewport)|
    ensures var o := AxisPositions(page, viewport)[i];
      var s := TileSpan(page, viewport, o, k as real);
      s == Span(o * k, Max(1, TileCss(page, viewport, o) * k))
      && 0 <= s.start && s.start + s.size <= CanvasEdge(page, k as real)
  {
    var o := AxisPositions(page, viewport)[i];
    var t := TileCss(page, viewport, o);
    TileWithinPage(page, viewport, i);
    DeviceWhole(o, k);
    DeviceWhole(t, k);
    DeviceWhole(page, k);
    MulMonotone(o + t, page, k);
    assert (o + t) * k == o * k + t * k;
    MulMonotone(0, o, k);
    if t >= 1 {
      MulMonotone(1, t, k);
    }
  }

  /** With a whole-number device pixel ratio the tiles cover every canvas pixel of the axis. */
  lemma CoveringTile(page: int, viewport: int, k: int, c: int) returns (i: nat)
    requires page >= 0 && viewport > 0 && k >= 1 && 0 <= c < CanvasEdge(page, k as real)
    ensures i < |AxisPositions(page, viewport)|
    ensures var s := TileSpan(page, viewport, AxisPositions(page, viewport)[i], k as real);
      s.start <= c < s.start + s.size
  {
    DeviceWhole(page, k);
    if page == 0 {
      i := 0;
      TileSpanInsideCanvas(page, viewport, k, 0);
      return;
    }
    assert c < page * k;
    var p := c / k;
    assert p * k <= c < p * k + k;
    if p >= page {
      MulMonotone(page, p, k);
    }
    i := CoveringOffset(page, viewport, p);
    CoveringTileAt(page, viewport, k, c, p, i);
  }

  lemma CoveringTileAt(page: int, viewport: int, k: int, c: int, p: int, i: nat)
    requires page >= 1 && viewport > 0 && k >= 1 && 0 <= p < page
    requires p * k <= c < p * k + k
    requires i < |AxisPositions(page, viewport)|
    requires AxisPositions(page, viewport)[i] <= p < AxisPositions(page, viewport)[i] + viewport
    ensures var s := TileSpan(page, viewport, AxisPositions(page, viewport)[i], k as real);
      s.start <= c < s.start + s.size
  {
    var o := AxisPositions(page, viewport)[i];
    var t := TileCss(page, viewport, o);
    assert t >= 1 && p + 1 <= o + t;
    SpanCovers(o, t, k, c, p);
  }

  /** A tile spanning CSS pixels `o` to `o + t` covers, in device pixels, every pixel of the CSS pixels inside it. */
  lemma SpanCovers(o: int, t: int, k: int, c: int, p: int)
    requires k >= 1 && t >= 1 && o <= p && p + 1 <= o + t
    requires p * k <= c < p * k + k
    ensures Device(o, k as real) <= c < Device(o, k as real) + Max(1, Device(t, k as real))
  {
    DeviceWhole(o, k);
    DeviceWhole(t, k);
    MulMonotone(o, p, k);
    MulMonotone(p + 1, o + t, k);
    MulMonotone(1, t, k);
    assert (p + 1) * k == p * k + k;
    assert (o + t) * k == o * k + t * k;
  }

  // ---------------------------------------------------------------------------
  // Crop rectangle of an area capture
  // ---------------------------------------------------------------------------

  /** The selected area in CSS pixels, with the page's device pixel ratio (`0.0` when the page gave none). */
  datatype Bounds = Bounds(x: real, y: real, width: real, height: real, dpr: real)

  /**
   * What the content script answers to "start-area-selection": `{ ok: true, bounds }`, or
   * `{ ok: false, error }` when the selection was cancelled.
   */
  datatype SelectionReply = Selected(bounds: Bounds) | Canceled(error: string)

  /** A source rectangle on the captured bitmap, in device pixels. */
  datatype Rect = Rect(x: int, y: int, w: int, h: int)

  /** One axis of the crop: the clamped start and the clamped length, in device pixels. */
  function CropAxis(pos: real, size: real, dpr: real, extent: int): (r: (int, int))
    ensures extent >= 1 ==> 0 <= r.0 <= extent - 1 && 1 <= r.1 <= extent - r.0
  {
    var s := Clamp(Scaled(pos, dpr), 0, extent - 1);
    (s, Clamp(Scaled(size, dpr), 1, extent - s))
  }

  /** A start and length that already fit the extent survive both clamps. */
  lemma CropAxisExact(start: int, len: int, extent: int)
    requires 0 <= start && 1 <= len && start + len <= extent
    ensures Clamp(start, 0, extent - 1) == start && Clamp(len, 1, extent - start) == len
  {
  }

  /** `bounds.devicePixelRatio || 1`. */
  function RatioOrOne(d: real): real {
    if d == 0.0 then 1.0 else d
  }

  /** The rectangle `cropDataUrl` copies out of a bitmap of `bw` by `bh` pixels. */
  function CropRect(bounds: Option<Bounds>, bw: int, bh: int): (r: Result<Rect, string>)
    ensures r.Err? <==> (bounds.None? || bounds.value.width < 4.0 || bounds.value.height < 4.0)
    ensures r.Err? ==> r.error == "Selection area is too small."
    ensures r.Ok? && bw >= 1 ==> 0 <= r.value.x <= bw - 1 && 1 <= r.value.w <= bw - r.value.x
    ensures r.Ok? && bh >= 1 ==> 0 <= r.value.y <= bh - 1 && 1 <= r.value.h <= bh - r.value.y
  {
    if bounds.None? || bounds.value.width < 4.0 || bounds.value.height < 4.0 then
      Err("Selection area is too small.")
    else
      var b := bounds.value;
      var dpr := RatioOrOne(b.dpr);
      var (sx, sw) := CropAxis(b.x, b.width, dpr, bw);
      var (sy, sh) := CropAxis(b.y, b.height, dpr, bh);
      Ok(Rect(sx, sy, sw, sh))
  }

  /** A selection that lies inside the bitmap at the page's ratio is cropped exactly as scaled. */
  lemma CropRectExact(b: Bounds, bw: int, bh: int)
    requires b.width >= 4.0 && b.height >= 4.0 && b.dpr > 0.0
    requires 0 <= Scaled(b.x, b.dpr) && 1 <= Scaled(b.width, b.dpr) && Scaled(b.x, b.dpr) + Scaled(b.width, b.dpr) <= bw
    requires 0 <= Scaled(b.y, b.dpr) && 1 <= Scaled(b.height, b.dpr) && Scaled(b.y, b.dpr) + Scaled(b.height, b.dpr) <= bh
    ensures CropRect(Some(b), bw, bh)
      == Ok(Rect(Scaled(b.x, b.dpr), Scaled(b.y, b.dpr), Scaled(b.width, b.dpr), Scaled(b.height, b.dpr)))
  {
    CropAxisExact(Scaled(b.x, b.dpr), Scaled(b.width, b.dpr), bw);
    CropAxisExact(Scaled(b.y, b.dpr), Scaled(b.height, b.dpr), bh);
  }
}
