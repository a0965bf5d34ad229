/**
 * The drawing surfaces of the capture pipeline as grids of pixels, row by row: the
 * viewport frames `captureVisibleTab` returns, the stitching canvas and the crop canvas.
 * Image decoding and encoding are not modelled; `drawImage` is a 1:1 copy clipped to both
 * surfaces.
 */
module Raster {
  import opened Geometry

  type Pixel = int

  /** `#ffffff`, the fill of the stitching canvas. */
  const White: Pixel := 0xFFFFFF

  /** What an opaque canvas holds before anything is drawn on it. */
  const Black: Pixel := 0

  type Grid = seq<seq<Pixel>>

  predicate IsGrid(g: Grid, w: int, h: int) {
    |g| == h && forall r :: 0 <= r < |g| ==> |g[r]| == w
  }

  /** A `w` by `h` surface filled with `p` (`fillRect` over a fresh canvas). */
  function Fill(w: nat, h: nat, p: Pixel): (g: Grid)
    ensures IsGrid(g, w, h)
    ensures forall r, c :: 0 <= r < h && 0 <= c < w ==> g[r][c] == p
  {
    seq(h, _ => seq(w, _ => p))
  }

  /** Pixel (r, c) of `g`, or `outside` when (r, c) is not on `g`. */
  function At(g: Grid, r: int, c: int, outside: Pixel): Pixel {
    if 0 <= r < |g| && 0 <= c < |g[r]| then g[r][c] else outside
  }

  /** Pixel (r, c) of the destination receives a pixel of `src` placed at (dx, dy), clipped to `w` by `h`. */
  predicate InBlit(src: Grid, dx: int, dy: int, w: int, h: int, r: int, c: int) {
    dy <= r < dy + h && dx <= c < dx + w && r - dy < |src| && c - dx < |src[r - dy]|
  }

  /** `drawImage(src, 0, 0, w, h, dx, dy, w, h)`. */
  function Blit(dst: Grid, src: Grid, dx: int, dy: int, w: int, h: int): (g: Grid)
    ensures |g| == |dst| && forall r :: 0 <= r < |g| ==> |g[r]| == |dst[r]|
    ensures forall r, c :: 0 <= r < |g| && 0 <= c < |g[r]| ==>
      g[r][c] == if InBlit(src, dx, dy, w, h, r, c) then src[r - dy][c - dx] else dst[r][c]
  {
    seq(|dst|, r requires 0 <= r < |dst| =>
      seq(|dst[r]|, c requires 0 <= c < |dst[r]| =>
        if InBlit(src, dx, dy, w, h, r, c) then src[r - dy][c - dx] else dst[r][c]))
  }

  /** `drawImage(src, rect.x, rect.y, rect.w, rect.h, 0, 0, rect.w, rect.h)` onto a fresh opaque canvas. */
  function Crop(src: Grid, rect: Rect): (g: Grid)
    ensures IsGrid(g, Max(0, rect.w), Max(0, rect.h))
    ensures forall r, c :: 0 <= r < Max(0, rect.h) && 0 <= c < Max(0, rect.w) ==>
      g[r][c] == At(src, rect.y + r, rect.x + c, Black)
  {
    seq(Max(0, rect.h), r => seq(Max(0, rect.w), c => At(src, rect.y + r, rect.x + c, Black)))
  }

  /** The device-pixel extent of a viewport edge (the size of a captured frame). */
  function FrameEdge(viewport: int, dpr: real): nat {
    Max(0, Device(viewport, dpr))
  }

  /**
   * What `captureVisibleTab` returns while the page is scrolled to (x, y): the viewport's
   * device pixels of the page, whose own pixel at device position (r, c) is `render(r, c)`.
   */
  function Frame(render: (int, int) -> Pixel, vw: int, vh: int, dpr: real, x: int, y: int): (g: Grid)
    ensures IsGrid(g, FrameEdge(vw, dpr), FrameEdge(vh, dpr))
    ensures forall r, c :: 0 <= r < |g| && 0 <= c < |g[r]| ==> g[r][c] == render(Device(y, dpr) + r, Device(x, dpr) + c)
  {
    seq(FrameEdge(vh, dpr), r => seq(FrameEdge(vw, dpr), c => render(Device(y, dpr) + r, Device(x, dpr) + c)))
  }

  /** The whole page at device resolution: the image a perfect stitch produces. */
  function PageImage(render: (int, int) -> Pixel, w: nat, h: nat): (g: Grid)
    ensures IsGrid(g, w, h) && forall r, c :: 0 <= r < h && 0 <= c < w ==> g[r][c] == render(r, c)
  {
    seq(h, r => seq(w, c => render(r, c)))
  }

  // ---------------------------------------------------------------------------
  // Which canvas pixels a tile paints
  // ---------------------------------------------------------------------------

  /** Along one axis, the tile taken at `offset` paints pixel `p` of the canvas. */
  predicate AxisCovers(page: int, viewport: int, dpr: real, offset: int, p: int) {
    var s := TileSpan(page, viewport, offset, dpr);
    s.start <= p < s.start + s.size && p - s.start < Device(viewport, dpr)
  }

  /** The tile taken with the page scrolled to (x, y) paints canvas pixel (r, c). */
  predicate TileCovers(m: Metrics, x: int, y: int, r: int, c: int) {
    AxisCovers(m.pageHeight, m.viewportHeight, m.dpr, y, r) && AxisCovers(m.pageWidth, m.viewportWidth, m.dpr, x, c)
  }

  /** The frame captured at (x, y) holds the page's pixels. */
  function TileFrame(render: (int, int) -> Pixel, m: Metrics, x: int, y: int): Grid {
    Frame(render, m.viewportWidth, m.viewportHeight, m.dpr, x, y)
  }

  /** The `drawImage` call of the tile loop for the tile taken at (x, y). */
  function DrawTile(canvas: Grid, render: (int, int) -> Pixel, m: Metrics, x: int, y: int): Grid {
    var sx := TileSpan(m.pageWidth, m.viewportWidth, x, m.dpr);
    var sy := TileSpan(m.pageHeight, m.viewportHeight, y, m.dpr);
    Blit(canvas, TileFrame(render, m, x, y), sx.start, sy.start, sx.size, sy.size)
  }

  /** Every pixel of `g` is blank or the page's own pixel at that position. */
  ghost predicate Sound(g: Grid, render: (int, int) -> Pixel) {
    forall r, c :: 0 <= r < |g| && 0 <= c < |g[r]| ==> g[r][c] == White || g[r][c] == render(r, c)
  }

  /** Every pixel the tile taken at (x, y) paints holds the page's own pixel. */
  ghost predicate PaintedBy(g: Grid, render: (int, int) -> Pixel, m: Metrics, x: int, y: int) {
    forall r, c :: 0 <= r < |g| && 0 <= c < |g[r]| && TileCovers(m, x, y, r, c) ==> g[r][c] == render(r, c)
  }

  /** Pixels of `a` that already hold the page's pixel still do in `b`. */
  ghost predicate Keeps(a: Grid, b: Grid, render: (int, int) -> Pixel) {
    |a| == |b| && (forall r :: 0 <= r < |a| ==> |a[r]| == |b[r]|)
    && forall r, c :: 0 <= r < |a| && 0 <= c < |a[r]| && a[r][c] == render(r, c) ==> b[r][c] == render(r, c)
  }

  /**
   * Drawing a tile copies exactly the pixels it covers, and each copied pixel is the page's
   * pixel at its canvas position: the frame taken at (x, y) starts at device pixel
   * (`Round(y * dpr)`, `Round(x * dpr)`), which is where the tile is drawn.
   */
  lemma DrawTilePaints(canvas: Grid, render: (int, int) -> Pixel, m: Metrics, x: int, y: int)
    ensures var g := DrawTile(canvas, render, m, x, y);
      && |g| == |canvas| && (forall r :: 0 <= r < |g| ==> |g[r]| == |canvas[r]|)
      && forall r, c :: 0 <= r < |g| && 0 <= c < |g[r]| ==>
        g[r][c] == if TileCovers(m, x, y, r, c) then render(r, c) else canvas[r][c]
  {
    var f := TileFrame(render, m, x, y);
    var sx := TileSpan(m.pageWidth, m.viewportWidth, x, m.dpr);
    var sy := TileSpan(m.pageHeight, m.viewportHeight, y, m.dpr);
    var g := DrawTile(canvas, render, m, x, y);
    forall r, c | 0 <= r < |g| && 0 <= c < |g[r]|
      ensures g[r][c] == if TileCovers(m, x, y, r, c) then render(r, c) else canvas[r][c]
    {
      if InBlit(f, sx.start, sy.start, sx.size, sy.size, r, c) {
        assert f[r - sy.start][c - sx.start] == render(r, c);
      }
    }
  }

  /** Drawing a tile keeps a sound canvas sound, keeps every correct pixel, and makes the tile's pixels correct. */
  lemma DrawTileStep(canvas: Grid, render: (int, int) -> Pixel, m: Metrics, x: int, y: int)
    requires Sound(canvas, render)
    ensures var g := DrawTile(canvas, render, m, x, y);
      Sound(g, render) && Keeps(canvas, g, render) && PaintedBy(g, render, m, x, y)
  {
    DrawTilePaints(canvas, render, m, x, y);
  }

  lemma PaintedKept(a: Grid, b: Grid, render: (int, int) -> Pixel, m: Metrics, x: int, y: int)
    requires PaintedBy(a, render, m, x, y) && Keeps(a, b, render)
    ensures PaintedBy(b, render, m, x, y)
  {
  }

  lemma KeepsTrans(a: Grid, b: Grid, c: Grid, render: (int, int) -> Pixel)
    requires Keeps(a, b, render) && Keeps(b, c, render)
    ensures Keeps(a, c, render)
  {
  }

  lemma KeepsRefl(a: Grid, render: (int, int) -> Pixel)
    ensures Keeps(a, a, render)
  {
  }

  /** Every tile of the first `i` rows of the grid has been drawn on `g`. */
  ghost predicate RowsPainted(g: Grid, render: (int, int) -> Pixel, m: Metrics, xs: seq<int>, ys: seq<int>, i: nat) {
    forall p, q :: 0 <= p < i && p < |ys| && 0 <= q < |xs| ==> PaintedBy(g, render, m, xs[q], ys[p])
  }

  /** With a whole-number ratio, the tile whose span holds a pixel also holds it within its frame. */
  lemma AxisCoversWhole(page: int, viewport: int, k: int, i: nat, p: int)
    requires page >= viewport > 0 && k >= 1 && i < |AxisPositions(page, viewport)|
    requires var s := TileSpan(page, viewport, AxisPositions(page, viewport)[i], k as real);
      s.start <= p < s.start + s.size
    ensures AxisCovers(page, viewport, k as real, AxisPositions(page, viewport)[i], p)
  {
    var o := AxisPositions(page, viewport)[i];
    TileSpanInsideCanvas(page, viewport, k, i);
    TileWithinPage(page, viewport, i);
    DeviceWhole(viewport, k);
    MulMonotone(TileCss(page, viewport, o), viewport, k);
    MulMonotone(1, viewport, k);
  }

  /**
   * With a whole-number device pixel ratio, a canvas on which every tile of the grid has
   * been drawn is exactly the page.
   */
  lemma StitchedIsPage(g: Grid, render: (int, int) -> Pixel, m: Metrics, k: int)
    requires Measured(m) && k >= 1 && m.dpr == k as real
    requires IsGrid(g, CanvasEdge(m.pageWidth, m.dpr), CanvasEdge(m.pageHeight, m.dpr))
    requires var xs, ys := AxisPositions(m.pageWidth, m.viewportWidth), AxisPositions(m.pageHeight, m.viewportHeight);
      RowsPainted(g, render, m, xs, ys, |ys|)
    ensures g == PageImage(render, CanvasEdge(m.pageWidth, m.dpr), CanvasEdge(m.pageHeight, m.dpr))
  {
    var w, h := CanvasEdge(m.pageWidth, m.dpr), CanvasEdge(m.pageHeight, m.dpr);
    var xs, ys := AxisPositions(m.pageWidth, m.viewportWidth), AxisPositions(m.pageHeight, m.viewportHeight);
    forall r, c | 0 <= r < h && 0 <= c < w ensures g[r][c] == render(r, c) {
      var a := CoveringTile(m.pageHeight, m.viewportHeight, k, r);
      var b := CoveringTile(m.pageWidth, m.viewportWidth, k, c);
      AxisCoversWhole(m.pageHeight, m.viewportHeight, k, a, r);
      AxisCoversWhole(m.pageWidth, m.viewportWidth, k, b, c);
      assert TileCovers(m, xs[b], ys[a], r, c);
    }
    var p := PageImage(render, w, h);
    assert |g| == |p|;
    forall r | 0 <= r < h ensures g[r] == p[r] {
    }
  }
}
