/**
 * Layout of the final photo strip (`buildStrip`): the stills stacked
 * top to bottom on one canvas, a white border stroked around it, and a
 * scaled-down preview. Only the geometry is modelled, not the pixels.
 */
module Strip {
  import opened Optional
  import opened Overlay

  /** Widest the on-screen preview may be. */
  const MaxPreviewWidth: nat := 240

  /** Thinnest the strip's border may be. */
  const MinLineWidth: int := 6

  /** One `drawImage` of the strip: capture number `capture`, stretched to
      `width` x `height`, with its top edge at row `top` (its left edge is 0). */
  datatype Tile = Tile(capture: nat, top: nat, width: nat, height: nat)

  /** The composited strip: canvas size, tiles in drawing order, border line
      width and the rectangle that is stroked. */
  datatype Strip = Strip(width: nat, height: nat, tiles: seq<Tile>, lineWidth: int, border: Placement)

  function Max(a: int, b: int): int { if a >= b then a else b }

  /** `n` tiles of `w` x `h`, tile `i` showing capture `i` at row `i * h`. */
  function TileColumn(n: nat, w: nat, h: nat): (tiles: seq<Tile>)
    ensures |tiles| == n
    ensures forall i :: 0 <= i < n ==>
              tiles[i].capture == i && tiles[i].top == i * h && tiles[i].width == w && tiles[i].height == h
  {
    if n == 0 then [] else TileColumn(n - 1, w, h) + [Tile(n - 1, (n - 1) * h, w, h)]
  }

  lemma MulMonotone(a: nat, b: nat, h: nat)
    requires a <= b
    ensures a * h <= b * h
  {
  }

  /** Tiles follow each other without gap or overlap, from row 0 down to the
      bottom row of an `h * n` high strip. */
  lemma TilesStack(n: nat, w: nat, h: nat)
    ensures var tiles := TileColumn(n, w, h);
      && (n > 0 ==> tiles[0].top == 0 && tiles[n - 1].top + h == h * n)
      && forall i :: 0 <= i < n - 1 ==> tiles[i].top + tiles[i].height == tiles[i + 1].top
  {
    var tiles := TileColumn(n, w, h);
    forall i | 0 <= i < n - 1
      ensures tiles[i].top + tiles[i].height == tiles[i + 1].top
    {
      assert (i + 1) * h == i * h + h;
    }
    if n > 0 {
      assert (n - 1) * h + h == h * n;
    }
  }

  /** Row `r` falls in band `r / h` of height `h`. */
  lemma DivBand(r: nat, h: nat)
    requires h > 0
    ensures (r / h) * h <= r < (r / h) * h + h
  {
    assert r == (r / h) * h + r % h;
  }

  /** Bands of height `h` do not overlap. */
  lemma BandsUnique(j: nat, k: nat, h: nat, r: nat)
    requires j * h <= r < j * h + h && k * h <= r < k * h + h
    ensures j == k
  {
    if j < k {
      MulMonotone(j + 1, k, h);
    } else if k < j {
      MulMonotone(k + 1, j, h);
    }
  }

  /** A row above the bottom of `n` bands lies in one of those bands. */
  lemma BandBelow(n: nat, h: nat, r: nat)
    requires h > 0 && r < h * n
    ensures r / h < n
  {
    DivBand(r, h);
    if n <= r / h {
      MulMonotone(n, r / h, h);
      assert false;
    }
  }

  /** Every row of the strip belongs to exactly one tile: tile `r / h`. */
  lemma TilesPartitionRows(n: nat, w: nat, h: nat, r: nat)
    requires h > 0 && r < h * n
    ensures var tiles := TileColumn(n, w, h);
      && r / h < n
      && tiles[r / h].top <= r < tiles[r / h].top + tiles[r / h].height
      && forall j :: 0 <= j < n && tiles[j].top <= r < tiles[j].top + tiles[j].height ==> j == r / h
  {
    var tiles := TileColumn(n, w, h);
    var k := r / h;
    BandBelow(n, h, r);
    DivBand(r, h);
    assert tiles[k].top == k * h && tiles[k].height == h;
    forall j | 0 <= j < n && tiles[j].top <= r < tiles[j].top + tiles[j].height
      ensures j == k
    {
      BandsUnique(j, k, h, r);
    }
  }

  /** The loop of `buildStrip` that draws each capture in turn. */
  method LayTiles(captures: seq<Still>, w: nat, h: nat) returns (tiles: seq<Tile>)
    ensures tiles == TileColumn(|captures|, w, h)
  {
    tiles := [];
    for i := 0 to |captures|
      invariant tiles == TileColumn(i, w, h)
    {
      tiles := tiles + [Tile(i, i * h, w, h)];
    }
  }

  /** The border's line width for a strip `w` wide: 1% of the width,
      rounded, and never less than 6. */
  function LineWidth(w: nat): int
  {
    Max(MinLineWidth, Round(w as real * 0.01))
  }

  lemma LineWidthBounds(w: nat)
    ensures LineWidth(w) >= MinLineWidth
    ensures LineWidth(w) >= Round(w as real * 0.01)
    ensures w < 650 ==> LineWidth(w) == MinLineWidth
    ensures w >= 650 ==> LineWidth(w) == Round(w as real * 0.01) > MinLineWidth
  {
    if w < 650 {
      assert w as real * 0.01 + 0.5 < 7.0;
    } else {
      assert w as real * 0.01 + 0.5 >= 7.0;
    }
  }

  /** The rectangle stroked around a `width` x `height` strip with line width
      `lw`: inset by half the line width, so that the outer edge of the
      stroke runs along the edges of the canvas. */
  function BorderRect(width: nat, height: nat, lw: int): (r: Placement)
    ensures r.x - lw as real / 2.0 == 0.0 && r.x + r.width + lw as real / 2.0 == width as real
    ensures r.y - lw as real / 2.0 == 0.0 && r.y + r.height + lw as real / 2.0 == height as real
  {
    Placement(lw as real / 2.0, lw as real / 2.0, width as real - lw as real, height as real - lw as real)
  }

  /** The preview's scale factor: fit the maximum preview width, never
      enlarge (a zero-width strip, where the quotient is infinite, keeps 1). */
  function PreviewScale(width: nat): real
  {
    if width == 0 then 1.0 else Min(MaxPreviewWidth as real / width as real, 1.0)
  }

  function PreviewSize(width: nat, height: nat): (int, int)
  {
    var s := PreviewScale(width);
    (Round(width as real * s), Round(height as real * s))
  }

  /** The preview canvas: the strip drawn scaled to `width` x `height`. */
  datatype Preview = Preview(strip: Strip, width: int, height: int)

  /** The preview `buildStrip` draws for strip `s`: the canvas takes
      `PreviewSize` of the strip. */
  function PreviewOf(s: Strip): Preview
  {
    var (pw, ph) := PreviewSize(s.width, s.height);
    Preview(s, pw, ph)
  }

  /** The preview shows the strip, exactly `min(width, 240)` wide and no
      taller than the strip, and is the strip's own size when that is narrow
      enough. */
  lemma PreviewOfShape(s: Strip)
    ensures var p := PreviewOf(s);
      && p.strip == s
      && p.width == (if s.width <= MaxPreviewWidth then s.width else MaxPreviewWidth)
      && 0 <= p.height <= s.height
      && (s.width <= MaxPreviewWidth ==> p.width == s.width && p.height == s.height)
  {
    PreviewNeverUpscales(s.width, s.height);
  }

  /** The preview is never upscaled, is exactly `min(width, 240)` wide, and is
      the strip itself when the strip is narrow enough. */
  lemma PreviewNeverUpscales(width: nat, height: nat)
    ensures 0.0 < PreviewScale(width) <= 1.0
    ensures PreviewSize(width, height).0 == if width <= MaxPreviewWidth then width else MaxPreviewWidth
    ensures 0 <= PreviewSize(width, height).1 <= height
    ensures width <= MaxPreviewWidth ==> PreviewSize(width, height) == (width, height)
  {
    var s := PreviewScale(width);
    if width <= MaxPreviewWidth {
      assert s == 1.0 by {
        if width > 0 {
          DivBound(1.0, MaxPreviewWidth as real, width as real);
        }
      }
      RoundOfInteger(width);
      RoundOfInteger(height);
    } else {
      DivBound(1.0, MaxPreviewWidth as real, width as real);
      assert s == MaxPreviewWidth as real / width as real;
      assert width as real * s == MaxPreviewWidth as real;
      RoundOfInteger(MaxPreviewWidth);
      assert height as real * s <= height as real;
      RoundOfInteger(height);
    }
  }

  /** `buildStrip`'s layout: nothing without captures; otherwise the size of
      the first capture sets the tile size, the strip is one tile wide and
      one tile high per capture. */
  function Composite(captures: seq<Still>): Option<Strip>
  {
    if |captures| == 0 then None
    else
      var w := captures[0].scene.width;
      var h := captures[0].scene.height;
      var lw := LineWidth(w);
      Some(Strip(w, h * |captures|, TileColumn(|captures|, w, h), lw, BorderRect(w, h * |captures|, lw)))
  }

  lemma CompositeShape(captures: seq<Still>)
    ensures Composite(captures).None? <==> |captures| == 0
    ensures |captures| > 0 ==>
      var s := Composite(captures).value;
      var h := captures[0].scene.height;
      && s.width == captures[0].scene.width && s.height == h * |captures|
      && |s.tiles| == |captures|
      && (forall i :: 0 <= i < |captures| ==>
            s.tiles[i].capture == i && s.tiles[i].top == i * h && s.tiles[i].width == s.width && s.tiles[i].height == h)
      && s.lineWidth >= MinLineWidth
      && s.border.x == s.border.y == s.lineWidth as real / 2.0
      && s.border.width == s.width as real - s.lineWidth as real
      && s.border.height == s.height as real - s.lineWidth as real
  {
    if |captures| > 0 {
      LineWidthBounds(captures[0].scene.width);
    }
  }

  /** `buildStrip` up to the encoding of the strip. */
  method ComposeStrip(captures: seq<Still>) returns (strip: Option<Strip>)
    ensures strip == Composite(captures)
  {
    if |captures| == 0 {
      return None;
    }
    var w := captures[0].scene.width;
    var h := captures[0].scene.height;
    var tiles := LayTiles(captures, w, h);
    var lw := LineWidth(w);
    strip := Some(Strip(w, h * |captures|, tiles, lw, BorderRect(w, h * |captures|, lw)));
  }
}
