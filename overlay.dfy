/**
 * Geometry of the overlay renderer and of the single-frame capture:
 * where the frame and sticker images are drawn on a target surface, and how
 * large a captured still is. Canvas dimensions are natural numbers; the
 * browser's floating-point coordinates are idealised as exact reals, and
 * `Math.round` as "round half up" on those reals.
 */
module Overlay {
  import opened Optional

  /** A decoded raster image (an uploaded frame or sticker). A decoded image
      has a positive size. */
  type Pixels = n: int | n > 0 witness 1

  datatype Image = Image(width: Pixels, height: Pixels)

  /** The destination rectangle of one `drawImage` call. */
  datatype Placement = Placement(x: real, y: real, width: real, height: real)

  /** What the overlay renderer draws: the frame layer and the sticker layer,
      each present only when its slot holds an image. */
  datatype Layout = Layout(frame: Option<Placement>, sticker: Option<Placement>)

  /** What the camera and the UI offer at the moment a still is taken: the
      video's native size (0 while unknown) and the filter selector's value. */
  datatype Sample = Sample(videoWidth: nat, videoHeight: nat, filter: string)

  /** A surface with the overlay images drawn on it: its size and the
      contents of the frame and sticker slots at drawing time. */
  datatype Scene = Scene(width: nat, height: nat, frame: Option<Image>, sticker: Option<Image>)

  /** A captured still: the video frame stretched over the whole canvas and
      the overlays of `scene` drawn over it, everything drawn with `filter`
      (the canvas's filter is set before the first image is drawn). */
  datatype Still = Still(filter: string, scene: Scene)

  /** Gap between the sticker's bottom edge and the bottom of the on-screen overlay. */
  const ScreenMargin: real := 20.0

  function Min(a: real, b: real): real { if a <= b then a else b }

  /** `Math.round` on an exact real: the nearest integer, halves rounded up. */
  function Round(x: real): (n: int)
    ensures x - 0.5 < n as real <= x + 0.5
  {
    (x + 0.5).Floor
  }

  lemma RoundOfInteger(n: int)
    ensures Round(n as real) == n
  {
  }

  /** `t <= a / b` exactly when `t * b <= a`, for a positive divisor. */
  lemma DivBound(t: real, a: real, b: real)
    requires b > 0.0
    ensures t <= a / b <==> t * b <= a
  {
    assert a / b * b == a;
    if t <= a / b {
      assert t * b <= a / b * b;
    } else {
      assert a / b * b < t * b;
    }
  }

  /** The sticker's scale on a `width` x `height` target: the smallest of
      40% of the target width over the image width, 30% of the target height
      over the image height, and 1. */
  function StickerScale(width: nat, height: nat, img: Image): real
  {
    Min(Min(width as real * 0.4 / img.width as real, height as real * 0.3 / img.height as real), 1.0)
  }

  /** The scale is the LARGEST factor that never upscales and keeps the
      sticker within 40% of the target width and 30% of its height. */
  lemma StickerScaleIsLargestFit(width: nat, height: nat, img: Image, t: real)
    ensures t <= StickerScale(width, height, img) <==>
              t <= 1.0 && t * img.width as real <= width as real * 0.4
                       && t * img.height as real <= height as real * 0.3
  {
    DivBound(t, width as real * 0.4, img.width as real);
    DivBound(t, height as real * 0.3, img.height as real);
  }

  lemma StickerScaleBounds(width: nat, height: nat, img: Image)
    ensures 0.0 <= StickerScale(width, height, img) <= 1.0
    ensures StickerScale(width, height, img) * img.width as real <= width as real * 0.4
    ensures StickerScale(width, height, img) * img.height as real <= height as real * 0.3
  {
    var s := StickerScale(width, height, img);
    StickerScaleIsLargestFit(width, height, img, s);
    StickerScaleIsLargestFit(width, height, img, 0.0);
  }

  /** An `iw` x `ih` image drawn at scale `s`, centred horizontally on a
      `width` x `height` target, its bottom edge `margin` above the target's
      bottom. */
  function ScaledRect(width: real, height: real, iw: real, ih: real, s: real, margin: real): Placement
  {
    Placement((width - iw * s) / 2.0, height - ih * s - margin, iw * s, ih * s)
  }

  /** Where the sticker is drawn: scaled by `StickerScale`. */
  function StickerRect(width: nat, height: nat, img: Image, margin: real): Placement
  {
    ScaledRect(width as real, height as real, img.width as real, img.height as real,
               StickerScale(width, height, img), margin)
  }

  /** A rectangle at a scale that fits keeps the aspect ratio, does not
      upscale, stays within 40% x 30% of the target and inside it sideways. */
  lemma ScaledRectFits(width: real, height: real, iw: real, ih: real, s: real, margin: real)
    requires 0.0 < iw && 0.0 < ih && 0.0 <= s <= 1.0
    requires s * iw <= width * 0.4 && s * ih <= height * 0.3
    ensures var p := ScaledRect(width, height, iw, ih, s, margin);
      && 2.0 * p.x + p.width == width
      && p.y + p.height == height - margin
      && p.width * ih == p.height * iw
      && 0.0 <= p.width <= iw && 0.0 <= p.height <= ih
      && p.width <= width * 0.4 && p.height <= height * 0.3
      && 0.0 <= p.x && p.x + p.width <= width
  {
    assert iw * s <= iw * 1.0;
    assert ih * s <= ih * 1.0;
    assert 0.0 <= iw * s;
    assert 0.0 <= ih * s;
  }

  lemma StickerPlacement(width: nat, height: nat, img: Image, margin: real)
    ensures var p := StickerRect(width, height, img, margin);
      && 2.0 * p.x + p.width == width as real
      && p.y + p.height == height as real - margin
      && p.width * img.height as real == p.height * img.width as real
      && 0.0 <= p.width <= img.width as real && 0.0 <= p.height <= img.height as real
      && p.width <= width as real * 0.4 && p.height <= height as real * 0.3
      && 0.0 <= p.x && p.x + p.width <= width as real
  {
    StickerScaleBounds(width, height, img);
    ScaledRectFits(width as real, height as real, img.width as real, img.height as real,
                   StickerScale(width, height, img), margin);
  }

  /** What `drawOverlay` (margin `ScreenMargin`) and `captureFrame` (margin
      3% of the height, rounded) draw over a `width` x `height` surface. */
  function OverlayLayout(width: nat, height: nat, frame: Option<Image>, sticker: Option<Image>, margin: real): Layout
  {
    Layout(if frame.Some? then Some(Placement(0.0, 0.0, width as real, height as real)) else None,
           if sticker.Some? then Some(StickerRect(width, height, sticker.value, margin)) else None)
  }

  /** A layer is drawn exactly when its slot holds an image; the frame covers
      the whole surface, the sticker is centred, `margin` above the bottom,
      and within 40% of the width and 30% of the height. */
  lemma OverlayLayers(width: nat, height: nat, frame: Option<Image>, sticker: Option<Image>, margin: real)
    ensures var r := OverlayLayout(width, height, frame, sticker, margin);
      && (r.frame.Some? <==> frame.Some?)
      && (r.frame.Some? ==> r.frame.value == Placement(0.0, 0.0, width as real, height as real))
      && (r.sticker.Some? <==> sticker.Some?)
      && (r.sticker.Some? ==>
            && 2.0 * r.sticker.value.x + r.sticker.value.width == width as real
            && r.sticker.value.y + r.sticker.value.height == height as real - margin
            && r.sticker.value.width <= width as real * 0.4
            && r.sticker.value.height <= height as real * 0.3)
  {
    if sticker.Some? {
      StickerPlacement(width, height, sticker.value, margin);
    }
  }

  /** The bottom margin of the sticker in a captured still. */
  function CaptureMargin(height: nat): (m: real)
    ensures 0.0 <= m <= height as real * 0.03 + 0.5
  {
    Round(height as real * 0.03) as real
  }

  /** In a captured still the sticker lies wholly inside the canvas. */
  lemma CaptureStickerInside(width: nat, height: nat, img: Image)
    ensures var p := StickerRect(width, height, img, CaptureMargin(height));
      0.0 <= p.x && p.x + p.width <= width as real && 0.0 <= p.y && p.y + p.height <= height as real
  {
    StickerPlacement(width, height, img, CaptureMargin(height));
    if height == 0 {
      StickerScaleBounds(width, height, img);
      assert StickerScale(width, height, img) * img.height as real <= 0.0;
    }
  }

  /** On screen the sticker may reach above the top of a short overlay; from
      29 pixels of height on it does not. */
  lemma ScreenStickerInside(width: nat, height: nat, img: Image)
    requires height >= 29
    ensures var p := StickerRect(width, height, img, ScreenMargin);
      0.0 <= p.x && p.x + p.width <= width as real && 0.0 <= p.y && p.y + p.height <= height as real
  {
    StickerPlacement(width, height, img, ScreenMargin);
  }

  /** Below 20 pixels of height the on-screen sticker always starts above
      the top of the overlay: its bottom edge is 20 pixels above the bottom. */
  lemma ScreenStickerAboveShortOverlay(width: nat, height: nat, img: Image)
    requires height < 20
    ensures StickerRect(width, height, img, ScreenMargin).y < 0.0
  {
    StickerPlacement(width, height, img, ScreenMargin);
  }

  /** The bound of 29 pixels in `ScreenStickerInside` is tight: a
      10 x 10 sticker on a 1000 x 28 overlay is scaled to 8.4 pixels high
      and starts 0.4 pixels above the top. */
  lemma ScreenStickerBoundTight()
    ensures StickerRect(1000, 28, Image(10, 10), ScreenMargin).y < 0.0
  {
    assert StickerScale(1000, 28, Image(10, 10)) == 0.84;
  }

  /** The filter a still is drawn with: the selector's value, or "none"
      when that value is empty. */
  function FilterOf(value: string): (f: string)
    ensures f != []
    ensures value != [] ==> f == value
    ensures value == [] ==> f == "none"
  {
    if value == [] then "none" else value
  }

  /** A capture's size: the video's native size, each dimension falling
      back to the overlay canvas's when the video reports 0. */
  function CaptureSize(sample: Sample, overlayWidth: nat, overlayHeight: nat): (size: (nat, nat))
  {
    (if sample.videoWidth != 0 then sample.videoWidth else overlayWidth,
     if sample.videoHeight != 0 then sample.videoHeight else overlayHeight)
  }

  lemma CaptureSizeFallback(sample: Sample, overlayWidth: nat, overlayHeight: nat)
    ensures var (w, h) := CaptureSize(sample, overlayWidth, overlayHeight);
      && (sample.videoWidth > 0 <==> w == sample.videoWidth > 0)
      && (sample.videoWidth == 0 ==> w == overlayWidth)
      && (sample.videoHeight > 0 <==> h == sample.videoHeight > 0)
      && (sample.videoHeight == 0 ==> h == overlayHeight)
      && (w == 0 <==> sample.videoWidth == 0 && overlayWidth == 0)
      && (h == 0 <==> sample.videoHeight == 0 && overlayHeight == 0)
  {
  }

  /** What the on-screen overlay canvas shows. */
  function ScreenLayers(sc: Scene): Layout
  {
    OverlayLayout(sc.width, sc.height, sc.frame, sc.sticker, ScreenMargin)
  }

  /** The overlay canvas carries a layer for each filled slot: the frame
      stretched over the whole canvas, the sticker centred with its bottom
      edge 20 pixels above the bottom, inside the canvas when it is 29
      pixels high or more. */
  lemma ScreenLayersShape(sc: Scene)
    ensures var layers := ScreenLayers(sc);
      && (layers.frame.Some? <==> sc.frame.Some?)
      && (layers.frame.Some? ==> layers.frame.value == Placement(0.0, 0.0, sc.width as real, sc.height as real))
      && (layers.sticker.Some? <==> sc.sticker.Some?)
      && (layers.sticker.Some? ==>
            var p := layers.sticker.value;
            && 2.0 * p.x + p.width == sc.width as real
            && p.y + p.height == sc.height as real - 20.0
            && p.width <= sc.width as real * 0.4 && p.height <= sc.height as real * 0.3
            && (sc.height >= 29 ==> 0.0 <= p.y && p.y + p.height <= sc.height as real))
  {
    if sc.sticker.Some? {
      StickerPlacement(sc.width, sc.height, sc.sticker.value, ScreenMargin);
    }
  }

  /** What is drawn over the video in a captured still. */
  function StillLayers(s: Still): Layout
  {
    OverlayLayout(s.scene.width, s.scene.height, s.scene.frame, s.scene.sticker, CaptureMargin(s.scene.height))
  }

  /** `captureFrame`: a still of `CaptureSize`, drawn with the current filter
      and the current overlay slots, scaled to the still's own size. */
  function CaptureFrame(sample: Sample, overlayWidth: nat, overlayHeight: nat,
                        frame: Option<Image>, sticker: Option<Image>): Still
  {
    var (w, h) := CaptureSize(sample, overlayWidth, overlayHeight);
    Still(FilterOf(sample.filter), Scene(w, h, frame, sticker))
  }

  /** A still has the capture size and a non-empty filter; it carries a layer
      for each filled slot, and its sticker is centred, inside the still, its
      bottom edge 3% of the height (rounded) above the bottom. */
  lemma CaptureFrameShape(sample: Sample, overlayWidth: nat, overlayHeight: nat,
                          frame: Option<Image>, sticker: Option<Image>)
    ensures var s := CaptureFrame(sample, overlayWidth, overlayHeight, frame, sticker);
      var layers := StillLayers(s);
      && (s.scene.width, s.scene.height) == CaptureSize(sample, overlayWidth, overlayHeight)
      && s.filter != []
      && (layers.frame.Some? <==> frame.Some?)
      && (layers.frame.Some? ==> layers.frame.value == Placement(0.0, 0.0, s.scene.width as real, s.scene.height as real))
      && (layers.sticker.Some? <==> sticker.Some?)
      && (layers.sticker.Some? ==>
            var p := layers.sticker.value;
            && 2.0 * p.x + p.width == s.scene.width as real
            && p.y + p.height == s.scene.height as real - Round(s.scene.height as real * 0.03) as real
            && 0.0 <= p.x && p.x + p.width <= s.scene.width as real
            && 0.0 <= p.y && p.y + p.height <= s.scene.height as real)
  {
    var (w, h) := CaptureSize(sample, overlayWidth, overlayHeight);
    if sticker.Some? {
      CaptureStickerInside(w, h, sticker.value);
    }
  }

  /** Two samples that report the same video size give stills of one size. */
  lemma SameVideoSameSize(a: Sample, b: Sample, overlayWidth: nat, overlayHeight: nat,
                          frame: Option<Image>, sticker: Option<Image>)
    requires a.videoWidth == b.videoWidth && a.videoHeight == b.videoHeight
    ensures CaptureFrame(a, overlayWidth, overlayHeight, frame, sticker).scene
         == CaptureFrame(b, overlayWidth, overlayHeight, frame, sticker).scene
  {
  }
}
