/**
 * The zoom and pan transform of the display (display.cpp, get_zoom and the
 * coordinate arithmetic at the top of refresh). Single-precision floats are
 * idealised as reals; every C conversion to int is written out as Trunc
 * (toward zero) and every std::round as Round (halves away from zero).
 */
module ViewTransform {

  /** An SDL_Rect: origin and extent, all ints. */
  datatype Rect = Rect(x: int, y: int, w: int, h: int)

  /** Conversion of a real to int as a C cast does it: toward zero. */
  function Trunc(r: real): (i: int)
    ensures r >= 0.0 ==> i as real <= r < i as real + 1.0
    ensures r < 0.0 ==> i as real - 1.0 < r <= i as real
  {
    if r >= 0.0 then r.Floor else -((-r).Floor)
  }

  /** std::round: to the nearest int, halves away from zero. */
  function Round(r: real): (i: int)
    ensures r >= 0.0 ==> r - 0.5 < i as real <= r + 0.5
    ensures r < 0.0 ==> r - 0.5 <= i as real < r + 0.5
    ensures r >= 0.0 ==> i >= 0
    ensures r <= 0.0 ==> i <= 0
  {
    if r >= 0.0 then (r + 0.5).Floor else -((-r + 0.5).Floor)
  }

  function Min(a: int, b: int): (m: int) { if a < b then a else b }
  function Max(a: int, b: int): (m: int) { if a < b then b else a }

  /** std::min(std::max(lo, v), hi). */
  function Clamp(lo: int, v: int, hi: int): (r: int)
    requires lo <= hi
    ensures lo <= r <= hi
    ensures lo <= v <= hi ==> r == v
    ensures v < lo ==> r == lo
    ensures v > hi ==> r == hi
  {
    Min(Max(lo, v), hi)
  }

  /** The display scale for a zoom factor: 1 + zf when zooming in, 1 / (1 - zf) when zooming out. */
  function GetZoom(zoomFactor: real): (scale: real)
    ensures scale > 0.0
    ensures scale >= 1.0 <==> zoomFactor >= 0.0
    ensures zoomFactor >= 0.0 ==> scale == 1.0 + zoomFactor
    ensures zoomFactor < 0.0 ==> scale * (1.0 - zoomFactor) == 1.0
  {
    if zoomFactor >= 0.0 then 1.0 + zoomFactor else 1.0 / (1.0 - zoomFactor)
  }

  /** Zooming out by a factor undoes zooming in by it: the two scales are reciprocal. */
  lemma ZoomReciprocal(zoomFactor: real)
    ensures GetZoom(zoomFactor) * GetZoom(-zoomFactor) == 1.0
  {
  }

  /** A larger zoom factor always gives a strictly larger scale. */
  lemma ZoomStrictlyIncreasing(zf1: real, zf2: real)
    requires zf1 < zf2
    ensures GetZoom(zf1) < GetZoom(zf2)
  {
    if zf2 < 0.0 {
      ReciprocalDecreasing(1.0 - zf1, 1.0 - zf2);
    }
  }

  lemma ReciprocalDecreasing(a: real, b: real)
    requires 0.0 < b < a
    ensures 1.0 / a < 1.0 / b
  {
    var p, q := 1.0 / a, 1.0 / b;
    assert p * a == 1.0 && q * b == 1.0;
    assert p > 0.0;
    assert p * b < p * a;
    assert (q - p) * b > 0.0;
  }

  /**
   * Position of the pointer in video coordinates: its offset from the window
   * centre, divided by the scale and rounded, relative to the pan centre,
   * clamped to the frame (one past the last pixel included).
   */
  function PointerToVideo(mouse: int, windowSize: int, center: int, zoom: real, videoSize: int): (v: int)
    requires zoom > 0.0 && windowSize > 0 && videoSize >= 0
    ensures 0 <= v <= videoSize
  {
    Clamp(0, Round((mouse - windowSize / 2) as real / zoom) + center, videoSize)
  }

  /** The pointer at the window centre maps to the pan centre whatever the zoom, as long as that centre lies in the frame. */
  lemma WindowCentreMapsToPanCentre(windowSize: int, center: int, zoom: real, videoSize: int)
    requires zoom > 0.0 && windowSize > 0 && 0 <= center <= videoSize
    ensures PointerToVideo(windowSize / 2, windowSize, center, zoom, videoSize) == center
  {
    assert (windowSize / 2 - windowSize / 2) as real / zoom == 0.0;
  }

  /** At scale 1 a pointer maps to its window offset from the centre, shifted by the pan centre, then clamped. */
  lemma UnitZoomIsTranslation(mouse: int, windowSize: int, center: int, videoSize: int)
    requires windowSize > 0 && videoSize >= 0
    ensures PointerToVideo(mouse, windowSize, center, 1.0, videoSize)
         == Clamp(0, mouse - windowSize / 2 + center, videoSize)
  {
    assert (mouse - windowSize / 2) as real / 1.0 == (mouse - windowSize / 2) as real;
  }

  /** Half the window, in video pixels, at the given scale. */
  function HalfSpan(windowSize: int, zoom: real): (span: real)
    requires zoom > 0.0
  {
    windowSize as real / zoom / 2.0
  }

  /**
   * The part of the video texture that is visible: a window-sized span around
   * the pan centre, divided by the scale, with each edge clipped to the frame.
   * The extent can come out negative when the centre is panned far outside the
   * frame; the rectangle is then empty.
   */
  function SourceRect(centerX: int, centerY: int, zoom: real, windowWidth: int, windowHeight: int,
                      videoWidth: int, videoHeight: int): (r: Rect)
    requires zoom > 0.0 && windowWidth > 0 && windowHeight > 0 && videoWidth >= 0 && videoHeight >= 0
    ensures 0 <= r.x <= videoWidth && 0 <= r.y <= videoHeight
    ensures r.x + r.w <= videoWidth && r.y + r.h <= videoHeight
  {
    var x := Clamp(0, Trunc(centerX as real - HalfSpan(windowWidth, zoom)), videoWidth);
    var y := Clamp(0, Trunc(centerY as real - HalfSpan(windowHeight, zoom)), videoHeight);
    Rect(x, y,
         Min(Trunc(centerX as real + HalfSpan(windowWidth, zoom)), videoWidth) - x,
         Min(Trunc(centerY as real + HalfSpan(windowHeight, zoom)), videoHeight) - y)
  }

  /**
   * Where the visible part lands in the window: its clipped origin mapped back
   * through the scale relative to the window centre, its extent scaled; every
   * coordinate clipped to the window.
   */
  function DestRect(src: Rect, centerX: int, centerY: int, zoom: real, windowWidth: int, windowHeight: int): (r: Rect)
    requires zoom > 0.0 && windowWidth > 0 && windowHeight > 0
    ensures 0 <= r.x <= windowWidth && 0 <= r.y <= windowHeight
    ensures r.w <= windowWidth && r.h <= windowHeight
  {
    Rect(Clamp(0, Trunc((windowWidth / 2) as real - (centerX - src.x) as real * zoom), windowWidth),
         Clamp(0, Trunc((windowHeight / 2) as real - (centerY - src.y) as real * zoom), windowHeight),
         Min(Trunc(src.w as real * zoom), windowWidth),
         Min(Trunc(src.h as real * zoom), windowHeight))
  }

  /** Truncation of an int-valued real gives that int back. */
  lemma TruncOfInt(i: int)
    ensures Trunc(i as real) == i
  {
  }

  /**
   * In the start-up view (scale 1, centre at the frame midpoint) a video
   * narrower and lower than the window is shown whole, unscaled and centred.
   */
  lemma {:induction false} StartViewShowsWholeFrameCentred(windowWidth: int, windowHeight: int, videoWidth: int, videoHeight: int)
    requires 0 <= videoWidth < windowWidth && 0 <= videoHeight < windowHeight
    ensures SourceRect(videoWidth / 2, videoHeight / 2, 1.0, windowWidth, windowHeight, videoWidth, videoHeight)
         == Rect(0, 0, videoWidth, videoHeight)
    ensures DestRect(Rect(0, 0, videoWidth, videoHeight), videoWidth / 2, videoHeight / 2, 1.0, windowWidth, windowHeight)
         == Rect(windowWidth / 2 - videoWidth / 2, windowHeight / 2 - videoHeight / 2, videoWidth, videoHeight)
  {
    StartViewAxis(windowWidth, videoWidth);
    StartViewAxis(windowHeight, videoHeight);
  }

  lemma StartViewAxis(windowSize: int, videoSize: int)
    requires 0 <= videoSize < windowSize
    ensures Clamp(0, Trunc((videoSize / 2) as real - HalfSpan(windowSize, 1.0)), videoSize) == 0
    ensures Min(Trunc((videoSize / 2) as real + HalfSpan(windowSize, 1.0)), videoSize) == videoSize
    ensures Clamp(0, Trunc((windowSize / 2) as real - (videoSize / 2 - 0) as real * 1.0), windowSize)
         == windowSize / 2 - videoSize / 2
    ensures Min(Trunc(videoSize as real * 1.0), windowSize) == videoSize
  {
    assert HalfSpan(windowSize, 1.0) == windowSize as real / 2.0;
    assert (videoSize / 2) as real - windowSize as real / 2.0 <= 0.0;
    assert (videoSize / 2) as real + windowSize as real / 2.0 >= videoSize as real;
    TruncOfInt(windowSize / 2 - videoSize / 2);
    assert (windowSize / 2) as real - (videoSize / 2 - 0) as real * 1.0 == (windowSize / 2 - videoSize / 2) as real;
    TruncOfInt(videoSize);
  }
}
