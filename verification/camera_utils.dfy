/**
 * The visibility queries of `Camera2DUtil` (`camera_utils.ts`) on their guard cases and the
 * `rotation === 0` fast paths. The rotated paths go through a `DOMMatrix` and are not part of
 * this model: there the queries answer `None`.
 */
module CameraUtils {
  import opened Numeric
  import opened Wrappers
  import opened MathUtils

  datatype Size = Size(width: real, height: real)

  /** A 2D camera: `target` (world) is drawn at `offset` (screen), scaled by `zoom`, turned by `rotation` degrees. */
  datatype Camera2D = Camera2D(offset: Point, target: Point, rotation: real, zoom: real)

  /** The world-to-screen map of an unrotated camera along one axis. */
  function ToScreen(w: real, target: real, zoom: real, offset: real): real {
    (w - target) * zoom + offset
  }

  /** The closed intervals `[min(a, b), max(a, b)]` and `[lo, hi]` share a point. */
  predicate MeetsSpan(a: real, b: real, lo: real, hi: real) {
    Min(a, b) <= hi && lo <= Max(a, b)
  }

  /** The unrotated rectangle test: each screen interval is put in order, then tested against the padded canvas. */
  function UnrotatedRectVisible(canvas: Size, rect: Rect, camera: Camera2D, padding: real): (b: bool)
    ensures b <==>
      MeetsSpan(ToScreen(rect.x, camera.target.x, camera.zoom, camera.offset.x),
                ToScreen(rect.x + rect.width, camera.target.x, camera.zoom, camera.offset.x),
                -padding, canvas.width + padding) &&
      MeetsSpan(ToScreen(rect.y, camera.target.y, camera.zoom, camera.offset.y),
                ToScreen(rect.y + rect.height, camera.target.y, camera.zoom, camera.offset.y),
                -padding, canvas.height + padding)
  {
    var sx1 := ToScreen(rect.x, camera.target.x, camera.zoom, camera.offset.x);
    var sx2 := ToScreen(rect.x + rect.width, camera.target.x, camera.zoom, camera.offset.x);
    var sy1 := ToScreen(rect.y, camera.target.y, camera.zoom, camera.offset.y);
    var sy2 := ToScreen(rect.y + rect.height, camera.target.y, camera.zoom, camera.offset.y);
    var (lx, hx) := if sx1 > sx2 then (sx2, sx1) else (sx1, sx2);
    var (ly, hy) := if sy1 > sy2 then (sy2, sy1) else (sy1, sy2);
    !(hx < -padding || lx > canvas.width + padding || hy < -padding || ly > canvas.height + padding)
  }

  /** `is_rect_in_camera_view`; `None` stands for the rotated path, which is not modelled. */
  function IsRectInCameraView(canvas: Size, rect: Rect, camera: Camera2D, padding: real): (r: Option<bool>)
    ensures rect.width <= 0.0 || rect.height <= 0.0 || camera.zoom == 0.0 ==> r == Some(false)
    ensures r.None? <==> rect.width > 0.0 && rect.height > 0.0 && camera.zoom != 0.0 && camera.rotation != 0.0
    ensures rect.width > 0.0 && rect.height > 0.0 && camera.zoom != 0.0 && camera.rotation == 0.0 ==>
      r == Some(UnrotatedRectVisible(canvas, rect, camera, padding))
  {
    if rect.width <= 0.0 || rect.height <= 0.0 then Some(false)
    else if camera.zoom == 0.0 then Some(false)
    else if camera.rotation == 0.0 then Some(UnrotatedRectVisible(canvas, rect, camera, padding))
    else None
  }

  /** `is_point_in_camera_view`; `None` stands for the rotated path. */
  function IsPointInCameraView(canvas: Size, point: Point, camera: Camera2D, padding: real): (r: Option<bool>)
    ensures camera.zoom == 0.0 ==> r == Some(false)
    ensures r.None? <==> camera.zoom != 0.0 && camera.rotation != 0.0
    ensures camera.zoom != 0.0 && camera.rotation == 0.0 ==>
      (r == Some(true) <==>
        var sx := ToScreen(point.x, camera.target.x, camera.zoom, camera.offset.x);
        var sy := ToScreen(point.y, camera.target.y, camera.zoom, camera.offset.y);
        -padding <= sx <= canvas.width + padding && -padding <= sy <= canvas.height + padding)
  {
    if camera.zoom == 0.0 then Some(false)
    else if camera.rotation == 0.0 then
      var sx := ToScreen(point.x, camera.target.x, camera.zoom, camera.offset.x);
      var sy := ToScreen(point.y, camera.target.y, camera.zoom, camera.offset.y);
      Some(sx >= -padding && sx <= canvas.width + padding && sy >= -padding && sy <= canvas.height + padding)
    else None
  }

  /** The camera's target is drawn at `offset`, so it is visible exactly when `offset` lies in the padded canvas. */
  lemma TargetVisibleIffOffsetInside(canvas: Size, camera: Camera2D, padding: real)
    requires camera.zoom != 0.0 && camera.rotation == 0.0
    ensures IsPointInCameraView(canvas, camera.target, camera, padding) == Some(
      -padding <= camera.offset.x <= canvas.width + padding &&
      -padding <= camera.offset.y <= canvas.height + padding)
  {
    assert ToScreen(camera.target.x, camera.target.x, camera.zoom, camera.offset.x) == camera.offset.x;
    assert ToScreen(camera.target.y, camera.target.y, camera.zoom, camera.offset.y) == camera.offset.y;
  }

  /** More padding never hides a point that was visible. */
  lemma PointPaddingMonotone(canvas: Size, point: Point, camera: Camera2D, p: real, q: real)
    requires p <= q
    requires IsPointInCameraView(canvas, point, camera, p) == Some(true)
    ensures IsPointInCameraView(canvas, point, camera, q) == Some(true)
  {
  }

  /** More padding never hides a rectangle that was visible. */
  lemma RectPaddingMonotone(canvas: Size, rect: Rect, camera: Camera2D, p: real, q: real)
    requires p <= q
    requires IsRectInCameraView(canvas, rect, camera, p) == Some(true)
    ensures IsRectInCameraView(canvas, rect, camera, q) == Some(true)
  {
  }

  /** The image of a point inside `[lo, hi]` lies between the images of `lo` and `hi`, whatever the zoom's sign. */
  lemma ScreenBetween(lo: real, w: real, hi: real, target: real, zoom: real, offset: real)
    requires lo <= w <= hi
    ensures Min(ToScreen(lo, target, zoom, offset), ToScreen(hi, target, zoom, offset)) <= ToScreen(w, target, zoom, offset)
    ensures ToScreen(w, target, zoom, offset) <= Max(ToScreen(lo, target, zoom, offset), ToScreen(hi, target, zoom, offset))
  {
    var a, b := w - lo, hi - w;
    assert (w - target) * zoom == (lo - target) * zoom + a * zoom;
    assert (hi - target) * zoom == (w - target) * zoom + b * zoom;
    if zoom >= 0.0 {
      assert a * zoom >= 0.0 && b * zoom >= 0.0;
    } else {
      assert a * zoom <= 0.0 && b * zoom <= 0.0;
    }
  }

  /**
   * A rectangle that contains the camera's target is visible whenever the target is, for a
   * negative zoom as well: the endpoint swap keeps each screen interval ordered.
   */
  lemma RectAroundTargetVisible(canvas: Size, rect: Rect, camera: Camera2D, padding: real)
    requires rect.width > 0.0 && rect.height > 0.0 && camera.zoom != 0.0 && camera.rotation == 0.0
    requires rect.x <= camera.target.x <= rect.x + rect.width
    requires rect.y <= camera.target.y <= rect.y + rect.height
    requires IsPointInCameraView(canvas, camera.target, camera, padding) == Some(true)
    ensures IsRectInCameraView(canvas, rect, camera, padding) == Some(true)
  {
    TargetVisibleIffOffsetInside(canvas, camera, padding);
    ScreenBetween(rect.x, camera.target.x, rect.x + rect.width, camera.target.x, camera.zoom, camera.offset.x);
    ScreenBetween(rect.y, camera.target.y, rect.y + rect.height, camera.target.y, camera.zoom, camera.offset.y);
    assert ToScreen(camera.target.x, camera.target.x, camera.zoom, camera.offset.x) == camera.offset.x;
    assert ToScreen(camera.target.y, camera.target.y, camera.zoom, camera.offset.y) == camera.offset.y;
  }
}
