/** Camera arithmetic shared by the input callbacks: the zoom bounds and the
    `clamp` helper, the WASD pan step, the keyboard zoom, and the conversion
    between window pixels, normalised device coordinates and points of the
    z = 0 plane. */
module Camera {
  import opened Geometry

  const SCR_WIDTH: real := 1920.0
  const SCR_HEIGHT: real := 1040.0
  const ASPECT_RATIO: real := SCR_WIDTH / SCR_HEIGHT

  /** glm::radians(60.0f), the vertical field of view of the projection;
      only tan(FOV / 2) is ever taken of it. */
  const FOV: real := 60.0 * 3.141592653589793 / 180.0

  const MIN_ZOOM: real := 1.0
  const MAX_ZOOM: real := 20.0
  const INITIAL_ZOOM: real := 8.0

  const CAMERA_SPEED: real := 2.0
  /** processInput assumes a fixed frame of 16 ms for panning. */
  const PAN_FRAME_TIME: real := 0.016
  /** Zoom change per frame while '=' or '-' is held. */
  const KEY_ZOOM_STEP: real := 0.1
  /** Zoom change per unit of scroll-wheel offset. */
  const SCROLL_ZOOM_STEP: real := 0.5

  /** std::min(std::max(value, min), max). */
  function Clamp(value: real, lo: real, hi: real): (r: real)
    ensures lo <= hi ==> lo <= r <= hi
    ensures lo <= value <= hi ==> r == value
    ensures value <= lo <= hi ==> r == lo
    ensures hi <= value ==> r == hi
    ensures hi < lo ==> r == hi
  {
    var atLeast := if value < lo then lo else value;
    if hi < atLeast then hi else atLeast
  }

  predicate InZoomRange(zoom: real) {
    MIN_ZOOM <= zoom <= MAX_ZOOM
  }

  /** How far one held WASD key moves the camera in one frame. */
  function PanStep(zoom: real): real {
    CAMERA_SPEED * PAN_FRAME_TIME * zoom * 0.25
  }

  /** Net pan along one axis in one frame: a step forward for one held key,
      a step back for the opposite one. */
  function PanOffset(forward: bool, backward: bool, step: real): real {
    (if forward then step else 0.0) - (if backward then step else 0.0)
  }

  /** The zoom after one frame of processInput: '=' zooms in, then '-' zooms
      out, each clamped. */
  function KeyZoom(zoom: real, zoomIn: bool, zoomOut: bool): (r: real)
    ensures (zoomIn || zoomOut) ==> InZoomRange(r)
    ensures !zoomIn && !zoomOut ==> r == zoom
    ensures zoomIn && !zoomOut && InZoomRange(zoom) ==> r <= zoom
    ensures zoomOut && !zoomIn && InZoomRange(zoom) ==> zoom <= r
    ensures zoomIn && !zoomOut && InZoomRange(zoom - KEY_ZOOM_STEP) ==> r == zoom - KEY_ZOOM_STEP
    ensures zoomOut && !zoomIn && InZoomRange(zoom + KEY_ZOOM_STEP) ==> r == zoom + KEY_ZOOM_STEP
    ensures zoomIn && zoomOut && InZoomRange(zoom) && InZoomRange(zoom - KEY_ZOOM_STEP) ==> r == zoom
  {
    var afterIn := if zoomIn then Clamp(zoom - KEY_ZOOM_STEP, MIN_ZOOM, MAX_ZOOM) else zoom;
    if zoomOut then Clamp(afterIn + KEY_ZOOM_STEP, MIN_ZOOM, MAX_ZOOM) else afterIn
  }

  /** The zoom after a scroll event with vertical offset `yoffset`. */
  function ScrollZoom(zoom: real, yoffset: real): (r: real)
    ensures InZoomRange(r)
    ensures 0.0 <= yoffset && InZoomRange(zoom) ==> r <= zoom
    ensures yoffset <= 0.0 && InZoomRange(zoom) ==> zoom <= r
    ensures InZoomRange(zoom - yoffset * SCROLL_ZOOM_STEP) ==> r == zoom - yoffset * SCROLL_ZOOM_STEP
  {
    Clamp(zoom - yoffset * SCROLL_ZOOM_STEP, MIN_ZOOM, MAX_ZOOM)
  }

  /** Any run of scroll events, however extreme, leaves the zoom in range. */
  function ScrollZoomAll(zoom: real, offsets: seq<real>): (r: real)
    ensures offsets != [] || InZoomRange(zoom) ==> InZoomRange(r)
    decreases |offsets|
  {
    if offsets == [] then zoom else ScrollZoomAll(ScrollZoom(zoom, offsets[0]), offsets[1..])
  }

  /** Window pixel to normalised device coordinates (y grows downwards in the
      window and upwards in NDC). */
  function PixelToNdc(xpos: real, ypos: real): Point {
    Point((2.0 * xpos) / SCR_WIDTH - 1.0, 1.0 - (2.0 * ypos) / SCR_HEIGHT)
  }

  /** The window pixel, as a point (xpos, ypos), at which an NDC point is shown. */
  function NdcToPixel(ndc: Point): Point {
    Point((ndc.x + 1.0) * SCR_WIDTH / 2.0, (1.0 - ndc.y) * SCR_HEIGHT / 2.0)
  }

  lemma PixelNdcRoundTrip(xpos: real, ypos: real, ndc: Point)
    ensures NdcToPixel(PixelToNdc(xpos, ypos)) == Point(xpos, ypos)
    ensures PixelToNdc(NdcToPixel(ndc).x, NdcToPixel(ndc).y) == ndc
  {
  }

  /** Half the height of the visible part of the z = 0 plane for a camera at
      distance `zoom`: zoom * tan(fov / 2). */
  function WorldScale(trig: Trig, zoom: real): real {
    zoom * trig.tan(FOV / 2.0)
  }

  /** mouse_callback's conversion of an NDC pointer to the z = 0 plane. */
  function NdcToWorld(trig: Trig, ndc: Point, zoom: real, target: Vec3): Point {
    var scale := WorldScale(trig, zoom);
    Point(ndc.x * scale * ASPECT_RATIO + target.x, ndc.y * scale + target.y)
  }

  /** Where the renderer puts a point of the z = 0 plane on the screen, for the
      view glm::lookAt(eye, (eye.x, eye.y, 0), (0, 1, 0)) and the projection
      glm::perspective(FOV, ASPECT_RATIO, ...): the view only translates, and
      the perspective divides x and y by the depth eye.z and by tan(FOV / 2)
      (x also by the aspect ratio). */
  function Project(trig: Trig, eye: Vec3, p: Point): Point
    requires WorldScale(trig, eye.z) != 0.0
  {
    var scale := WorldScale(trig, eye.z);
    Point((p.x - eye.x) / (scale * ASPECT_RATIO), (p.y - eye.y) / scale)
  }

  /** Picking inverts the projection exactly when the eye sits straight above
      the target at height `zoom`: the pointer over a drawn point converts
      back to that point, and every pointer position is the image of the point
      it converts to. */
  lemma PickingInvertsProjection(trig: Trig, zoom: real, target: Vec3, p: Point, ndc: Point)
    requires 0.0 < zoom && 0.0 < trig.tan(FOV / 2.0)
    ensures var eye := Vec3(target.x, target.y, zoom);
      WorldScale(trig, eye.z) != 0.0
      && NdcToWorld(trig, Project(trig, eye, p), zoom, target) == p
      && Project(trig, eye, NdcToWorld(trig, ndc, zoom, target)) == ndc
  {
    ProductSign(zoom, trig.tan(FOV / 2.0));
    ProductSign(WorldScale(trig, zoom), ASPECT_RATIO);
  }
}
