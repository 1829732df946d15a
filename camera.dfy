/** The camera controller every scene shares: the camera record, the pointer
    drag state, the wheel zoom and the 33 ms animation tick. The React state
    updaters are pure (`c => ({ ...c, ... })`), so each event is a function on
    values here; the class SceneController holds the state and applies them. */
module Camera {
  import opened Scenes

  /** `camera {rotationY, rotationX, zoom, panX, panY}`. */
  datatype CameraState = CameraState(rotationY: real, rotationX: real, zoom: real, panX: real, panY: real)

  datatype DragMode = Rotate | Pan

  datatype Mouse = Mouse(x: real, y: real)

  /** The camera together with `isDragging`, `dragMode` and `lastMouse`. */
  datatype Controls = Controls(camera: CameraState, dragging: bool, mode: DragMode, last: Mouse)

  const MinPitch: real := -0.3
  const MaxPitch: real := 1.0
  const MinZoom: real := 0.4
  const MaxZoom: real := 2.5

  /** `Math.max(lo, Math.min(hi, v))`. */
  function Clamp(v: real, lo: real, hi: real): (r: real)
    requires lo <= hi
    ensures lo <= r <= hi
    ensures lo <= v <= hi ==> r == v
    ensures v < lo ==> r == lo
    ensures hi < v ==> r == hi
  {
    var m := if hi < v then hi else v;
    if lo > m then lo else m
  }

  /** Clamping twice is clamping once. */
  lemma ClampIdempotent(v: real, lo: real, hi: real)
    requires lo <= hi
    ensures Clamp(Clamp(v, lo, hi), lo, hi) == Clamp(v, lo, hi)
  {
  }

  /** Pitch and zoom inside the ranges the handlers clamp them to. */
  predicate InRange(c: CameraState)
  {
    MinPitch <= c.rotationX <= MaxPitch && MinZoom <= c.zoom <= MaxZoom
  }

  /** The camera each scene starts from. */
  function InitialCamera(city: City): (c: CameraState)
    ensures InRange(c) && c.zoom == 1.0 && c.panX == 0.0 && c.panY == 0.0
    ensures 0.08 <= c.rotationY <= 0.15 && 0.15 <= c.rotationX <= 0.25
  {
    match city
    case Tokyo => CameraState(0.12, 0.15, 1.0, 0.0, 0.0)
    case Moscow => CameraState(0.1, 0.2, 1.0, 0.0, 0.0)
    case NewYork => CameraState(0.1, 0.2, 1.0, 0.0, 0.0)
    case HongKong => CameraState(0.08, 0.18, 1.0, 0.0, 0.0)
    case Sydney => CameraState(0.15, 0.18, 1.0, 0.0, 0.0)
    case Philadelphia => CameraState(0.12, 0.2, 1.0, 0.0, 0.0)
    case Chicago => CameraState(0.15, 0.25, 1.0, 0.0, 0.0)
  }

  /** A rotate-mode drag by (dx, dy): yaw grows by 0.004 dx without bound,
      pitch moves by 0.003 dy but is clamped to [-0.3, 1.0] whatever it was
      before; zoom and pan are untouched. */
  function Rotated(c: CameraState, dx: real, dy: real): (r: CameraState)
    ensures r.rotationY == c.rotationY + dx * 0.004
    ensures MinPitch <= r.rotationX <= MaxPitch
    ensures r.rotationX == Clamp(c.rotationX + dy * 0.003, MinPitch, MaxPitch)
    ensures MinPitch <= c.rotationX + dy * 0.003 <= MaxPitch ==> r.rotationX == c.rotationX + dy * 0.003
    ensures c.rotationX + dy * 0.003 < MinPitch ==> r.rotationX == MinPitch
    ensures c.rotationX + dy * 0.003 > MaxPitch ==> r.rotationX == MaxPitch
    ensures r.zoom == c.zoom && r.panX == c.panX && r.panY == c.panY
  {
    c.(rotationY := c.rotationY + dx * 0.004, rotationX := Clamp(c.rotationX + dy * 0.003, MinPitch, MaxPitch))
  }

  /** A pan-mode drag by (dx, dy): the pan offset moves with the pointer,
      rotation and zoom are untouched. */
  function Panned(c: CameraState, dx: real, dy: real): (r: CameraState)
    ensures r.panX - c.panX == dx && r.panY - c.panY == dy
    ensures r.rotationY == c.rotationY && r.rotationX == c.rotationX && r.zoom == c.zoom
  {
    c.(panX := c.panX + dx, panY := c.panY + dy)
  }

  /** The wheel: zoom times 0.92 when scrolling down (deltaY > 0), times 1.08
      otherwise, clamped to [0.4, 2.5]; nothing else changes. */
  function Zoomed(c: CameraState, deltaY: real): (r: CameraState)
    ensures r.zoom == Clamp(c.zoom * (if deltaY > 0.0 then 0.92 else 1.08), MinZoom, MaxZoom)
    ensures deltaY > 0.0 && MinZoom <= c.zoom * 0.92 <= MaxZoom ==> r.zoom == c.zoom * 0.92
    ensures deltaY <= 0.0 && MinZoom <= c.zoom * 1.08 <= MaxZoom ==> r.zoom == c.zoom * 1.08
    ensures MinZoom <= r.zoom <= MaxZoom
    ensures r == c.(zoom := r.zoom)
    ensures InRange(c) ==> InRange(r)
    ensures InRange(c) && deltaY > 0.0 ==> r.zoom <= c.zoom
    ensures InRange(c) && deltaY <= 0.0 ==> r.zoom >= c.zoom
  {
    c.(zoom := Clamp(c.zoom * (if deltaY > 0.0 then 0.92 else 1.08), MinZoom, MaxZoom))
  }

  /** Pointer down at (x, y): dragging starts there, in pan mode exactly when
      shift is held; the camera does not move. */
  function Pressed(s: Controls, x: real, y: real, shift: bool): (r: Controls)
    ensures r.dragging && r.last == Mouse(x, y) && r.camera == s.camera
    ensures r.mode == Pan <==> shift
  {
    Controls(s.camera, true, if shift then Pan else Rotate, Mouse(x, y))
  }

  /** Pointer move to (x, y): a no-op unless dragging; otherwise the camera
      moves by the offset from the last pointer position, in the current
      mode, and the new position becomes the last one. */
  function Dragged(s: Controls, x: real, y: real): (r: Controls)
    ensures !s.dragging ==> r == s
    ensures s.dragging ==> r.dragging && r.mode == s.mode && r.last == Mouse(x, y)
    ensures s.dragging && s.mode == Rotate ==> r.camera == Rotated(s.camera, x - s.last.x, y - s.last.y)
    ensures s.dragging && s.mode == Pan ==> r.camera == Panned(s.camera, x - s.last.x, y - s.last.y)
  {
    if !s.dragging then s
    else
      var dx := x - s.last.x;
      var dy := y - s.last.y;
      var cam := if s.mode == Rotate then Rotated(s.camera, dx, dy) else Panned(s.camera, dx, dy);
      Controls(cam, s.dragging, s.mode, Mouse(x, y))
  }

  /** Pointer up (or leave): only `isDragging` changes. */
  function Released(s: Controls): (r: Controls)
    ensures !r.dragging && r.camera == s.camera && r.mode == s.mode && r.last == s.last
  {
    s.(dragging := false)
  }

  /** A run of pointer moves, in order. */
  function Drag(s: Controls, ps: seq<Mouse>): Controls
    decreases |ps|
  {
    if ps == [] then s else Drag(Dragged(s, ps[0].x, ps[0].y), ps[1..])
  }

  /** Every handler keeps pitch and zoom inside their ranges. */
  lemma HandlersKeepRange(s: Controls, x: real, y: real, shift: bool, deltaY: real)
    requires InRange(s.camera)
    ensures InRange(Pressed(s, x, y, shift).camera)
    ensures InRange(Dragged(s, x, y).camera)
    ensures InRange(Released(s).camera)
    ensures InRange(Zoomed(s.camera, deltaY))
  {
  }

  /** Moving while not dragging never changes anything. */
  lemma {:induction false} IdleDrag(s: Controls, ps: seq<Mouse>)
    requires !s.dragging
    ensures Drag(s, ps) == s
    decreases |ps|
  {
    if ps != [] {
      IdleDrag(Dragged(s, ps[0].x, ps[0].y), ps[1..]);
    }
  }

  /** After a pan-mode drag through p1 .. pk, the pan offset has moved by
      pk - p0, where p0 is the last pointer position before the drag: the
      per-move offsets telescope because every move stores its position. */
  lemma {:induction false} PanTelescopes(s: Controls, ps: seq<Mouse>)
    requires s.dragging && s.mode == Pan && ps != []
    ensures Drag(s, ps).camera.panX == s.camera.panX + (ps[|ps| - 1].x - s.last.x)
    ensures Drag(s, ps).camera.panY == s.camera.panY + (ps[|ps| - 1].y - s.last.y)
    ensures Drag(s, ps).camera.rotationY == s.camera.rotationY
    ensures Drag(s, ps).camera.rotationX == s.camera.rotationX
    ensures Drag(s, ps).camera.zoom == s.camera.zoom
    ensures Drag(s, ps).last == ps[|ps| - 1] && Drag(s, ps).dragging
    decreases |ps|
  {
    var s' := Dragged(s, ps[0].x, ps[0].y);
    if |ps| > 1 {
      PanTelescopes(s', ps[1..]);
      assert ps[1..][|ps[1..]| - 1] == ps[|ps| - 1];
    }
  }

  /** After a rotate-mode drag through p1 .. pk, yaw has moved by
      0.004 (pk.x - p0.x), pitch is inside its range and pan and zoom have
      not moved. */
  lemma {:induction false} YawTelescopes(s: Controls, ps: seq<Mouse>)
    requires s.dragging && s.mode == Rotate && ps != []
    ensures Drag(s, ps).camera.rotationY == s.camera.rotationY + (ps[|ps| - 1].x - s.last.x) * 0.004
    ensures MinPitch <= Drag(s, ps).camera.rotationX <= MaxPitch
    ensures Drag(s, ps).camera.panX == s.camera.panX && Drag(s, ps).camera.panY == s.camera.panY
    ensures Drag(s, ps).camera.zoom == s.camera.zoom
    ensures Drag(s, ps).last == ps[|ps| - 1] && Drag(s, ps).dragging
    decreases |ps|
  {
    var s' := Dragged(s, ps[0].x, ps[0].y);
    if |ps| > 1 {
      YawTelescopes(s', ps[1..]);
      assert ps[1..][|ps[1..]| - 1] == ps[|ps| - 1];
    }
  }

  /** Pointer down at p0 with shift, then moves p1 .. pk: the pan offset
      ends at the old pan plus pk - p0. */
  lemma ShiftDragPans(s: Controls, p0: Mouse, ps: seq<Mouse>)
    requires ps != []
    ensures Drag(Pressed(s, p0.x, p0.y, true), ps).camera.panX == s.camera.panX + (ps[|ps| - 1].x - p0.x)
    ensures Drag(Pressed(s, p0.x, p0.y, true), ps).camera.panY == s.camera.panY + (ps[|ps| - 1].y - p0.y)
  {
    PanTelescopes(Pressed(s, p0.x, p0.y, true), ps);
  }

  /** The camera part of one tick: yaw advances by the scene's step only when
      autorotate is on and no drag is in progress. */
  function TickCamera(c: CameraState, autoRotate: bool, dragging: bool, step: real): (r: CameraState)
    ensures r == c.(rotationY := r.rotationY)
    ensures r.rotationY != c.rotationY ==> autoRotate && !dragging
    ensures autoRotate && !dragging ==> r.rotationY == c.rotationY + step
  {
    if autoRotate && !dragging then c.(rotationY := c.rotationY + step) else c
  }

  /** The scanline after n ticks from s: `s => (s + 1) % 550` n times. */
  function ScanAfter(s: int, n: nat): (r: int)
    ensures 0 <= r < 550 || (n == 0 && r == s)
  {
    if n == 0 then s else (ScanAfter(s, n - 1) + 1) % 550
  }

  /** From any line on screen, n ticks land on line (s + n) mod 550. */
  lemma {:induction false} ScanAfterWraps(s: int, n: nat)
    requires 0 <= s < 550
    ensures ScanAfter(s, n) == (s + n) % 550
  {
    if n > 0 {
      ScanAfterWraps(s, n - 1);
      var p, q := ScanAfter(s, n - 1), (s + n - 1) / 550;
      assert s + n - 1 == 550 * q + p;
      if p + 1 == 550 {
        LineOnScreen(s + n, q + 1, 0);
        LineOnScreen(p + 1, 1, 0);
      } else {
        LineOnScreen(s + n, q, p + 1);
        LineOnScreen(p + 1, 0, p + 1);
      }
    }
  }

  /** A line number written as 550 q + r with r on screen is r modulo 550. */
  lemma LineOnScreen(x: int, q: int, r: int)
    requires x == 550 * q + r && 0 <= r < 550
    ensures x % 550 == r
  {
  }

  /** The state one scene keeps for its camera and animation. */
  class SceneController {
    const city: City
    var camera: CameraState
    var dragging: bool
    var mode: DragMode
    var last: Mouse
    var autoRotate: bool
    var time: real
    var scanline: int

    function State(): Controls
      reads this
    {
      Controls(camera, dragging, mode, last)
    }

    predicate Valid()
      reads this
    {
      InRange(camera) && 0 <= scanline < 550
    }

    /** The `useState` initial values. */
    constructor(city: City)
      ensures this.city == city && Valid()
      ensures camera == InitialCamera(city) && !dragging && mode == Rotate && last == Mouse(0.0, 0.0)
      ensures autoRotate && time == 0.0 && scanline == 0
    {
      this.city := city;
      camera := InitialCamera(city);
      dragging := false;
      mode := Rotate;
      last := Mouse(0.0, 0.0);
      autoRotate := true;
      time := 0.0;
      scanline := 0;
    }

    method PointerDown(x: real, y: real, shift: bool)
      requires Valid()
      modifies this
      ensures Valid() && State() == Pressed(old(State()), x, y, shift)
      ensures autoRotate == old(autoRotate) && time == old(time) && scanline == old(scanline)
    {
      dragging := true;
      last := Mouse(x, y);
      mode := if shift then Pan else Rotate;
    }

    method PointerMove(x: real, y: real)
      requires Valid()
      modifies this
      ensures Valid() && State() == Dragged(old(State()), x, y)
      ensures autoRotate == old(autoRotate) && time == old(time) && scanline == old(scanline)
    {
      if !dragging {
        return;
      }
      var dx := x - last.x;
      var dy := y - last.y;
      if mode == Rotate {
        camera := Rotated(camera, dx, dy);
      } else {
        camera := Panned(camera, dx, dy);
      }
      last := Mouse(x, y);
    }

    method PointerUp()
      requires Valid()
      modifies this
      ensures Valid() && State() == Released(old(State()))
      ensures autoRotate == old(autoRotate) && time == old(time) && scanline == old(scanline)
    {
      dragging := false;
    }

    method Wheel(deltaY: real)
      requires Valid()
      modifies this
      ensures Valid() && camera == Zoomed(old(camera), deltaY)
      ensures dragging == old(dragging) && mode == old(mode) && last == old(last)
      ensures autoRotate == old(autoRotate) && time == old(time) && scanline == old(scanline)
    {
      camera := Zoomed(camera, deltaY);
    }

    /** One 33 ms interval: time advances by 0.02, the scanline wraps at 550
        and the camera autorotates by the scene's step unless dragging. */
    method Tick()
      requires Valid()
      modifies this
      ensures Valid()
      ensures time == old(time) + 0.02 && scanline == (old(scanline) + 1) % 550
      ensures camera == TickCamera(old(camera), autoRotate, dragging, AutoRotateStep(city))
      ensures dragging == old(dragging) && mode == old(mode) && last == old(last) && autoRotate == old(autoRotate)
    {
      time := time + 0.02;
      scanline := (scanline + 1) % 550;
      if autoRotate && !dragging {
        camera := camera.(rotationY := camera.rotationY + AutoRotateStep(city));
      }
    }

    /** The autorotate button. */
    method ToggleAutoRotate()
      requires Valid()
      modifies this
      ensures Valid() && autoRotate == !old(autoRotate)
      ensures State() == old(State()) && time == old(time) && scanline == old(scanline)
    {
      autoRotate := !autoRotate;
    }

    /** A view preset button: the camera jumps to `preset`, which every scene's
        presets keep inside the clamped ranges. */
    method SetView(preset: CameraState)
      requires Valid()
      modifies this
      ensures camera == preset && (InRange(preset) ==> Valid())
      ensures dragging == old(dragging) && mode == old(mode) && last == old(last)
      ensures autoRotate == old(autoRotate) && time == old(time) && scanline == old(scanline)
    {
      camera := preset;
    }
  }
}
