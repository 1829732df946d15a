/** `project(x, y, z)`: rotate a world point by the camera yaw, then by its
    pitch, divide by the perspective depth and map to the 900-wide screen.
    The cosines and sines of the two camera angles are parameters. */
module Projection {
  import opened Geometry
  import opened Camera
  import opened Scenes

  /** Math.cos / Math.sin of camera.rotationY and camera.rotationX. */
  datatype Rotation = Rotation(cosY: real, sinY: real, cosX: real, sinX: real)

  /** What the cosine and sine of one angle satisfy. */
  predicate Unit(rot: Rotation)
  {
    rot.cosY * rot.cosY + rot.sinY * rot.sinY == 1.0 && rot.cosX * rot.cosX + rot.sinX * rot.sinX == 1.0
  }

  /** The rotation for yaw = pitch = 0. */
  const Level: Rotation := Rotation(1.0, 0.0, 1.0, 0.0)

  const Fov: real := 500.0
  const ViewerZ: real := 600.0
  const CentreX: real := 450.0

  /** The returned record `{x, y, z, scale}`. */
  datatype Projected = Projected(x: real, y: real, z: real, scale: real)

  /** The view-space point (rx, ry, rz2): yaw about the vertical axis, then
      pitch about the horizontal one. */
  function View(rot: Rotation, p: Point): Point
  {
    var rx := p.x * rot.cosY - p.z * rot.sinY;
    var rz := p.x * rot.sinY + p.z * rot.cosY;
    var ry := p.y * rot.cosX - rz * rot.sinX;
    var rz2 := p.y * rot.sinX + rz * rot.cosX;
    Point(rx, ry, rz2)
  }

  /** A rotation by a true cosine/sine pair keeps distances from the origin:
      the yaw step keeps x^2 + z^2 and the pitch step keeps y^2 + rz^2. */
  lemma ViewKeepsLength(rot: Rotation, p: Point)
    requires Unit(rot)
    ensures var v := View(rot, p);
      v.x * v.x + v.y * v.y + v.z * v.z == p.x * p.x + p.y * p.y + p.z * p.z
  {
    var rz := p.x * rot.sinY + p.z * rot.cosY;
    var v := View(rot, p);
    PairKeepsLength(p.x, p.z, rot.cosY, rot.sinY);
    assert v.x * v.x + rz * rz == p.x * p.x + p.z * p.z;
    PairKeepsLength(p.y, rz, rot.cosX, rot.sinX);
    assert v.y * v.y + v.z * v.z == p.y * p.y + rz * rz;
  }

  /** (a c - b s)^2 + (a s + b c)^2 = (a^2 + b^2)(c^2 + s^2). */
  lemma PairKeepsLength(a: real, b: real, c: real, s: real)
    requires c * c + s * s == 1.0
    ensures (a * c - b * s) * (a * c - b * s) + (a * s + b * c) * (a * s + b * c) == a * a + b * b
  {
    calc {
      (a * c - b * s) * (a * c - b * s) + (a * s + b * c) * (a * s + b * c);
      a * a * (c * c + s * s) + b * b * (c * c + s * s);
      a * a + b * b;
    }
  }

  /** The depth `project(...).z` that label culling and the painter's sort
      read: it depends on the rotation only, never on zoom or pan. */
  function Depth(rot: Rotation, p: Point): real
  {
    View(rot, p).z
  }

  /** `project` for the scene's centre y (330, or 320 in chicago). The
      perspective divide needs rz2 + 600 != 0; at 0 the script divides by
      zero. */
  function Project(cam: CameraState, rot: Rotation, city: City, p: Point): (r: Projected)
    requires Depth(rot, p) + ViewerZ != 0.0
    ensures r.z == Depth(rot, p)
    ensures r.scale * (r.z + ViewerZ) == Fov * cam.zoom
    ensures r.x - cam.panX - CentreX == View(rot, p).x * r.scale
    ensures CentreY(city) + cam.panY - r.y == View(rot, p).y * r.scale
  {
    var v := View(rot, p);
    var scale := (Fov * cam.zoom) / (v.z + ViewerZ);
    Projected(CentreX + v.x * scale + cam.panX, CentreY(city) - v.y * scale + cam.panY, v.z, scale)
  }

  /** Looking straight ahead (yaw = pitch = 0, zoom 1, no pan), (x, y, z)
      lands on (450 + x s, cy - y s) with s = 500 / (z + 600). */
  lemma StraightAhead(cam: CameraState, city: City, p: Point)
    requires cam.zoom == 1.0 && cam.panX == 0.0 && cam.panY == 0.0 && p.z + ViewerZ != 0.0
    ensures Depth(Level, p) == p.z
    ensures var s := Fov / (p.z + ViewerZ);
      Project(cam, Level, city, p) == Projected(CentreX + p.x * s, CentreY(city) - p.y * s, p.z, s)
  {
  }

  /** Straight ahead, mirror images about the plane x = 0 land on mirror
      images about the screen column 450 + panX. */
  lemma MirrorSymmetric(cam: CameraState, city: City, p: Point)
    requires p.z + ViewerZ != 0.0
    ensures var q := Point(-p.x, p.y, p.z);
      Project(cam, Level, city, p).x + Project(cam, Level, city, q).x == 2.0 * (CentreX + cam.panX) &&
      Project(cam, Level, city, p).y == Project(cam, Level, city, q).y
  {
    var q := Point(-p.x, p.y, p.z);
    assert View(Level, q) == Point(-View(Level, p).x, View(Level, p).y, View(Level, p).z);
  }

  /** With positive zoom, the scale strictly falls as the depth grows, as long
      as the nearer point is in front of the viewer (depth + 600 > 0). */
  lemma ScaleFalls(cam: CameraState, rot: Rotation, city: City, p: Point, q: Point)
    requires cam.zoom > 0.0 && Depth(rot, p) + ViewerZ > 0.0 && Depth(rot, p) < Depth(rot, q)
    ensures Project(cam, rot, city, q).scale < Project(cam, rot, city, p).scale
    ensures Project(cam, rot, city, q).scale > 0.0
  {
    var a := Fov * cam.zoom;
    var dp := Depth(rot, p) + ViewerZ;
    var dq := Depth(rot, q) + ViewerZ;
    DivFalls(a, dp, dq);
  }

  lemma DivFalls(a: real, d1: real, d2: real)
    requires a > 0.0 && 0.0 < d1 < d2
    ensures 0.0 < a / d2 < a / d1
  {
    var x := a / d1;
    var y := a / d2;
    assert x * d1 == a && y * d2 == a && x > 0.0 && y > 0.0;
    assert x * d1 < x * d2;
    assert (x - y) * d2 > 0.0;
  }

  /** Panning shifts every projected point by the pan offset and nothing else. */
  lemma PanShifts(cam: CameraState, rot: Rotation, city: City, p: Point)
    requires Depth(rot, p) + ViewerZ != 0.0
    ensures var r0 := Project(cam.(panX := 0.0, panY := 0.0), rot, city, p);
      Project(cam, rot, city, p) == Projected(r0.x + cam.panX, r0.y + cam.panY, r0.z, r0.scale)
  {
  }
}
