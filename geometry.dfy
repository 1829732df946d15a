/** World-space primitives shared by every geometry generator: points, segments
    with their render hint, the building descriptor, the symbolic trigonometry
    the curved generators are parameterised by, and the counting function that
    generator contracts are stated with. */
module Geometry {

  /** A world point; y is "up". */
  datatype Point = Point(x: real, y: real, z: real)

  /** The render hint a generator attaches to a segment. It only selects stroke
      width and opacity downstream and never changes the geometry. The named
      constants follow the flags the scenes set on their line records (`floor`,
      `thin`, `brace`, ...) and the element keys of the bridge renderers;
      `Plain` is a line record without any flag. */
  datatype Hint = Hint(code: nat)

  const Plain: Hint := Hint(0)
  const Floor: Hint := Hint(1)
  const Thin: Hint := Hint(2)
  const Spire: Hint := Hint(3)
  const Ring: Hint := Hint(4)
  const Main: Hint := Hint(5)
  const Brace: Hint := Hint(6)
  const Deck: Hint := Hint(7)
  const Antenna: Hint := Hint(8)
  const Twist: Hint := Hint(9)
  const EdgeLine: Hint := Hint(10)
  const Golden: Hint := Hint(11)
  const Stalinist: Hint := Hint(12)
  const Star: Hint := Hint(13)
  const Crown: Hint := Hint(14)
  const CrownRing: Hint := Hint(15)
  const Statue: Hint := Hint(16)
  const Diagonal: Hint := Hint(17)
  const Structure: Hint := Hint(18)
  const NeonCrown: Hint := Hint(19)
  const Porthole: Hint := Hint(20)
  const Shaft: Hint := Hint(21)
  const Fin: Hint := Hint(22)
  const Balcony: Hint := Hint(23)
  const Chord: Hint := Hint(24)
  const Truss: Hint := Hint(25)
  const Suspender: Hint := Hint(26)
  const Cable: Hint := Hint(27)
  const Beam: Hint := Hint(28)
  const Pylon: Hint := Hint(29)
  const Mountain: Hint := Hint(30)
  const Contour: Hint := Hint(31)

  /** A running "previous point" accumulator (`lastP`, `prevArchTop`,
      `prevP`): null before the first sample. */
  datatype Option<T> = None | Some(value: T)

  /** A straight segment from `a` to `b` carrying a render hint. A segment with
      a == b stands for a point marker (the porthole circles). */
  datatype Segment = Segment(a: Point, b: Point, hint: Hint)

  /** A catalogue entry: footprint centre (x, z), width, depth and height.
      Heights in every catalogue are whole numbers. */
  datatype Building = Building(x: real, z: real, w: real, d: real, h: int)
  {
    function H(): real { h as real }
    function HalfW(): real { w / 2.0 }
    function HalfD(): real { d / 2.0 }
  }

  /** Math.PI, Math.cos and Math.sin as parameters: the model never needs their
      values, only that every generator uses the same ones. */
  datatype Trig = Trig(pi: real, cos: real -> real, sin: real -> real)

  /** The four footprint corners of `b` scaled about its centre by `s`, in the
      order every scene lists them: (-,-), (+,-), (+,+), (-,+). */
  function CornerX(b: Building, s: real, i: int): real
  {
    if i % 4 == 0 || i % 4 == 3 then b.x - b.HalfW() * s else b.x + b.HalfW() * s
  }

  function CornerZ(b: Building, s: real, i: int): real
  {
    if i % 4 < 2 then b.z - b.HalfD() * s else b.z + b.HalfD() * s
  }

  function Corner(b: Building, s: real, i: int, y: real): Point
  {
    Point(CornerX(b, s, i), y, CornerZ(b, s, i))
  }

  /** p is one of the four corners of the footprint of b scaled by s, at p's
      own height: its x is one of the two side planes and its z one of the
      front and back planes. */
  predicate OnFootprint(b: Building, s: real, p: Point)
  {
    (p.x == b.x - b.HalfW() * s || p.x == b.x + b.HalfW() * s) &&
    (p.z == b.z - b.HalfD() * s || p.z == b.z + b.HalfD() * s)
  }

  /** Corner i of the footprint scaled by s lies on that footprint. */
  lemma CornerOnFootprint(b: Building, s: real, i: int, y: real)
    ensures OnFootprint(b, s, Corner(b, s, i, y))
  {
  }

  /** Both ends of every side of an outline are footprint corners. */
  lemma OutlineOnFootprint(b: Building, s: real, y: real, hint: Hint)
    ensures forall i :: 0 <= i < 4 ==>
      OnFootprint(b, s, Outline(b, s, y, hint)[i].a) && OnFootprint(b, s, Outline(b, s, y, hint)[i].b)
  {
    forall i | 0 <= i < 4
      ensures OnFootprint(b, s, Outline(b, s, y, hint)[i].a) && OnFootprint(b, s, Outline(b, s, y, hint)[i].b)
    {
      CornerOnFootprint(b, s, i, y);
      CornerOnFootprint(b, s, i + 1, y);
    }
  }

  /** Both ends of every upright of one scale are footprint corners. */
  lemma UprightsOnFootprint(b: Building, s: real, y1: real, y2: real, hint: Hint)
    ensures forall i :: 0 <= i < 4 ==>
      OnFootprint(b, s, Uprights(b, s, s, y1, y2, hint)[i].a) && OnFootprint(b, s, Uprights(b, s, s, y1, y2, hint)[i].b)
  {
    forall i | 0 <= i < 4
      ensures OnFootprint(b, s, Uprights(b, s, s, y1, y2, hint)[i].a) && OnFootprint(b, s, Uprights(b, s, s, y1, y2, hint)[i].b)
    {
      CornerOnFootprint(b, s, i, y1);
      CornerOnFootprint(b, s, i, y2);
    }
  }

  /** Vertical edge at corner i of the footprint scaled by s, from y1 to y2. */
  function Vertical(b: Building, s: real, i: int, y1: real, y2: real, hint: Hint): Segment
  {
    Segment(Corner(b, s, i, y1), Corner(b, s, i, y2), hint)
  }

  /** Tapered edge at corner i from scale s1 at y1 to scale s2 at y2. */
  function Taper(b: Building, s1: real, s2: real, i: int, y1: real, y2: real, hint: Hint): Segment
  {
    Segment(Corner(b, s1, i, y1), Corner(b, s2, i, y2), hint)
  }

  /** Horizontal edge from corner i to corner i+1 of the footprint scaled by s at height y. */
  function Edge(b: Building, s: real, i: int, y: real, hint: Hint): Segment
  {
    Segment(Corner(b, s, i, y), Corner(b, s, i + 1, y), hint)
  }

  /** A point at angle `angle` on the ellipse of radii (rx, rz) around the footprint centre. */
  function Polar(b: Building, tr: Trig, angle: real, rx: real, rz: real, y: real): Point
  {
    Point(b.x + tr.cos(angle) * rx, y, b.z + tr.sin(angle) * rz)
  }

  /** The point (b.x, y, b.z) on the building's axis. */
  function Axis(b: Building, y: real): Point
  {
    Point(b.x, y, b.z)
  }

  /** How many segments of `lines` carry `hint`. */
  function Count(lines: seq<Segment>, hint: Hint): nat
    ensures Count(lines, hint) <= |lines|
  {
    if lines == [] then 0
    else Count(lines[..|lines| - 1], hint) + (if lines[|lines| - 1].hint == hint then 1 else 0)
  }

  /** The hint count of a two-line tail. */
  lemma CountPair(x: Segment, y: Segment, h: Hint)
    ensures Count([x, y], h) == (if x.hint == h then 1 else 0) + (if y.hint == h then 1 else 0)
  {
    assert [x, y][..1] == [x];
    assert [x][..0] == [];
  }

  /** Concatenation is associative; stated on its own so that callers do
      not unfold the sequences they join. */
  lemma AppendAssoc(a: seq<Segment>, b: seq<Segment>, c: seq<Segment>)
    ensures (a + b) + c == a + (b + c)
  {
  }

  /** A total that splits into two parts equals the tally that splits into
      the same two parts. */
  lemma SumStep(total: int, part1: int, part2: int, tally: int, tally1: int, tally2: int)
    requires total == part1 + part2 && tally == tally1 + tally2
    requires part1 == tally1 && part2 == tally2
    ensures total == tally
  {
  }

  lemma {:induction false} CountAppend(s: seq<Segment>, t: seq<Segment>, hint: Hint)
    ensures Count(s + t, hint) == Count(s, hint) + Count(t, hint)
    decreases |t|
  {
    if t == [] {
      assert s + t == s;
    } else {
      var t' := t[..|t| - 1];
      assert (s + t)[..|s + t| - 1] == s + t';
      CountAppend(s, t', hint);
    }
  }

  lemma CountAppendAll(s: seq<Segment>, t: seq<Segment>)
    ensures forall hint :: Count(s + t, hint) == Count(s, hint) + Count(t, hint)
  {
    forall hint
      ensures Count(s + t, hint) == Count(s, hint) + Count(t, hint)
    {
      CountAppend(s, t, hint);
    }
  }

  /** Segments carrying two different hints are counted apart. */
  lemma {:induction false} CountDisjoint(lines: seq<Segment>, h1: Hint, h2: Hint)
    requires h1 != h2
    ensures Count(lines, h1) + Count(lines, h2) <= |lines|
    decreases |lines|
  {
    if lines != [] {
      CountDisjoint(lines[..|lines| - 1], h1, h2);
    }
  }

  lemma {:induction false} CountDisjoint3(lines: seq<Segment>, h1: Hint, h2: Hint, h3: Hint)
    requires h1 != h2 && h2 != h3 && h1 != h3
    ensures Count(lines, h1) + Count(lines, h2) + Count(lines, h3) <= |lines|
    decreases |lines|
  {
    if lines != [] {
      CountDisjoint3(lines[..|lines| - 1], h1, h2, h3);
    }
  }

  /** Appending one segment: the single step every generator loop is made of. */
  function Push(lines: seq<Segment>, seg: Segment): (r: seq<Segment>)
    ensures |r| == |lines| + 1 && r[|lines|] == seg
    ensures forall k :: 0 <= k < |lines| ==> r[k] == lines[k]
    ensures forall hint :: Count(r, hint) == Count(lines, hint) + (if seg.hint == hint then 1 else 0)
  {
    assert (lines + [seg])[..|lines|] == lines;
    lines + [seg]
  }

  /** Appending a block of segments that all carry `hint` (a `forEach` or
      `for` pass that pushes one kind of line). */
  method Append(lines: seq<Segment>, more: seq<Segment>, hint: Hint) returns (r: seq<Segment>)
    requires forall k :: 0 <= k < |more| ==> more[k].hint == hint
    ensures |r| == |lines| + |more|
    ensures forall k :: 0 <= k < |lines| ==> r[k] == lines[k]
    ensures forall k :: 0 <= k < |more| ==> r[|lines| + k] == more[k]
    ensures Count(r, hint) == Count(lines, hint) + |more|
    ensures forall h :: h != hint ==> Count(r, h) == Count(lines, h)
    ensures r == lines + more
  {
    r := lines + more;
    CountUniform(more, hint);
    CountAppend(lines, more, hint);
    forall h | h != hint
      ensures Count(r, h) == Count(lines, h)
    {
      CountUniform(more, h);
      CountAppend(lines, more, h);
    }
  }

  /** The four edges of the footprint scaled by s at height y, corner i to i+1
      (the `for (i = 0; i < 4; i++)` ring every scene draws). */
  function Outline(b: Building, s: real, y: real, hint: Hint): (r: seq<Segment>)
    ensures |r| == 4 && forall i :: 0 <= i < 4 ==> r[i] == Edge(b, s, i, y, hint)
    ensures forall i :: 0 <= i < 4 ==> r[i].hint == hint && r[i].a.y == y && r[i].b.y == y
  {
    [Edge(b, s, 0, y, hint), Edge(b, s, 1, y, hint), Edge(b, s, 2, y, hint), Edge(b, s, 3, y, hint)]
  }

  /** The four corner edges from scale s1 at y1 to scale s2 at y2 (the
      `corners.forEach` vertical pass). */
  function Uprights(b: Building, s1: real, s2: real, y1: real, y2: real, hint: Hint): (r: seq<Segment>)
    ensures |r| == 4 && forall i :: 0 <= i < 4 ==> r[i] == Taper(b, s1, s2, i, y1, y2, hint)
  {
    [Taper(b, s1, s2, 0, y1, y2, hint), Taper(b, s1, s2, 1, y1, y2, hint),
     Taper(b, s1, s2, 2, y1, y2, hint), Taper(b, s1, s2, 3, y1, y2, hint)]
  }

  /** Lines from each of the four corners of the footprint scaled by s at
      height y to one apex point (spires, crowns). */
  function ToApex(b: Building, s: real, y: real, apex: Point, hint: Hint): (r: seq<Segment>)
    ensures |r| == 4 && forall i :: 0 <= i < 4 ==> r[i] == Segment(Corner(b, s, i, y), apex, hint)
  {
    [Segment(Corner(b, s, 0, y), apex, hint), Segment(Corner(b, s, 1, y), apex, hint),
     Segment(Corner(b, s, 2, y), apex, hint), Segment(Corner(b, s, 3, y), apex, hint)]
  }

  /** Segments whose hints all equal `hint` are all counted; others not at all. */
  lemma {:induction false} CountUniform(s: seq<Segment>, hint: Hint)
    ensures (forall k :: 0 <= k < |s| ==> s[k].hint == hint) ==> Count(s, hint) == |s|
    ensures (forall k :: 0 <= k < |s| ==> s[k].hint != hint) ==> Count(s, hint) == 0
    decreases |s|
  {
    if s != [] {
      CountUniform(s[..|s| - 1], hint);
    }
  }

  /** A block whose segments all carry `hint` counts fully for `hint` and
      not at all for any other hint. */
  lemma CountUniformIs(s: seq<Segment>, hint: Hint, h: Hint)
    requires forall k :: 0 <= k < |s| ==> s[k].hint == hint
    ensures Count(s, h) == if h == hint then |s| else 0
  {
    CountUniform(s, h);
  }

  /** The angle (i / n) * 2 * PI + phase of vertex i of a regular n-gon. */
  function Angle(tr: Trig, i: int, n: nat, phase: real): real
    requires n > 0
  {
    (i as real / n as real) * tr.pi * 2.0 + phase
  }

  /** Side i of the n-gon inscribed in the ellipse of radii (rx, rz) at height y:
      from vertex i to vertex i + 1. */
  function PolygonSide(b: Building, tr: Trig, n: nat, phase: real, rx: real, rz: real, y: real, i: int, hint: Hint): Segment
    requires n > 0
  {
    Segment(Polar(b, tr, Angle(tr, i, n, phase), rx, rz, y), Polar(b, tr, Angle(tr, i + 1, n, phase), rx, rz, y), hint)
  }

  /** The n sides of the n-gon ring, in the order they are drawn. */
  function Polygon(b: Building, tr: Trig, n: nat, phase: real, rx: real, rz: real, y: real, hint: Hint): (r: seq<Segment>)
    requires n > 0
    ensures |r| == n && forall i :: 0 <= i < n ==> r[i] == PolygonSide(b, tr, n, phase, rx, rz, y, i, hint)
  {
    seq(n, i requires 0 <= i < n => PolygonSide(b, tr, n, phase, rx, rz, y, i, hint))
  }

  /** The loop `for (i = 0; i < n; i++)` that draws a horizontal n-gon ring
      (antenna rings, crown tiers, pyramid rings). The sides are level at y and
      form a connected path: each side starts where the previous one ends. */
  method AddPolygon(lines: seq<Segment>, b: Building, tr: Trig, n: nat, phase: real, rx: real, rz: real, y: real, hint: Hint)
    returns (r: seq<Segment>)
    requires n > 0
    ensures |r| == |lines| + n
    ensures forall k :: 0 <= k < |lines| ==> r[k] == lines[k]
    ensures forall k :: |lines| <= k < |r| ==> r[k] == PolygonSide(b, tr, n, phase, rx, rz, y, k - |lines|, hint)
    ensures forall k :: |lines| <= k < |r| ==> r[k].a.y == y && r[k].b.y == y
    ensures forall k :: |lines| <= k < |r| - 1 ==> r[k].b == r[k + 1].a
    ensures Count(r, hint) == Count(lines, hint) + n
    ensures forall h :: h != hint ==> Count(r, h) == Count(lines, h)
    ensures r == lines + Polygon(b, tr, n, phase, rx, rz, y, hint)
  {
    r := lines;
    for i := 0 to n
      invariant |r| == |lines| + i
      invariant forall k :: 0 <= k < |lines| ==> r[k] == lines[k]
      invariant forall k :: |lines| <= k < |r| ==> r[k] == PolygonSide(b, tr, n, phase, rx, rz, y, k - |lines|, hint)
      invariant forall h :: Count(r, h) == Count(lines, h) + if h == hint then i else 0
    {
      r := Push(r, PolygonSide(b, tr, n, phase, rx, rz, y, i, hint));
    }
  }

  /** The loop `for (i = 0; i < 4; i++)` drawing the ring of the footprint
      scaled by s at height y. */
  method AddOutline(lines: seq<Segment>, b: Building, s: real, y: real, hint: Hint) returns (r: seq<Segment>)
    ensures r == lines + Outline(b, s, y, hint)
  {
    r := lines;
    for i := 0 to 4
      invariant r == lines + Outline(b, s, y, hint)[..i]
    {
      assert Outline(b, s, y, hint)[..i + 1] == Outline(b, s, y, hint)[..i] + [Edge(b, s, i, y, hint)];
      r := r + [Edge(b, s, i, y, hint)];
    }
    assert Outline(b, s, y, hint)[..4] == Outline(b, s, y, hint);
  }

  /** The `corners.forEach` pass drawing the four corner edges from scale s1
      at y1 to scale s2 at y2. */
  method AddUprights(lines: seq<Segment>, b: Building, s1: real, s2: real, y1: real, y2: real, hint: Hint)
    returns (r: seq<Segment>)
    ensures r == lines + Uprights(b, s1, s2, y1, y2, hint)
  {
    r := lines;
    for i := 0 to 4
      invariant r == lines + Uprights(b, s1, s2, y1, y2, hint)[..i]
    {
      assert Uprights(b, s1, s2, y1, y2, hint)[..i + 1] == Uprights(b, s1, s2, y1, y2, hint)[..i] + [Taper(b, s1, s2, i, y1, y2, hint)];
      r := r + [Taper(b, s1, s2, i, y1, y2, hint)];
    }
    assert Uprights(b, s1, s2, y1, y2, hint)[..4] == Uprights(b, s1, s2, y1, y2, hint);
  }

  /** The point a fraction t of the way from p to q. */
  function Lerp(p: Point, q: Point, t: real): Point
  {
    Point(p.x + t * (q.x - p.x), p.y + t * (q.y - p.y), p.z + t * (q.z - p.z))
  }

  /** Scaling the footprint by 1 - t (1 - top) at height t y gives the point a
      fraction t up the tapered corner edge from the full footprint at the
      ground to the footprint scaled by top at y: rings drawn at those scales
      lie on the tapered edges. */
  lemma OnTaper(b: Building, top: real, i: int, t: real, y: real)
    ensures Corner(b, 1.0 - t * (1.0 - top), i, t * y) == Lerp(Corner(b, 1.0, i, 0.0), Corner(b, top, i, y), t)
  {
    assert b.HalfW() * (1.0 - t * (1.0 - top)) == b.HalfW() - t * (b.HalfW() - b.HalfW() * top);
    assert b.HalfD() * (1.0 - t * (1.0 - top)) == b.HalfD() - t * (b.HalfD() - b.HalfD() * top);
  }

  /** n, or cap once n reaches it: how many of the first n steps fall below
      cap. */
  function Capped(n: nat, cap: nat): (c: nat)
    ensures c <= n && c <= cap && (c == n || c == cap)
  {
    if n < cap then n else cap
  }

  lemma CappedStep(s: nat, cap: nat)
    ensures Capped(s + 1, cap) == Capped(s, cap) + (if s < cap then 1 else 0)
  {
  }

  /** Per side in turn (a `for (i = 0; i < 4; i++)` pass), the edge of the
      footprint scaled by s1 at y1 and then the edge scaled by s2 at y2, for
      sides 0 .. m - 1. */
  function Rims(b: Building, s1: real, s2: real, y1: real, y2: real, m: nat): (r: seq<Segment>)
    ensures |r| == 2 * m && forall k :: 0 <= k < |r| ==> r[k].hint == Plain
  {
    if m == 0 then [] else Rims(b, s1, s2, y1, y2, m - 1) + [Edge(b, s1, m - 1, y1, Plain), Edge(b, s2, m - 1, y2, Plain)]
  }

  /** Lines 2 i and 2 i + 1 are the two edges of side i. */
  lemma {:induction false} RimsAt(b: Building, s1: real, s2: real, y1: real, y2: real, m: nat)
    ensures forall i :: 0 <= i < m ==>
      Rims(b, s1, s2, y1, y2, m)[2 * i] == Edge(b, s1, i, y1, Plain) &&
      Rims(b, s1, s2, y1, y2, m)[2 * i + 1] == Edge(b, s2, i, y2, Plain)
  {
    if m > 0 {
      RimsAt(b, s1, s2, y1, y2, m - 1);
    }
  }

  method AddRims(lines: seq<Segment>, b: Building, s1: real, s2: real, y1: real, y2: real) returns (r: seq<Segment>)
    ensures r == lines + Rims(b, s1, s2, y1, y2, 4)
  {
    r := lines;
    for i := 0 to 4
      invariant r == lines + Rims(b, s1, s2, y1, y2, i)
    {
      r := r + [Edge(b, s1, i, y1, Plain), Edge(b, s2, i, y2, Plain)];
    }
  }

  /** A loop whose i-th pass pushes the i-th segment of `more`: the shape of
      every `forEach` or `for` pass that pushes one line per iteration. */
  method AddAll(lines: seq<Segment>, more: seq<Segment>) returns (r: seq<Segment>)
    ensures r == lines + more
  {
    r := lines;
    for i := 0 to |more|
      invariant r == lines + more[..i]
    {
      assert more[..i + 1] == more[..i] + [more[i]];
      r := r + [more[i]];
    }
    assert more[..|more|] == more;
  }
}
