/** Towers whose footprint changes with height. It shrinks linearly in Bank
    of China and Two IFC (HongKong.jsx), One World Trade Center (NYC.jsx), the
    tapered, optionally braced tower of chicago.jsx (John Hancock Center) and
    OKO Towers (Moscow.jsx); it swells and narrows again along half a sine in
    Comcast Center (Philadelphia.jsx). */
module Tapered {
  import opened Geometry

  // ---------------------------------------------------------------- Bank of China

  /** `scale1` of section s: 1 - (s / 5) * 0.25. */
  function BocScale(s: int): real
  {
    1.0 - (s as real / 5.0) * 0.25
  }

  /** `y1` of section s: (s / 5) * h. */
  function BocY(b: Building, s: int): real
  {
    (s as real / 5.0) * b.H()
  }

  /** The scale falls from 1 at the ground to 0.75 at the roof, strictly with
      every section. */
  lemma BocScaleFalls(k: int, l: int)
    ensures BocScale(0) == 1.0 && BocScale(5) == 0.75
    ensures k < l ==> BocScale(l) < BocScale(k)
  {
  }

  /** `mid`: the centre of the front face halfway up section s. */
  function BocMid(b: Building, s: int): Point
  {
    Point(b.x, (BocY(b, s) + BocY(b, s + 1)) / 2.0, b.z - b.HalfD() * ((BocScale(s) + BocScale(s + 1)) / 2.0))
  }

  /** The front-face X of section s: both bottom front corners up to `mid`,
      then `mid` up to both top front corners. */
  function BocDiagonals(b: Building, s: int): (r: seq<Segment>)
    ensures |r| == 4 && forall k :: 0 <= k < 4 ==> r[k].hint == Diagonal
  {
    var m := BocMid(b, s);
    [Segment(Corner(b, BocScale(s), 0, BocY(b, s)), m, Diagonal),
     Segment(Corner(b, BocScale(s), 1, BocY(b, s)), m, Diagonal),
     Segment(m, Corner(b, BocScale(s + 1), 0, BocY(b, s + 1)), Diagonal),
     Segment(m, Corner(b, BocScale(s + 1), 1, BocY(b, s + 1)), Diagonal)]
  }

  /** x mirrored in the plane x = cx. */
  function Mirror(p: Point, cx: real): Point
  {
    Point(2.0 * cx - p.x, p.y, p.z)
  }

  /** The four diagonals meet at one point, halfway up the front face's centre
      line, and the left pair mirrors the right pair in the building's axis. */
  lemma BocDiagonalsMeet(b: Building, s: int)
    ensures var r := BocDiagonals(b, s);
      r[0].b == r[1].b == r[2].a == r[3].a ==
        Lerp(Point(b.x, BocY(b, s), b.z - b.HalfD() * BocScale(s)),
             Point(b.x, BocY(b, s + 1), b.z - b.HalfD() * BocScale(s + 1)), 0.5)
    ensures var r := BocDiagonals(b, s);
      Mirror(r[0].a, b.x) == r[1].a && Mirror(r[2].b, b.x) == r[3].b && r[0].a.z == r[1].a.z
  {
  }

  /** Section s: four tapered corner edges, the ring at its top and, below
      the last section, the front X. */
  function BocSection(b: Building, s: int): seq<Segment>
  {
    Uprights(b, BocScale(s), BocScale(s + 1), BocY(b, s), BocY(b, s + 1), Plain) +
    Outline(b, BocScale(s + 1), BocY(b, s + 1), Plain) +
    (if s < 4 then BocDiagonals(b, s) else [])
  }

  function BocSections(b: Building, n: nat): seq<Segment>
  {
    if n == 0 then [] else BocSections(b, n - 1) + BocSection(b, n - 1)
  }

  /** The sections stack: each corner edge starts where the one below ends,
      on the ring that closes the section below. */
  lemma BocContiguous(b: Building, s: int, i: int)
    requires 0 <= i < 4
    ensures var below := Uprights(b, BocScale(s), BocScale(s + 1), BocY(b, s), BocY(b, s + 1), Plain);
      var above := Uprights(b, BocScale(s + 1), BocScale(s + 2), BocY(b, s + 1), BocY(b, s + 2), Plain);
      below[i].b == above[i].a && Outline(b, BocScale(s + 1), BocY(b, s + 1), Plain)[i].a == above[i].a
  {
  }

  method AddBocSection(lines: seq<Segment>, b: Building, s: int) returns (r: seq<Segment>)
    ensures r == lines + BocSection(b, s)
  {
    r := AddUprights(lines, b, BocScale(s), BocScale(s + 1), BocY(b, s), BocY(b, s + 1), Plain);
    r := AddOutline(r, b, BocScale(s + 1), BocY(b, s + 1), Plain);
    if s < 4 {
      r := r + BocDiagonals(b, s);
    }
  }

  lemma BocSectionCount(b: Building, s: int, h: Hint)
    ensures |BocSection(b, s)| == 8 + (if s < 4 then 4 else 0)
    ensures Count(BocSection(b, s), h) == (if h == Plain then 8 else 0) + (if h == Diagonal && s < 4 then 4 else 0)
  {
    var up := Uprights(b, BocScale(s), BocScale(s + 1), BocY(b, s), BocY(b, s + 1), Plain);
    var ring := Outline(b, BocScale(s + 1), BocY(b, s + 1), Plain);
    CountUniform(up, h);
    CountUniform(ring, h);
    CountAppend(up, ring, h);
    if s < 4 {
      CountUniform(BocDiagonals(b, s), h);
      CountAppend(up + ring, BocDiagonals(b, s), h);
    } else {
      assert BocSection(b, s) == up + ring;
    }
  }

  lemma {:induction false} BocSectionsCount(b: Building, n: nat, h: Hint)
    ensures |BocSections(b, n)| == 8 * n + 4 * Capped(n, 4)
    ensures Count(BocSections(b, n), h) == (if h == Plain then 8 * n else 0) + (if h == Diagonal then 4 * Capped(n, 4) else 0)
  {
    if n > 0 {
      var s := n - 1;
      BocSectionsCount(b, s, h);
      BocSectionCount(b, s, h);
      CountAppend(BocSections(b, s), BocSection(b, s), h);
      CappedStep(s, 4);
    }
  }

  /** The two masts: 30 high at x - 5, 25 high at x + 5. */
  function BocAntennas(b: Building): seq<Segment>
  {
    [Segment(Point(b.x - 5.0, b.H(), b.z), Point(b.x - 5.0, b.H() + 30.0, b.z), Thin),
     Segment(Point(b.x + 5.0, b.H(), b.z), Point(b.x + 5.0, b.H() + 25.0, b.z), Thin)]
  }

  /** Bank of China (`b.boc`): five sections (40 plain lines), 16 diagonals,
      two masts. */
  method BankOfChina(b: Building) returns (lines: seq<Segment>)
    ensures lines == BocSections(b, 5) + BocAntennas(b)
    ensures |lines| == 58
    ensures Count(lines, Plain) == 40 && Count(lines, Diagonal) == 16 && Count(lines, Thin) == 2
  {
    lines := [];
    for s := 0 to 5
      invariant lines == BocSections(b, s)
    {
      lines := AddBocSection(lines, b, s);
    }
    lines := lines + BocAntennas(b);
    BocCount(b, Plain);
    BocCount(b, Diagonal);
    BocCount(b, Thin);
  }

  lemma BocCount(b: Building, h: Hint)
    ensures |BocSections(b, 5) + BocAntennas(b)| == 58
    ensures Count(BocSections(b, 5) + BocAntennas(b), h) ==
      (if h == Plain then 40 else 0) + (if h == Diagonal then 16 else 0) + (if h == Thin then 2 else 0)
  {
    BocSectionsCount(b, 5, h);
    CountUniform(BocAntennas(b), h);
    CountAppend(BocSections(b, 5), BocAntennas(b), h);
  }

  // ---------------------------------------------------------------- Two IFC

  /** `scale` of band f: 1 - (f / 20) * (1 - 0.85). */
  function IfcBandScale(f: int): real
  {
    1.0 - (f as real / 20.0) * (1.0 - 0.85)
  }

  /** `y` of band f: (f / 20) * h * 0.9. */
  function IfcBandY(b: Building, f: int): real
  {
    (f as real / 20.0) * (b.H() * 0.9)
  }

  /** The shaft: four edges tapering from the full footprint at the ground to
      scale 0.85 at 0.9 h. */
  function IfcShaft(b: Building): seq<Segment>
  {
    Uprights(b, 1.0, 0.85, 0.0, b.H() * 0.9, Plain)
  }

  function IfcBands(b: Building, n: nat): (r: seq<Segment>)
    ensures |r| == 4 * n && forall k :: 0 <= k < |r| ==> r[k].hint == Floor
  {
    if n == 0 then [] else IfcBands(b, n - 1) + Outline(b, IfcBandScale(n - 1), IfcBandY(b, n - 1), Floor)
  }

  /** The crown: from the shaft's top corners in to scale 0.85 * 0.6 at h. */
  function IfcCrown(b: Building): seq<Segment>
  {
    Uprights(b, 0.85, 0.85 * 0.6, b.H() * 0.9, b.H(), Plain)
  }

  function IfcAntenna(b: Building): Segment
  {
    Segment(Axis(b, b.H()), Axis(b, b.H() + 40.0), Thin)
  }

  /** Every floor band lies on the tapered shaft: its corners are the points
      f / 20 of the way up the corner edges, so the bands sit strictly below
      the crown base 0.9 h; the crown starts where the shaft ends. */
  lemma IfcBandsOnShaft(b: Building, f: int, i: int)
    requires 0 <= i < 4
    ensures Outline(b, IfcBandScale(f), IfcBandY(b, f), Floor)[i].a == Lerp(IfcShaft(b)[i].a, IfcShaft(b)[i].b, f as real / 20.0)
    ensures IfcCrown(b)[i].a == IfcShaft(b)[i].b && IfcCrown(b)[i].b.y == b.H()
  {
    BandOnEdge(b, f, i);
  }

  /** Corner i of band f is f / 20 of the way up corner edge i of the shaft. */
  lemma BandOnEdge(b: Building, f: int, i: int)
    ensures Corner(b, IfcBandScale(f), i, IfcBandY(b, f)) ==
      Lerp(Corner(b, 1.0, i, 0.0), Corner(b, 0.85, i, b.H() * 0.9), f as real / 20.0)
  {
    OnTaper(b, 0.85, i, f as real / 20.0, b.H() * 0.9);
  }

  /** The bands lie from the ground up to strictly below the crown base. */
  lemma IfcBandsBelowCrown(b: Building, f: int)
    requires b.h > 0 && 0 <= f < 20
    ensures 0.0 <= IfcBandY(b, f) < b.H() * 0.9
  {
    assert 0.0 <= f as real / 20.0 < 1.0 && b.H() * 0.9 > 0.0;
    MulBelow(f as real / 20.0, b.H() * 0.9);
  }

  /** t y < y for 0 <= t < 1 and y > 0. */
  lemma MulBelow(t: real, y: real)
    requires 0.0 <= t < 1.0 && y > 0.0
    ensures 0.0 <= t * y < y
  {
  }

  method AddIfcBands(lines: seq<Segment>, b: Building) returns (r: seq<Segment>)
    ensures r == lines + IfcBands(b, 20)
  {
    r := lines;
    for f := 0 to 20
      invariant r == lines + IfcBands(b, f)
    {
      r := AddOutline(r, b, IfcBandScale(f), IfcBandY(b, f), Floor);
    }
  }

  /** Two IFC (`b.ifc`): 4 shaft edges, 20 floor bands, 4 crown edges and the
      antenna: 89 lines. */
  method TwoIfc(b: Building) returns (lines: seq<Segment>)
    ensures lines == IfcShaft(b) + IfcBands(b, 20) + IfcCrown(b) + [IfcAntenna(b)]
    ensures |lines| == 89
    ensures Count(lines, Plain) == 8 && Count(lines, Floor) == 80 && Count(lines, Thin) == 1
  {
    ghost var shaft, bands, crown := IfcShaft(b), IfcBands(b, 20), IfcCrown(b);
    lines := AddUprights([], b, 1.0, 0.85, 0.0, b.H() * 0.9, Plain);
    assert lines == shaft;
    lines := AddIfcBands(lines, b);
    assert lines == shaft + bands;
    lines := AddUprights(lines, b, 0.85, 0.85 * 0.6, b.H() * 0.9, b.H(), Plain);
    assert lines == shaft + bands + crown;
    lines := lines + [IfcAntenna(b)];
    assert |shaft| == 4 && |bands| == 80 && |crown| == 4;
    IfcCount(b, Plain);
    IfcCount(b, Floor);
    IfcCount(b, Thin);
  }

  lemma IfcCount(b: Building, h: Hint)
    ensures Count(IfcShaft(b) + IfcBands(b, 20) + IfcCrown(b) + [IfcAntenna(b)], h) ==
      (if h == Plain then 8 else 0) + (if h == Floor then 80 else 0) + (if h == Thin then 1 else 0)
  {
    var shaft, bands, crown, ant := IfcShaft(b), IfcBands(b, 20), IfcCrown(b), [IfcAntenna(b)];
    CountUniformIs(shaft, Plain, h);
    CountUniformIs(bands, Floor, h);
    CountUniformIs(crown, Plain, h);
    CountUniformIs(ant, Thin, h);
    CountAppend(shaft, bands, h);
    CountAppend(shaft + bands, crown, h);
    CountAppend(shaft + bands + crown, ant, h);
  }

  // ---------------------------------------------------------------- One World Trade Center

  /** `s1` of segment s: 1 - (s / 25) * (1 - 0.65). */
  function OwtcScale(s: int): real
  {
    1.0 - (s as real / 25.0) * (1.0 - 0.65)
  }

  /** `y1` of segment s: (s / 25) * (h - 50); the spire takes the top 50. */
  function OwtcY(b: Building, s: int): real
  {
    (s as real / 25.0) * (b.H() - 50.0)
  }

  /** Vertex i of the octagon of segment s, at angle (i / 8) 2 pi + pi / 8 on
      the ellipse of radii (w / 2, d / 2) scaled by `s1`. */
  function OwtcVertex(b: Building, tr: Trig, s: int, i: int): Point
  {
    Polar(b, tr, Angle(tr, i, 8, tr.pi / 8.0), b.HalfW() * OwtcScale(s), b.HalfD() * OwtcScale(s), OwtcY(b, s))
  }

  /** The edge of vertex i through segment s. */
  function OwtcRise(b: Building, tr: Trig, s: int, i: int): Segment
  {
    Segment(OwtcVertex(b, tr, s, i), OwtcVertex(b, tr, s + 1, i), Plain)
  }

  /** The floor edge from vertex i to vertex i + 1 at the bottom of segment s. */
  function OwtcFloor(b: Building, tr: Trig, s: int, i: int): Segment
  {
    Segment(OwtcVertex(b, tr, s, i), OwtcVertex(b, tr, s, i + 1), Floor)
  }

  /** Segment s draws its floor octagon: `s % 5 === 0`. */
  predicate Floored(s: int)
  {
    s % 5 == 0
  }

  /** Vertices 0 .. m - 1 of segment s: each its edge, then on every fifth
      segment its floor edge. */
  function OwtcSides(b: Building, tr: Trig, s: int, m: nat): seq<Segment>
  {
    if m == 0 then []
    else OwtcSides(b, tr, s, m - 1) + [OwtcRise(b, tr, s, m - 1)] + (if Floored(s) then [OwtcFloor(b, tr, s, m - 1)] else [])
  }

  function OwtcSegments(b: Building, tr: Trig, n: nat): seq<Segment>
  {
    if n == 0 then [] else OwtcSegments(b, tr, n - 1) + OwtcSides(b, tr, n - 1, 8)
  }

  /** The scale falls linearly from 1 to 0.65 and the octagon tops out at
      h - 50, where the spire starts; each edge starts where the one below
      ends. */
  lemma OwtcShape(b: Building, tr: Trig, k: int, l: int, i: int)
    ensures OwtcScale(0) == 1.0 && OwtcScale(25) == 0.65 && (k < l ==> OwtcScale(l) < OwtcScale(k))
    ensures OwtcY(b, 25) == b.H() - 50.0 && OwtcSpire(b).a.y == OwtcY(b, 25)
    ensures OwtcRise(b, tr, k, i).b == OwtcRise(b, tr, k + 1, i).a
    ensures OwtcFloor(b, tr, k, i).a.y == OwtcFloor(b, tr, k, i).b.y == OwtcY(b, k)
  {
  }

  method AddOwtcSegment(lines: seq<Segment>, b: Building, tr: Trig, s: int) returns (r: seq<Segment>)
    ensures r == lines + OwtcSides(b, tr, s, 8)
  {
    r := lines;
    for i := 0 to 8
      invariant r == lines + OwtcSides(b, tr, s, i)
    {
      r := r + [OwtcRise(b, tr, s, i)];
      if Floored(s) {
        r := r + [OwtcFloor(b, tr, s, i)];
      }
    }
  }

  lemma {:induction false} OwtcSidesSize(b: Building, tr: Trig, s: int, m: nat)
    ensures |OwtcSides(b, tr, s, m)| == m + (if Floored(s) then m else 0)
  {
    if m > 0 {
      OwtcSidesSize(b, tr, s, m - 1);
    }
  }

  lemma {:induction false} OwtcSidesCount(b: Building, tr: Trig, s: int, m: nat, h: Hint)
    ensures Count(OwtcSides(b, tr, s, m), h) == (if h == Plain then m else 0) + (if h == Floor && Floored(s) then m else 0)
  {
    if m > 0 {
      var below := OwtcSides(b, tr, s, m - 1);
      var rise := [OwtcRise(b, tr, s, m - 1)];
      var fl: seq<Segment> := if Floored(s) then [OwtcFloor(b, tr, s, m - 1)] else [];
      OwtcSidesCount(b, tr, s, m - 1, h);
      CountUniformIs(rise, Plain, h);
      CountUniformIs(fl, Floor, h);
      CountAppend(below, rise, h);
      CountAppend(below + rise, fl, h);
      assert OwtcSides(b, tr, s, m) == below + rise + fl;
    }
  }

  /** How many of segments 0 .. n - 1 draw floor edges: ceil(n / 5). */
  function Fifths(n: nat): nat
  {
    (n + 4) / 5
  }

  lemma {:induction false} OwtcSegmentsCount(b: Building, tr: Trig, n: nat, h: Hint)
    ensures |OwtcSegments(b, tr, n)| == 8 * n + 8 * Fifths(n)
    ensures Count(OwtcSegments(b, tr, n), h) == (if h == Plain then 8 * n else 0) + (if h == Floor then 8 * Fifths(n) else 0)
  {
    if n > 0 {
      var s := n - 1;
      OwtcSegmentsCount(b, tr, s, h);
      OwtcSidesSize(b, tr, s, 8);
      OwtcSidesCount(b, tr, s, 8, h);
      CountAppend(OwtcSegments(b, tr, s), OwtcSides(b, tr, s, 8), h);
      FifthsStep(s);
      OwtcArithmetic(|OwtcSegments(b, tr, s)|, |OwtcSides(b, tr, s, 8)|, s, Fifths(s), Fifths(n), Floored(s), true, true);
      OwtcArithmetic(Count(OwtcSegments(b, tr, s), h), Count(OwtcSides(b, tr, s, 8), h), s, Fifths(s), Fifths(n), Floored(s), h == Plain, h == Floor);
    }
  }

  /** The tally of one more segment, with the counts kept abstract. */
  lemma OwtcArithmetic(below: int, top: int, s: int, f0: int, f1: int, floored: bool, isPlain: bool, isFloor: bool)
    requires below == (if isPlain then 8 * s else 0) + (if isFloor then 8 * f0 else 0)
    requires top == (if isPlain then 8 else 0) + (if isFloor && floored then 8 else 0)
    requires f1 == f0 + (if floored then 1 else 0)
    ensures below + top == (if isPlain then 8 * (s + 1) else 0) + (if isFloor then 8 * f1 else 0)
  {
  }

  /** One more segment adds a floor octagon exactly when its index is a
      multiple of 5. */
  lemma FifthsStep(s: nat)
    ensures Fifths(s + 1) == Fifths(s) + (if Floored(s) then 1 else 0)
  {
    var q, r := s / 5, s % 5;
    assert s == 5 * q + r && 0 <= r < 5;
    assert s + 5 == 5 * (q + 1) + r;
    assert Fifths(s + 1) == q + 1;
    assert Fifths(s) == q + (if r == 0 then 0 else 1);
  }

  function OwtcSpire(b: Building): Segment
  {
    Segment(Axis(b, b.H() - 50.0), Axis(b, b.H() + 40.0), Thin)
  }

  /** One World Trade Center (`b.owtc`): 25 segments of 8 edges, floor
      octagons on segments 0, 5, 10, 15 and 20, then the spire: 241 lines. */
  method OneWorldTradeCenter(b: Building, tr: Trig) returns (lines: seq<Segment>)
    ensures lines == OwtcSegments(b, tr, 25) + [OwtcSpire(b)]
    ensures |lines| == 241
    ensures Count(lines, Plain) == 200 && Count(lines, Floor) == 40 && Count(lines, Thin) == 1
  {
    lines := [];
    for s := 0 to 25
      invariant lines == OwtcSegments(b, tr, s)
    {
      lines := AddOwtcSegment(lines, b, tr, s);
    }
    lines := lines + [OwtcSpire(b)];
    OwtcCount(b, tr, Plain);
    OwtcCount(b, tr, Floor);
    OwtcCount(b, tr, Thin);
  }

  lemma OwtcCount(b: Building, tr: Trig, h: Hint)
    ensures |OwtcSegments(b, tr, 25) + [OwtcSpire(b)]| == 241
    ensures Count(OwtcSegments(b, tr, 25) + [OwtcSpire(b)], h) ==
      (if h == Plain then 200 else 0) + (if h == Floor then 40 else 0) + (if h == Thin then 1 else 0)
  {
    OwtcSegmentsCount(b, tr, 25, h);
    assert Fifths(25) == 5;
    CountUniformIs([OwtcSpire(b)], Thin, h);
    CountAppend(OwtcSegments(b, tr, 25), [OwtcSpire(b)], h);
  }

  // ---------------------------------------------------------------- chicago tapered tower

  /** `topScale`: the roof footprint is 0.55 of the base. */
  const HancockTop: real := 0.55

  /** `s1` of bracing level i: 1 - (i / 5) * (1 - 0.55). */
  function HancockScale(i: int): real
  {
    1.0 - (i as real / 5.0) * (1.0 - HancockTop)
  }

  function HancockY(b: Building, i: int): real
  {
    (i as real / 5.0) * b.H()
  }

  /** The X on face k (from corner k to corner k + 1) of level i. */
  function HancockX(b: Building, i: int, k: int): seq<Segment>
  {
    [Segment(Corner(b, HancockScale(i), k, HancockY(b, i)), Corner(b, HancockScale(i + 1), k + 1, HancockY(b, i + 1)), Brace),
     Segment(Corner(b, HancockScale(i), k + 1, HancockY(b, i)), Corner(b, HancockScale(i + 1), k, HancockY(b, i + 1)), Brace)]
  }

  /** Faces 0 .. m - 1 of level i. */
  function HancockLevel(b: Building, i: int, m: nat): (r: seq<Segment>)
    ensures |r| == 2 * m && forall k :: 0 <= k < |r| ==> r[k].hint == Brace
  {
    if m == 0 then [] else HancockLevel(b, i, m - 1) + HancockX(b, i, m - 1)
  }

  function HancockLevels(b: Building, n: nat): (r: seq<Segment>)
    ensures |r| == 8 * n && forall k :: 0 <= k < |r| ==> r[k].hint == Brace
  {
    if n == 0 then [] else HancockLevels(b, n - 1) + HancockLevel(b, n - 1, 4)
  }

  /** Every brace end lies on a tapered corner edge of the frame, i / 5 of the
      way up at the bottom of level i and (i + 1) / 5 at its top. */
  lemma BracesOnEdges(b: Building, i: int, k: int)
    ensures var x := HancockX(b, i, k);
      x[0].a == Lerp(Corner(b, 1.0, k, 0.0), Corner(b, HancockTop, k, b.H()), i as real / 5.0) &&
      x[0].b == Lerp(Corner(b, 1.0, k + 1, 0.0), Corner(b, HancockTop, k + 1, b.H()), (i + 1) as real / 5.0) &&
      x[1].a == Lerp(Corner(b, 1.0, k + 1, 0.0), Corner(b, HancockTop, k + 1, b.H()), i as real / 5.0) &&
      x[1].b == Lerp(Corner(b, 1.0, k, 0.0), Corner(b, HancockTop, k, b.H()), (i + 1) as real / 5.0)
  {
    LevelOnEdge(b, i, k);
    LevelOnEdge(b, i, k + 1);
    LevelOnEdge(b, i + 1, k);
    LevelOnEdge(b, i + 1, k + 1);
  }

  /** Corner k of bracing level i is i / 5 of the way up corner edge k. */
  lemma LevelOnEdge(b: Building, i: int, k: int)
    ensures Corner(b, HancockScale(i), k, HancockY(b, i)) ==
      Lerp(Corner(b, 1.0, k, 0.0), Corner(b, HancockTop, k, b.H()), i as real / 5.0)
  {
    OnTaper(b, HancockTop, k, i as real / 5.0, b.H());
  }

  method AddHancockLevel(lines: seq<Segment>, b: Building, i: int) returns (r: seq<Segment>)
    ensures r == lines + HancockLevel(b, i, 4)
  {
    r := lines;
    for k := 0 to 4
      invariant r == lines + HancockLevel(b, i, k)
    {
      r := r + HancockX(b, i, k);
    }
  }

  /** The tapered tower (`b.tapered`): four corner edges from the full
      footprint to scale 0.55 at the roof, the base and roof edges, with
      `b.braced` five levels of X bracing on all four faces, and with
      `b.antennas` one 50-high mast. */
  method TaperedTower(b: Building, braced: bool, antennas: bool) returns (lines: seq<Segment>)
    ensures lines == Uprights(b, 1.0, HancockTop, 0.0, b.H(), Plain) + Rims(b, 1.0, HancockTop, 0.0, b.H(), 4) +
      (if braced then HancockLevels(b, 5) else []) +
      (if antennas then [Segment(Axis(b, b.H()), Axis(b, b.H() + 50.0), Thin)] else [])
    ensures |lines| == 12 + (if braced then 40 else 0) + (if antennas then 1 else 0)
    ensures Count(lines, Plain) == 12 && Count(lines, Brace) == (if braced then 40 else 0)
    ensures Count(lines, Thin) == if antennas then 1 else 0
  {
    ghost var up, rims := Uprights(b, 1.0, HancockTop, 0.0, b.H(), Plain), Rims(b, 1.0, HancockTop, 0.0, b.H(), 4);
    ghost var braces: seq<Segment> := if braced then HancockLevels(b, 5) else [];
    ghost var ant: seq<Segment> := if antennas then [Segment(Axis(b, b.H()), Axis(b, b.H() + 50.0), Thin)] else [];
    lines := AddUprights([], b, 1.0, HancockTop, 0.0, b.H(), Plain);
    lines := AddRims(lines, b, 1.0, HancockTop, 0.0, b.H());
    assert lines == up + rims;
    ghost var frame := lines;
    if braced {
      for i := 0 to 5
        invariant lines == frame + HancockLevels(b, i)
      {
        lines := AddHancockLevel(lines, b, i);
        AppendAssoc(frame, HancockLevels(b, i), HancockLevel(b, i, 4));
      }
    }
    assert lines == up + rims + braces;
    if antennas {
      lines := lines + [Segment(Axis(b, b.H()), Axis(b, b.H() + 50.0), Thin)];
    }
    assert lines == up + rims + braces + ant;
    assert |up| == 4 && |rims| == 8;
    TaperedCount(b, braced, antennas, Plain);
    TaperedCount(b, braced, antennas, Brace);
    TaperedCount(b, braced, antennas, Thin);
  }

  lemma TaperedCount(b: Building, braced: bool, antennas: bool, h: Hint)
    ensures var lines := Uprights(b, 1.0, HancockTop, 0.0, b.H(), Plain) + Rims(b, 1.0, HancockTop, 0.0, b.H(), 4) +
      (if braced then HancockLevels(b, 5) else []) +
      (if antennas then [Segment(Axis(b, b.H()), Axis(b, b.H() + 50.0), Thin)] else []);
      Count(lines, h) == (if h == Plain then 12 else 0) + (if h == Brace && braced then 40 else 0) +
        (if h == Thin && antennas then 1 else 0)
  {
    var up := Uprights(b, 1.0, HancockTop, 0.0, b.H(), Plain);
    var rims := Rims(b, 1.0, HancockTop, 0.0, b.H(), 4);
    var braces: seq<Segment> := if braced then HancockLevels(b, 5) else [];
    var ant: seq<Segment> := if antennas then [Segment(Axis(b, b.H()), Axis(b, b.H() + 50.0), Thin)] else [];
    CountUniformIs(up, Plain, h);
    CountUniformIs(rims, Plain, h);
    CountUniformIs(braces, Brace, h);
    CountUniformIs(ant, Thin, h);
    CountAppend(up, rims, h);
    CountAppend(up + rims, braces, h);
    CountAppend(up + rims + braces, ant, h);
  }

  // ---------------------------------------------------------------- OKO Towers

  /** `topScale`: the roof footprint is 0.9 of the base. */
  const OkoTop: real := 0.9

  /** `scale` of floor band f: 1 - (f / 20) * (1 - 0.9). */
  function OkoScale(f: int): real
  {
    1.0 - (f as real / 20.0) * (1.0 - OkoTop)
  }

  /** `y` of floor band f: (f / 20) * h. */
  function OkoY(b: Building, f: int): real
  {
    (f as real / 20.0) * b.H()
  }

  /** Floor band f: one line across the front face, from corner 0 to corner 1
      of the footprint scaled to that height. */
  function OkoBand(b: Building, f: int): Segment
  {
    Edge(b, OkoScale(f), 0, OkoY(b, f), Floor)
  }

  function OkoBands(b: Building, n: nat): (r: seq<Segment>)
    ensures |r| == n && forall f :: 0 <= f < n ==> r[f] == OkoBand(b, f)
  {
    if n == 0 then [] else OkoBands(b, n - 1) + [OkoBand(b, n - 1)]
  }

  function OkoCrown(b: Building): Segment
  {
    Segment(Axis(b, b.H()), Axis(b, b.H() + 15.0), Thin)
  }

  function OkoLines(b: Building): seq<Segment>
  {
    Uprights(b, 1.0, OkoTop, 0.0, b.H(), Plain) + Rims(b, 1.0, OkoTop, 0.0, b.H(), 4) + OkoBands(b, 20) + [OkoCrown(b)]
  }

  /** Each band spans the front face of the tapered shaft: its ends are the
      points f / 20 of the way up corner edges 0 and 1, it is level, and on a
      tower of positive height bands 0 .. 19 lie from the ground to below the
      roof, where the crown starts. */
  lemma OkoBandsOnFace(b: Building, f: int)
    ensures OkoBand(b, f).a == Lerp(Corner(b, 1.0, 0, 0.0), Corner(b, OkoTop, 0, b.H()), f as real / 20.0)
    ensures OkoBand(b, f).b == Lerp(Corner(b, 1.0, 1, 0.0), Corner(b, OkoTop, 1, b.H()), f as real / 20.0)
    ensures OkoBand(b, f).a.y == OkoBand(b, f).b.y && OkoBand(b, f).a.z == OkoBand(b, f).b.z
    ensures b.h > 0 && 0 <= f < 20 ==> 0.0 <= OkoY(b, f) < OkoCrown(b).a.y
  {
    OnTaper(b, OkoTop, 0, f as real / 20.0, b.H());
    OnTaper(b, OkoTop, 1, f as real / 20.0, b.H());
    if b.h > 0 && 0 <= f < 20 {
      MulBelow(f as real / 20.0, b.H());
    }
  }

  method AddOkoBands(lines: seq<Segment>, b: Building) returns (r: seq<Segment>)
    ensures r == lines + OkoBands(b, 20)
  {
    r := lines;
    for f := 0 to 20
      invariant r == lines + OkoBands(b, f)
    {
      r := r + [OkoBand(b, f)];
    }
  }

  /** OKO Towers (`b.oko`): four corner edges tapering to 0.9, the base and
      roof edges, 20 front-face floor bands and the crown mast: 33 lines. */
  method OkoTower(b: Building) returns (lines: seq<Segment>)
    ensures lines == OkoLines(b)
    ensures |lines| == 33
    ensures Count(lines, Plain) == 12 && Count(lines, Floor) == 20 && Count(lines, Thin) == 1
  {
    ghost var up, rims, bands := Uprights(b, 1.0, OkoTop, 0.0, b.H(), Plain), Rims(b, 1.0, OkoTop, 0.0, b.H(), 4), OkoBands(b, 20);
    lines := AddUprights([], b, 1.0, OkoTop, 0.0, b.H(), Plain);
    lines := AddRims(lines, b, 1.0, OkoTop, 0.0, b.H());
    assert lines == up + rims;
    lines := AddOkoBands(lines, b);
    assert lines == up + rims + bands;
    lines := lines + [OkoCrown(b)];
    OkoCount(b, Plain);
    OkoCount(b, Floor);
    OkoCount(b, Thin);
  }

  lemma OkoCount(b: Building, h: Hint)
    ensures |OkoLines(b)| == 33
    ensures Count(OkoLines(b), h) == (if h == Plain then 12 else 0) + (if h == Floor then 20 else 0) + (if h == Thin then 1 else 0)
  {
    var up, rims, bands, crown := Uprights(b, 1.0, OkoTop, 0.0, b.H(), Plain), Rims(b, 1.0, OkoTop, 0.0, b.H(), 4), OkoBands(b, 20), [OkoCrown(b)];
    CountUniformIs(up, Plain, h);
    CountUniformIs(rims, Plain, h);
    CountUniformIs(bands, Floor, h);
    CountUniformIs(crown, Thin, h);
    CountAppend(up, rims, h);
    CountAppend(up + rims, bands, h);
    CountAppend(up + rims + bands, crown, h);
  }

  // ---------------------------------------------------------------- Comcast Center

  /** `y1` of segment s: (s / 18) * h. */
  function BulgeY(b: Building, s: int): real
  {
    (s as real / 18.0) * b.H()
  }

  /** sin((s / 18) pi) of segment s: the bow follows half a sine turn. */
  function BulgeSin(tr: Trig, s: int): real
  {
    tr.sin((s as real / 18.0) * tr.pi)
  }

  /** `r1` of segment s: w / 2 + 4 sin((s / 18) pi); the square plan bows
      outward by up to 4. */
  function BulgeR(b: Building, tr: Trig, s: int): real
  {
    b.HalfW() + BulgeSin(tr, s) * 4.0
  }

  /** Corner i of segment s, at angle (i / 4) 2 pi + pi / 4 on the circle of
      radius `r1`. */
  function BulgeVertex(b: Building, tr: Trig, s: int, i: int): Point
  {
    Polar(b, tr, Angle(tr, i, 4, tr.pi / 4.0), BulgeR(b, tr, s), BulgeR(b, tr, s), BulgeY(b, s))
  }

  /** The edge of corner i through segment s. */
  function BulgeRise(b: Building, tr: Trig, s: int, i: int): Segment
  {
    Segment(BulgeVertex(b, tr, s, i), BulgeVertex(b, tr, s + 1, i), Plain)
  }

  /** The floor edge from corner i to corner i + 1 at the bottom of segment s. */
  function BulgeFloor(b: Building, tr: Trig, s: int, i: int): Segment
  {
    Segment(BulgeVertex(b, tr, s, i), BulgeVertex(b, tr, s, i + 1), Floor)
  }

  /** Segment s draws its floor square: `s % 3 === 0`. */
  predicate Thirded(s: int)
  {
    s % 3 == 0
  }

  /** Corners 0 .. m - 1 of segment s: each its edge, then on every third
      segment its floor edge. */
  function BulgeSides(b: Building, tr: Trig, s: int, m: nat): seq<Segment>
  {
    if m == 0 then []
    else BulgeSides(b, tr, s, m - 1) + [BulgeRise(b, tr, s, m - 1)] + (if Thirded(s) then [BulgeFloor(b, tr, s, m - 1)] else [])
  }

  function BulgeSegments(b: Building, tr: Trig, n: nat): seq<Segment>
  {
    if n == 0 then [] else BulgeSegments(b, tr, n - 1) + BulgeSides(b, tr, n - 1, 4)
  }

  /** Each corner edge starts where the one below ends, floor edges are level
      at their segment's height, the shaft runs from the ground (segment 0) to
      the roof (segment 18), and wherever the sine lies in [0, 1] the plan's
      radius lies between w / 2 and w / 2 + 4. */
  lemma BulgeShape(b: Building, tr: Trig, s: int, i: int)
    ensures BulgeRise(b, tr, s, i).b == BulgeRise(b, tr, s + 1, i).a
    ensures BulgeFloor(b, tr, s, i).a.y == BulgeFloor(b, tr, s, i).b.y == BulgeY(b, s)
    ensures BulgeY(b, 0) == 0.0 && BulgeY(b, 18) == b.H()
    ensures 0.0 <= BulgeSin(tr, s) <= 1.0 ==> b.HalfW() <= BulgeR(b, tr, s) <= b.HalfW() + 4.0
  {
  }

  method AddBulgeSegment(lines: seq<Segment>, b: Building, tr: Trig, s: int) returns (r: seq<Segment>)
    ensures r == lines + BulgeSides(b, tr, s, 4)
  {
    r := lines;
    for i := 0 to 4
      invariant r == lines + BulgeSides(b, tr, s, i)
    {
      r := r + [BulgeRise(b, tr, s, i)];
      if Thirded(s) {
        r := r + [BulgeFloor(b, tr, s, i)];
      }
    }
  }

  lemma {:induction false} BulgeSidesCount(b: Building, tr: Trig, s: int, m: nat, h: Hint)
    ensures |BulgeSides(b, tr, s, m)| == m + (if Thirded(s) then m else 0)
    ensures Count(BulgeSides(b, tr, s, m), h) == (if h == Plain then m else 0) + (if h == Floor && Thirded(s) then m else 0)
  {
    if m > 0 {
      var below := BulgeSides(b, tr, s, m - 1);
      var rise := [BulgeRise(b, tr, s, m - 1)];
      var fl: seq<Segment> := if Thirded(s) then [BulgeFloor(b, tr, s, m - 1)] else [];
      BulgeSidesCount(b, tr, s, m - 1, h);
      CountUniformIs(rise, Plain, h);
      CountUniformIs(fl, Floor, h);
      CountAppend(below, rise, h);
      CountAppend(below + rise, fl, h);
      assert BulgeSides(b, tr, s, m) == below + rise + fl;
    }
  }

  /** How many of segments 0 .. n - 1 draw floor edges: ceil(n / 3). */
  function Thirds(n: nat): nat
  {
    (n + 2) / 3
  }

  /** One more segment adds a floor square exactly when its index is a
      multiple of 3. */
  lemma ThirdsStep(s: nat)
    ensures Thirds(s + 1) == Thirds(s) + (if Thirded(s) then 1 else 0)
  {
    var q, r := s / 3, s % 3;
    assert s == 3 * q + r && 0 <= r < 3;
    assert s + 3 == 3 * (q + 1) + r;
    assert Thirds(s + 1) == q + 1;
    assert Thirds(s) == q + (if r == 0 then 0 else 1);
  }

  lemma {:induction false} BulgeSegmentsCount(b: Building, tr: Trig, n: nat, h: Hint)
    ensures |BulgeSegments(b, tr, n)| == 4 * n + 4 * Thirds(n)
    ensures Count(BulgeSegments(b, tr, n), h) == (if h == Plain then 4 * n else 0) + (if h == Floor then 4 * Thirds(n) else 0)
  {
    if n > 0 {
      var s := n - 1;
      BulgeSegmentsCount(b, tr, s, h);
      BulgeSidesCount(b, tr, s, 4, h);
      CountAppend(BulgeSegments(b, tr, s), BulgeSides(b, tr, s, 4), h);
      ThirdsStep(s);
    }
  }

  /** Comcast Center (`b.comcast`): 18 segments of 4 bowed corner edges, floor
      squares on segments 0, 3, .., 15: 96 lines. */
  method ComcastCenter(b: Building, tr: Trig) returns (lines: seq<Segment>)
    ensures lines == BulgeSegments(b, tr, 18)
    ensures |lines| == 96
    ensures Count(lines, Plain) == 72 && Count(lines, Floor) == 24
  {
    lines := [];
    for s := 0 to 18
      invariant lines == BulgeSegments(b, tr, s)
    {
      lines := AddBulgeSegment(lines, b, tr, s);
    }
    BulgeSegmentsCount(b, tr, 18, Plain);
    BulgeSegmentsCount(b, tr, 18, Floor);
    assert Thirds(18) == 6;
  }
}
