/** The landmarks drawn by the stepped-tower pass, each with its own section
    table and its own crown: Empire State and Chrysler (NYC.jsx), Willis
    (chicago.jsx), One and Two Liberty (Philadelphia.jsx), Mercury City and the
    Stalinist high-rises (Moscow.jsx). */
module SetbackTowers {
  import opened Geometry
  import opened Prism
  import opened Setbacks
  import opened Scenes

  /** NYC.jsx: six sections 0, 180, 210, 240, 260, 275, 290. */
  function EmpireSections(): (r: seq<Section>)
    ensures |r| == 6 && Contiguous(r, 0.0, 290.0) && Tapering(r)
  {
    [Section(0.0, 180.0, 1.0), Section(180.0, 210.0, 0.85), Section(210.0, 240.0, 0.65),
     Section(240.0, 260.0, 0.45), Section(260.0, 275.0, 0.3), Section(275.0, 290.0, 0.18)]
  }

  /** Six sections with base edges above the first: 6 * 8 + 5 * 4 frame
      segments; floor lines 11 + 1 + 1 + 0 + 0 + 0 at spacing 14. */
  lemma EmpireTotals()
    ensures FrameTotal(AfterFirst, 6) == 68
    ensures FloorTotal(EmpireSections(), EverySection, 14.0, 6) == 13
  {
    var s := EmpireSections();
    assert FloorLines(s[0].top - s[0].lo, 14.0) == 11;
    assert FloorLines(s[1].top - s[1].lo, 14.0) == 1;
    assert FloorLines(s[2].top - s[2].lo, 14.0) == 1;
    assert FloorLines(s[3].top - s[3].lo, 14.0) == 0;
    assert FloorLines(s[4].top - s[4].lo, 14.0) == 0;
    assert FloorLines(s[5].top - s[5].lo, 14.0) == 0;
  }

  /** Mast ring `ring`: the thin 8-gon of radius 5 - ring at height
      300 + 12 * ring. */
  function MastRing(b: Building, tr: Trig, ring: int): seq<Segment>
  {
    Polygon(b, tr, 8, 0.0, (5 - ring) as real, (5 - ring) as real, 300.0 + ring as real * 12.0, Thin)
  }

  /** Mast rings 0 .. n - 1, bottom first. */
  function MastRings(b: Building, tr: Trig, n: nat): seq<Segment>
  {
    if n == 0 then [] else MastRings(b, tr, n - 1) + MastRing(b, tr, n - 1)
  }

  /** One more mast ring on top of the first n - 1. */
  lemma MastRingsStep(b: Building, tr: Trig, n: nat)
    requires n > 0
    ensures MastRings(b, tr, n) == MastRings(b, tr, n - 1) + MastRing(b, tr, n - 1)
  {
  }

  /** Line k of the first n mast rings is side k % 8 of ring k / 8: the rings
      climb by 12 and narrow by 1 from one to the next. */
  lemma {:induction false} MastRingsAt(b: Building, tr: Trig, n: nat)
    ensures |MastRings(b, tr, n)| == 8 * n
    ensures forall k :: 0 <= k < 8 * n ==>
      MastRings(b, tr, n)[k] ==
        PolygonSide(b, tr, 8, 0.0, (5 - k / 8) as real, (5 - k / 8) as real, 300.0 + (k / 8) as real * 12.0, k % 8, Thin)
  {
    if n > 0 {
      MastRingsAt(b, tr, n - 1);
      forall k | 8 * (n - 1) <= k < 8 * n
        ensures k / 8 == n - 1
      {
      }
    }
  }

  /** The first n mast rings are thin and level, between 300 and the height
      300 + 12 (n - 1) of the last. */
  lemma {:induction false} MastRingsShape(b: Building, tr: Trig, n: nat)
    ensures |MastRings(b, tr, n)| == 8 * n
    ensures forall k :: 0 <= k < |MastRings(b, tr, n)| ==>
      var seg := MastRings(b, tr, n)[k];
      seg.hint == Thin && seg.a.y == seg.b.y && 300.0 <= seg.a.y <= 300.0 + (n - 1) as real * 12.0
  {
    if n > 0 {
      MastRingsShape(b, tr, n - 1);
    }
  }

  /** The four thin 8-gon rings on the Empire State mast: ring r at height
      300 + 12 * r with radius 5 - r. */
  method AddMastRings(lines: seq<Segment>, b: Building, tr: Trig) returns (r: seq<Segment>)
    ensures r == lines + MastRings(b, tr, 4)
    ensures |r| == |lines| + 32
    ensures forall k :: 0 <= k < |lines| ==> r[k] == lines[k]
    ensures forall k :: |lines| <= k < |r| ==>
      r[k].hint == Thin && r[k].a.y == r[k].b.y && 300.0 <= r[k].a.y <= 336.0
    ensures Count(r, Thin) == Count(lines, Thin) + 32
    ensures forall h :: h != Thin ==> Count(r, h) == Count(lines, h)
  {
    r := lines;
    for ring := 0 to 4
      invariant r == lines + MastRings(b, tr, ring)
    {
      MastRingsStep(b, tr, ring + 1);
      AppendAssoc(lines, MastRings(b, tr, ring), MastRing(b, tr, ring));
      r := AddMastRing(r, b, tr, ring);
    }
    var rings := MastRings(b, tr, 4);
    MastRingsShape(b, tr, 4);
    CountAppendAll(lines, rings);
    forall h
      ensures Count(rings, h) == if h == Thin then |rings| else 0
    {
      CountUniformIs(rings, Thin, h);
    }
  }

  /** Mast ring `ring`: the 8-gon of radius 5 - ring at 300 + 12 * ring. */
  method AddMastRing(lines: seq<Segment>, b: Building, tr: Trig, ring: int) returns (r: seq<Segment>)
    ensures r == lines + MastRing(b, tr, ring)
  {
    var radius := (5 - ring) as real;
    r := AddPolygon(lines, b, tr, 8, 0.0, radius, radius, 300.0 + ring as real * 12.0, Thin);
  }

  /** The Empire State Building: the setback pass, the antenna mast from 290
      to 350, and the four mast rings between 300 and 336. */
  method EmpireState(b: Building, tr: Trig) returns (lines: seq<Segment>, ghost owner: seq<nat>)
    ensures lines == ShaftLines(b, EmpireSections(), AfterFirst, EverySection, 14.0, Plain, 6) +
      [Segment(Axis(b, 290.0), Axis(b, 350.0), Thin)] + MastRings(b, tr, 4)
    ensures |lines| == 114 && |owner| == 81
    ensures Count(lines, Plain) == 68 && Count(lines, Floor) == 13 && Count(lines, Thin) == 33
    ensures forall k :: 0 <= k < 81 ==>
      owner[k] < 6 && Placed(lines[k], b, EmpireSections()[owner[k]], true)
    ensures lines[81] == Segment(Axis(b, 290.0), Axis(b, 350.0), Thin)
    ensures forall k :: 82 <= k < 114 ==>
      lines[k].hint == Thin && lines[k].a.y == lines[k].b.y && 300.0 <= lines[k].a.y <= 336.0
  {
    var shaft;
    var ws := WindowSpacing(NewYork);
    assert ws == 14.0;
    shaft, owner := SetbackShaft(b, EmpireSections(), AfterFirst, EverySection, ws, Plain);
    EmpireTotals();
    CountDisjoint3(shaft, Plain, Floor, Thin);
    var mast := Push(shaft, Segment(Axis(b, 290.0), Axis(b, 350.0), Thin));
    lines := AddMastRings(mast, b, tr);
  }

  /** NYC.jsx: four sections 0, 150, 175, 195, 210. */
  function ChryslerSections(): (r: seq<Section>)
    ensures |r| == 4 && Contiguous(r, 0.0, 210.0) && Tapering(r)
  {
    [Section(0.0, 150.0, 1.0), Section(150.0, 175.0, 0.85), Section(175.0, 195.0, 0.7), Section(195.0, 210.0, 0.55)]
  }

  /** Radius hw * 0.45 * (1 - 0.1 * tier) of crown tier `tier`. */
  function CrownRadius(b: Building, tier: int): real
  {
    b.HalfW() * (0.45 * (1.0 - tier as real * 0.1))
  }

  /** The crown narrows strictly from tier to tier over the seven tiers and
      stays positive for a building of positive width. */
  lemma CrownNarrows(b: Building, t1: nat, t2: nat)
    requires b.w > 0.0 && t1 < t2 <= 6
    ensures 0.0 < CrownRadius(b, t2) < CrownRadius(b, t1)
  {
    var f1 := 0.45 * (1.0 - t1 as real * 0.1);
    var f2 := 0.45 * (1.0 - t2 as real * 0.1);
    assert 0.0 < f2 < f1;
    MulStrict(f2, f1, b.HalfW());
    MulStrict(0.0, f2, b.HalfW());
  }

  /** The apex of the sunburst triangle over side i of tier `tier`: radius 1.4
      times the tier's, at the side's mid angle, 6 above the tier. */
  function SunburstPeak(b: Building, tr: Trig, tier: int, i: int): Point
  {
    var r := CrownRadius(b, tier) * 1.4;
    Polar(b, tr, Angle(tr, i, 8, 0.0) + tr.pi / 8.0, r, r, 210.0 + tier as real * 3.0 + 6.0)
  }

  /** Height 210 + 3 * tier of crown tier `tier`. */
  function TierY(tier: int): real
  {
    210.0 + tier as real * 3.0
  }

  /** Side i of crown tier `tier`: the edge of the 8-gon of radius
      CrownRadius(tier) at TierY(tier) and, on tiers 0 to 5 only, the two
      lines from its ends up to the sunburst peak. */
  function TierSide(b: Building, tr: Trig, tier: int, i: int): seq<Segment>
  {
    var rad := CrownRadius(b, tier);
    var side := PolygonSide(b, tr, 8, 0.0, rad, rad, TierY(tier), i, Crown);
    [side] + (if tier < 6 then [Segment(side.a, SunburstPeak(b, tr, tier, i), Crown),
                               Segment(side.b, SunburstPeak(b, tr, tier, i), Crown)] else [])
  }

  /** Sides 0 .. m - 1 of crown tier `tier`. */
  function TierSides(b: Building, tr: Trig, tier: int, m: nat): seq<Segment>
  {
    if m == 0 then [] else TierSides(b, tr, tier, m - 1) + TierSide(b, tr, tier, m - 1)
  }

  /** Crown tiers 0 .. n - 1, bottom first. */
  function CrownTiers(b: Building, tr: Trig, n: nat): seq<Segment>
  {
    if n == 0 then [] else CrownTiers(b, tr, n - 1) + TierSides(b, tr, n - 1, 8)
  }

  /** Every `stride`-th line of a tier (stride 3 with the sunburst, 1 on the
      top tier) is the next side of the 8-gon of radius CrownRadius(tier), so
      with CrownNarrows the drawn rings narrow tier by tier. */
  lemma {:induction false} TierSidesAt(b: Building, tr: Trig, tier: int, m: nat)
    ensures |TierSides(b, tr, tier, m)| == (if tier < 6 then 3 else 1) * m
    ensures forall i :: 0 <= i < m ==>
      TierSides(b, tr, tier, m)[(if tier < 6 then 3 else 1) * i] ==
        PolygonSide(b, tr, 8, 0.0, CrownRadius(b, tier), CrownRadius(b, tier), TierY(tier), i, Crown)
  {
    if m > 0 {
      TierSidesAt(b, tr, tier, m - 1);
    }
  }

  /** One crown tier at 210 + 3 * tier: per side the 8-gon edge and, on tiers
      0 to 5 only, the two lines from its ends up to the sunburst peak. */
  method AddCrownTier(lines: seq<Segment>, b: Building, tr: Trig, tier: nat) returns (r: seq<Segment>)
    requires tier < 7
    ensures r == lines + TierSides(b, tr, tier, 8)
    ensures |r| == |lines| + (if tier < 6 then 24 else 8)
    ensures forall k :: 0 <= k < |lines| ==> r[k] == lines[k]
    ensures forall k :: |lines| <= k < |r| ==>
      r[k].hint == Crown && r[k].a.y == 210.0 + tier as real * 3.0 &&
      (r[k].b.y == r[k].a.y || (tier < 6 && r[k].b.y == r[k].a.y + 6.0))
    ensures Count(r, Crown) == Count(lines, Crown) + |r| - |lines|
    ensures forall h :: h != Crown ==> Count(r, h) == Count(lines, h)
  {
    var y := TierY(tier);
    var rad := CrownRadius(b, tier);
    r := lines;
    for i := 0 to 8
      invariant r == lines + TierSides(b, tr, tier, i)
    {
      AppendAssoc(lines, TierSides(b, tr, tier, i), TierSide(b, tr, tier, i));
      var side := PolygonSide(b, tr, 8, 0.0, rad, rad, y, i, Crown);
      r := Push(r, side);
      if tier < 6 {
        var peak := SunburstPeak(b, tr, tier, i);
        r := Push(r, Segment(side.a, peak, Crown));
        r := Push(r, Segment(side.b, peak, Crown));
      }
    }
    var tiers := TierSides(b, tr, tier, 8);
    TierSidesAt(b, tr, tier, 8);
    TierSidesShape(b, tr, tier, 8);
    CountAppendAll(lines, tiers);
    forall h
      ensures Count(tiers, h) == if h == Crown then |tiers| else 0
    {
      CountUniformIs(tiers, Crown, h);
    }
  }

  /** Every line of a tier is a crown line starting at the tier's height and
      ending there or, for a sunburst line, 6 above it. */
  lemma {:induction false} TierSidesShape(b: Building, tr: Trig, tier: int, m: nat)
    ensures forall k :: 0 <= k < |TierSides(b, tr, tier, m)| ==>
      var seg := TierSides(b, tr, tier, m)[k];
      seg.hint == Crown && seg.a.y == TierY(tier) && (seg.b.y == seg.a.y || (tier < 6 && seg.b.y == seg.a.y + 6.0))
  {
    if m > 0 {
      TierSidesShape(b, tr, tier, m - 1);
    }
  }

  /** The seven crown tiers, from 210 up to 228. */
  method AddCrown(lines: seq<Segment>, b: Building, tr: Trig) returns (r: seq<Segment>)
    ensures r == lines + CrownTiers(b, tr, 7)
    ensures |r| == |lines| + 152
    ensures forall k :: 0 <= k < |lines| ==> r[k] == lines[k]
    ensures forall k :: |lines| <= k < |r| ==> r[k].hint == Crown && 210.0 <= r[k].a.y <= 228.0
    ensures Count(r, Crown) == Count(lines, Crown) + 152
    ensures forall h :: h != Crown ==> Count(r, h) == Count(lines, h)
  {
    r := lines;
    for tier := 0 to 7
      invariant r == lines + CrownTiers(b, tr, tier)
      invariant |r| == |lines| + (if tier < 7 then 24 * tier else 152)
      invariant forall k :: 0 <= k < |lines| ==> r[k] == lines[k]
      invariant forall k :: |lines| <= k < |r| ==> r[k].hint == Crown && 210.0 <= r[k].a.y <= 207.0 + 3.0 * tier as real
      invariant Count(r, Crown) == Count(lines, Crown) + |r| - |lines|
      invariant forall h :: h != Crown ==> Count(r, h) == Count(lines, h)
    {
      AppendAssoc(lines, CrownTiers(b, tr, tier), TierSides(b, tr, tier, 8));
      r := AddCrownTier(r, b, tr, tier);
    }
  }

  /** The Chrysler Building: four plain setbacks without base edges or floors,
      the crown (7 * 8 tier edges and 6 * 16 sunburst lines) and the thin
      spire from 231 to 265. */
  method Chrysler(b: Building, tr: Trig) returns (lines: seq<Segment>, ghost owner: seq<nat>)
    ensures lines == ShaftLines(b, ChryslerSections(), NoBase, NoFloors, 14.0, Plain, 4) +
      CrownTiers(b, tr, 7) + [Segment(Axis(b, 231.0), Axis(b, 265.0), Thin)]
    ensures |lines| == 185 && |owner| == 32
    ensures Count(lines, Plain) == 32 && Count(lines, Crown) == 152 && Count(lines, Thin) == 1
    ensures forall k :: 0 <= k < 32 ==>
      owner[k] < 4 && Placed(lines[k], b, ChryslerSections()[owner[k]], false)
    ensures forall k :: 32 <= k < 184 ==> lines[k].hint == Crown && 210.0 <= lines[k].a.y <= 228.0
    ensures lines[184] == Segment(Axis(b, 231.0), Axis(b, 265.0), Thin)
  {
    var shaft;
    var ws := WindowSpacing(NewYork);
    assert ws == 14.0;
    shaft, owner := SetbackShaft(b, ChryslerSections(), NoBase, NoFloors, ws, Plain);
    assert FrameTotal(NoBase, 4) == 32;
    CountDisjoint(shaft, Plain, Crown);
    CountDisjoint(shaft, Plain, Thin);
    var crowned := AddCrown(shaft, b, tr);
    lines := Push(crowned, Segment(Axis(b, 231.0), Axis(b, 265.0), Thin));
  }

  /** chicago.jsx, the stepped (Willis) tower: four sections 0, 180, 220, 260, 290. */
  function WillisSections(): (r: seq<Section>)
    ensures |r| == 4 && Contiguous(r, 0.0, 290.0) && Tapering(r)
  {
    [Section(0.0, 180.0, 1.0), Section(180.0, 220.0, 0.82), Section(220.0, 260.0, 0.65), Section(260.0, 290.0, 0.5)]
  }

  /** 4 * 8 + 3 * 4 frame segments; floor lines 9 + 1 + 1 + 0 at spacing 18. */
  lemma WillisTotals()
    ensures FrameTotal(AfterFirst, 4) == 44
    ensures FloorTotal(WillisSections(), EverySection, 18.0, 4) == 11
  {
    var s := WillisSections();
    assert FloorLines(s[0].top - s[0].lo, 18.0) == 9;
    assert FloorLines(s[1].top - s[1].lo, 18.0) == 1;
    assert FloorLines(s[2].top - s[2].lo, 18.0) == 1;
    assert FloorLines(s[3].top - s[3].lo, 18.0) == 0;
  }

  /** The Willis (Sears) tower: the setback pass with floors in every section,
      then, with the antennas flag, two thin masts at x - 10 and x + 10 from 290
      to 340. */
  method Willis(b: Building, antennas: bool) returns (lines: seq<Segment>, ghost owner: seq<nat>)
    ensures lines == ShaftLines(b, WillisSections(), AfterFirst, EverySection, 18.0, Plain, 4) +
      (if antennas then [Segment(Point(b.x - 10.0, 290.0, b.z), Point(b.x - 10.0, 340.0, b.z), Thin),
                         Segment(Point(b.x + 10.0, 290.0, b.z), Point(b.x + 10.0, 340.0, b.z), Thin)] else [])
    ensures |lines| == 55 + (if antennas then 2 else 0) && |owner| == 55
    ensures Count(lines, Plain) == 44 && Count(lines, Floor) == 11
    ensures Count(lines, Thin) == if antennas then 2 else 0
    ensures forall k :: 0 <= k < 55 ==>
      owner[k] < 4 && Placed(lines[k], b, WillisSections()[owner[k]], true)
    ensures antennas ==> lines[55] == Segment(Point(b.x - 10.0, 290.0, b.z), Point(b.x - 10.0, 340.0, b.z), Thin)
    ensures antennas ==> lines[56] == Segment(Point(b.x + 10.0, 290.0, b.z), Point(b.x + 10.0, 340.0, b.z), Thin)
  {
    var ws := WindowSpacing(Chicago);
    assert ws == 18.0;
    lines, owner := SetbackShaft(b, WillisSections(), AfterFirst, EverySection, ws, Plain);
    WillisTotals();
    CountDisjoint3(lines, Plain, Floor, Thin);
    if antennas {
      lines := Push(lines, Segment(Point(b.x - 10.0, 290.0, b.z), Point(b.x - 10.0, 340.0, b.z), Thin));
      lines := Push(lines, Segment(Point(b.x + 10.0, 290.0, b.z), Point(b.x + 10.0, 340.0, b.z), Thin));
    }
  }

  /** The pyramid faces of the Liberty crowns: per corner of the footprint
      scaled by `scale` at height `base`, the line up to the apex and then the
      edge to the next corner. */
  function PyramidFaces(b: Building, scale: real, base: real, apex: Point, m: nat): seq<Segment>
  {
    if m == 0 then [] else
      PyramidFaces(b, scale, base, apex, m - 1) +
      [Segment(Corner(b, scale, m - 1, base), apex, Crown), Edge(b, scale, m - 1, base, Crown)]
  }

  method AddPyramid(lines: seq<Segment>, b: Building, scale: real, base: real, apex: Point) returns (r: seq<Segment>)
    ensures r == lines + PyramidFaces(b, scale, base, apex, 4)
    ensures |r| == |lines| + 8
    ensures forall k :: 0 <= k < |lines| ==> r[k] == lines[k]
    ensures forall i :: 0 <= i < 4 ==>
      r[|lines| + 2 * i] == Segment(Corner(b, scale, i, base), apex, Crown) &&
      r[|lines| + 2 * i + 1] == Edge(b, scale, i, base, Crown)
    ensures Count(r, Crown) == Count(lines, Crown) + 8
    ensures forall h :: h != Crown ==> Count(r, h) == Count(lines, h)
  {
    r := lines;
    for i := 0 to 4
      invariant r == lines + PyramidFaces(b, scale, base, apex, i)
      invariant |r| == |lines| + 2 * i
      invariant forall k :: 0 <= k < |lines| ==> r[k] == lines[k]
      invariant forall j :: 0 <= j < i ==>
        r[|lines| + 2 * j] == Segment(Corner(b, scale, j, base), apex, Crown) &&
        r[|lines| + 2 * j + 1] == Edge(b, scale, j, base, Crown)
      invariant Count(r, Crown) == Count(lines, Crown) + 2 * i
      invariant forall h :: h != Crown ==> Count(r, h) == Count(lines, h)
    {
      AppendAssoc(lines, PyramidFaces(b, scale, base, apex, i),
                  [Segment(Corner(b, scale, i, base), apex, Crown), Edge(b, scale, i, base, Crown)]);
      r := Push(r, Segment(Corner(b, scale, i, base), apex, Crown));
      r := Push(r, Edge(b, scale, i, base, Crown));
    }
  }

  /** Scale crownScale * (1 - ring * shrink) of pyramid ring `ring`. */
  function RingScale(crownScale: real, shrink: real, ring: int): real
  {
    crownScale * (1.0 - ring as real * shrink)
  }

  /** With a positive crown scale and ring count * shrink < 1, the rings
      shrink strictly and stay positive. */
  lemma RingsShrink(crownScale: real, shrink: real, r1: int, r2: int, count: int)
    requires crownScale > 0.0 && shrink > 0.0 && 1 <= r1 < r2 < count && count as real * shrink <= 1.0
    ensures 0.0 < RingScale(crownScale, shrink, r2) < RingScale(crownScale, shrink, r1)
  {
    assert r2 as real * shrink < count as real * shrink by {
      MulStrict(r2 as real, count as real, shrink);
    }
    MulStrict(r1 as real, r2 as real, shrink);
    MulStrict(1.0 - r2 as real * shrink, 1.0 - r1 as real * shrink, crownScale);
    MulStrict(0.0, 1.0 - r2 as real * shrink, crownScale);
  }

  /** A pyramid ring: the level 4-gon of `radius` at height y, its vertices
      at the diagonal angles (i / 4) * 2 * PI + PI / 4. */
  function PyramidRing(b: Building, tr: Trig, radius: real, y: real): seq<Segment>
  {
    Polygon(b, tr, 4, tr.pi / 4.0, radius, radius, y, CrownRing)
  }

  /** Radius hw * RingScale(crownScale, shrink, j) of pyramid ring j. */
  function RingRadius(b: Building, crownScale: real, shrink: real, j: int): real
  {
    b.HalfW() * RingScale(crownScale, shrink, j)
  }

  /** Height base + j * dy of pyramid ring j. */
  function RingY(base: real, dy: real, j: int): real
  {
    base + j as real * dy
  }

  /** Ring j of a pyramid crown. */
  function PyramidRingAt(b: Building, tr: Trig, base: real, dy: real, crownScale: real, shrink: real, j: int): seq<Segment>
  {
    PyramidRing(b, tr, RingRadius(b, crownScale, shrink, j), RingY(base, dy, j))
  }

  /** Rings 1 .. m - 1 of a pyramid crown, bottom first. */
  function PyramidRings(b: Building, tr: Trig, base: real, dy: real, crownScale: real, shrink: real, m: nat): seq<Segment>
  {
    if m <= 1 then [] else
      PyramidRings(b, tr, base, dy, crownScale, shrink, m - 1) + PyramidRingAt(b, tr, base, dy, crownScale, shrink, m - 1)
  }

  /** One more ring on top of the first m - 1. */
  lemma PyramidRingsStep(b: Building, tr: Trig, base: real, dy: real, crownScale: real, shrink: real, m: nat)
    requires m > 1
    ensures PyramidRings(b, tr, base, dy, crownScale, shrink, m) ==
      PyramidRings(b, tr, base, dy, crownScale, shrink, m - 1) + PyramidRingAt(b, tr, base, dy, crownScale, shrink, m - 1)
  {
  }

  /** Line k of rings 1 .. m - 1 is side k % 4 of ring k / 4 + 1, whose
      radius is hw * RingScale of that ring: with RingsShrink the drawn rings
      shrink upwards. */
  lemma {:induction false} PyramidRingsAt(b: Building, tr: Trig, base: real, dy: real, crownScale: real, shrink: real, m: nat)
    requires m >= 1
    ensures |PyramidRings(b, tr, base, dy, crownScale, shrink, m)| == 4 * (m - 1)
    ensures forall k :: 0 <= k < 4 * (m - 1) ==>
      PyramidRings(b, tr, base, dy, crownScale, shrink, m)[k] ==
        PolygonSide(b, tr, 4, tr.pi / 4.0, RingRadius(b, crownScale, shrink, k / 4 + 1),
                    RingRadius(b, crownScale, shrink, k / 4 + 1), RingY(base, dy, k / 4 + 1), k % 4, CrownRing)
  {
    if m > 1 {
      PyramidRingsAt(b, tr, base, dy, crownScale, shrink, m - 1);
      var prev := PyramidRings(b, tr, base, dy, crownScale, shrink, m - 1);
      var rad := RingRadius(b, crownScale, shrink, m - 1);
      var ring := PyramidRingAt(b, tr, base, dy, crownScale, shrink, m - 1);
      PyramidRingsStep(b, tr, base, dy, crownScale, shrink, m);
      forall k | 4 * (m - 2) <= k < 4 * (m - 1)
        ensures PyramidRings(b, tr, base, dy, crownScale, shrink, m)[k] ==
          PolygonSide(b, tr, 4, tr.pi / 4.0, RingRadius(b, crownScale, shrink, k / 4 + 1),
                      RingRadius(b, crownScale, shrink, k / 4 + 1), RingY(base, dy, k / 4 + 1), k % 4, CrownRing)
      {
        var j := k - 4 * (m - 2);
        assert k / 4 + 1 == m - 1 && k % 4 == j;
        assert PyramidRings(b, tr, base, dy, crownScale, shrink, m)[k] == ring[j];
        assert ring[j] == PolygonSide(b, tr, 4, tr.pi / 4.0, rad, rad, RingY(base, dy, m - 1), j, CrownRing);
      }
    }
  }

  /** `for (ring = 1; ring < count; ring++)`: a 4-gon at base + ring * dy of
      radius hw * RingScale(ring) (the same radius across x and z), its
      vertices at the diagonal angles (i / 4) * 2 * PI + PI / 4. */
  method AddPyramidRings(lines: seq<Segment>, b: Building, tr: Trig, count: nat, base: real, dy: real,
                         crownScale: real, shrink: real) returns (r: seq<Segment>)
    requires count >= 1 && dy > 0.0
    ensures r == lines + PyramidRings(b, tr, base, dy, crownScale, shrink, count)
    ensures |r| == |lines| + 4 * (count - 1)
    ensures forall k :: 0 <= k < |lines| ==> r[k] == lines[k]
    ensures forall k :: |lines| <= k < |r| ==>
      r[k].hint == CrownRing && r[k].a.y == r[k].b.y && base < r[k].a.y <= base + (count - 1) as real * dy
    ensures Count(r, CrownRing) == Count(lines, CrownRing) + 4 * (count - 1)
    ensures forall h :: h != CrownRing ==> Count(r, h) == Count(lines, h)
  {
    var top := base + (count - 1) as real * dy;
    r := lines;
    for ring := 1 to count
      invariant r == lines + PyramidRings(b, tr, base, dy, crownScale, shrink, ring)
    {
      var radius := RingRadius(b, crownScale, shrink, ring);
      var y := RingY(base, dy, ring);
      PyramidRingsStep(b, tr, base, dy, crownScale, shrink, ring + 1);
      AppendAssoc(lines, PyramidRings(b, tr, base, dy, crownScale, shrink, ring), PyramidRing(b, tr, radius, y));
      r := AddPyramidRing(r, b, tr, radius, y);
    }
    var rings := PyramidRings(b, tr, base, dy, crownScale, shrink, count);
    PyramidRingsAt(b, tr, base, dy, crownScale, shrink, count);
    forall k | 0 <= k < |rings|
      ensures rings[k].hint == CrownRing && rings[k].a.y == rings[k].b.y && base < rings[k].a.y <= top
    {
      RingAbove(base, dy, k / 4 + 1, count, RingY(base, dy, k / 4 + 1), top);
    }
    CountAppendAll(lines, rings);
    forall h
      ensures Count(rings, h) == if h == CrownRing then |rings| else 0
    {
      CountUniformIs(rings, CrownRing, h);
    }
  }

  /** One pyramid ring: the level 4-gon of `radius` at height y. */
  method AddPyramidRing(lines: seq<Segment>, b: Building, tr: Trig, radius: real, y: real) returns (r: seq<Segment>)
    ensures r == lines + PyramidRing(b, tr, radius, y)
    ensures |r| == |lines| + 4
    ensures forall k :: 0 <= k < |lines| ==> r[k] == lines[k]
    ensures forall k :: |lines| <= k < |r| ==> r[k].hint == CrownRing && r[k].a.y == y && r[k].b.y == y
    ensures Count(r, CrownRing) == Count(lines, CrownRing) + 4
    ensures forall h :: h != CrownRing ==> Count(r, h) == Count(lines, h)
  {
    r := AddPolygon(lines, b, tr, 4, tr.pi / 4.0, radius, radius, y, CrownRing);
  }

  /** Ring 1 .. count - 1 lies above the base and at most at the top ring. */
  lemma RingAbove(base: real, dy: real, ring: nat, count: nat, y: real, top: real)
    requires dy > 0.0 && 1 <= ring < count
    requires y == base + ring as real * dy && top == base + (count - 1) as real * dy
    ensures base < y <= top
  {
    MulStrict(0.0, ring as real, dy);
    MulMonotone(ring as real, (count - 1) as real, dy);
  }

  /** Philadelphia.jsx: One Liberty Place, sections 0, 200, 230, 250. */
  function LibertyOneSections(): (r: seq<Section>)
    ensures |r| == 3 && Contiguous(r, 0.0, 250.0) && Tapering(r)
  {
    [Section(0.0, 200.0, 1.0), Section(200.0, 230.0, 0.85), Section(230.0, 250.0, 0.65)]
  }

  /** Philadelphia.jsx: Two Liberty Place, sections 0, 175, 200, 220. */
  function LibertyTwoSections(): (r: seq<Section>)
    ensures |r| == 3 && Contiguous(r, 0.0, 220.0) && Tapering(r)
  {
    [Section(0.0, 175.0, 1.0), Section(175.0, 200.0, 0.85), Section(200.0, 220.0, 0.65)]
  }

  /** Floor lines only in the first section: floor(200 / 14) - 1 = 13 for One
      Liberty and floor(175 / 14) - 1 = 11 for Two Liberty. */
  lemma LibertyTotals()
    ensures FrameTotal(AfterFirst, 3) == 32
    ensures FloorTotal(LibertyOneSections(), FirstSection, 14.0, 3) == 13
    ensures FloorTotal(LibertyTwoSections(), FirstSection, 14.0, 3) == 11
  {
    assert FloorLines(LibertyOneSections()[0].top - LibertyOneSections()[0].lo, 14.0) == 13;
    assert FloorLines(LibertyTwoSections()[0].top - LibertyTwoSections()[0].lo, 14.0) == 11;
  }

  /** One Liberty Place: the setback pass (floors in the first section only),
      the pyramid from the 0.55 square at 250 to (x, h + 45, z), and three
      rings at 262, 274, 286. */
  method LibertyOne(b: Building, tr: Trig) returns (lines: seq<Segment>, ghost owner: seq<nat>)
    ensures lines == ShaftLines(b, LibertyOneSections(), AfterFirst, FirstSection, 14.0, Plain, 3) +
      PyramidFaces(b, 0.55, 250.0, Axis(b, b.H() + 45.0), 4) + PyramidRings(b, tr, 250.0, 12.0, 0.55, 0.2, 4)
    ensures |lines| == 65 && |owner| == 45
    ensures Count(lines, Plain) == 32 && Count(lines, Floor) == 13
    ensures Count(lines, Crown) == 8 && Count(lines, CrownRing) == 12
    ensures forall k :: 0 <= k < 45 ==>
      owner[k] < 3 && Placed(lines[k], b, LibertyOneSections()[owner[k]], owner[k] == 0)
    ensures forall i :: 0 <= i < 4 ==>
      lines[45 + 2 * i] == Segment(Corner(b, 0.55, i, 250.0), Axis(b, b.H() + 45.0), Crown)
    ensures forall k :: 53 <= k < 65 ==> lines[k].hint == CrownRing && 250.0 < lines[k].a.y <= 286.0
  {
    var shaft;
    var ws := WindowSpacing(Philadelphia);
    assert ws == 14.0;
    shaft, owner := SetbackShaft(b, LibertyOneSections(), AfterFirst, FirstSection, ws, Plain);
    LibertyTotals();
    CountDisjoint3(shaft, Plain, Floor, Crown);
    CountDisjoint3(shaft, Plain, Floor, CrownRing);
    var crowned := AddPyramid(shaft, b, 0.55, 250.0, Axis(b, b.H() + 45.0));
    lines := AddPyramidRings(crowned, b, tr, 4, 250.0, 12.0, 0.55, 0.2);
  }

  /** Two Liberty Place: the same shape with the pyramid from the 0.5 square
      at 220 to (x, h + 40, z) and two rings at 230 and 240. */
  method LibertyTwo(b: Building, tr: Trig) returns (lines: seq<Segment>, ghost owner: seq<nat>)
    ensures lines == ShaftLines(b, LibertyTwoSections(), AfterFirst, FirstSection, 14.0, Plain, 3) +
      PyramidFaces(b, 0.5, 220.0, Axis(b, b.H() + 40.0), 4) + PyramidRings(b, tr, 220.0, 10.0, 0.5, 0.22, 3)
    ensures |lines| == 59 && |owner| == 43
    ensures Count(lines, Plain) == 32 && Count(lines, Floor) == 11
    ensures Count(lines, Crown) == 8 && Count(lines, CrownRing) == 8
    ensures forall k :: 0 <= k < 43 ==>
      owner[k] < 3 && Placed(lines[k], b, LibertyTwoSections()[owner[k]], owner[k] == 0)
    ensures forall i :: 0 <= i < 4 ==>
      lines[43 + 2 * i] == Segment(Corner(b, 0.5, i, 220.0), Axis(b, b.H() + 40.0), Crown)
    ensures forall k :: 51 <= k < 59 ==> lines[k].hint == CrownRing && 220.0 < lines[k].a.y <= 240.0
  {
    var shaft;
    var ws := WindowSpacing(Philadelphia);
    assert ws == 14.0;
    shaft, owner := SetbackShaft(b, LibertyTwoSections(), AfterFirst, FirstSection, ws, Plain);
    LibertyTotals();
    CountDisjoint3(shaft, Plain, Floor, Crown);
    CountDisjoint3(shaft, Plain, Floor, CrownRing);
    var crowned := AddPyramid(shaft, b, 0.5, 220.0, Axis(b, b.H() + 40.0));
    lines := AddPyramidRings(crowned, b, tr, 3, 220.0, 10.0, 0.5, 0.22);
  }

  /** Moscow.jsx: Mercury City, sections at fractions 0, 0.7, 0.85, 1 of the height. */
  function MercurySections(b: Building): (r: seq<Section>)
    ensures |r| == 3 && Contiguous(r, 0.0, b.H()) && Tapering(r)
  {
    [Section(0.0, 0.7 * b.H(), 1.0), Section(0.7 * b.H(), 0.85 * b.H(), 0.85), Section(0.85 * b.H(), 1.0 * b.H(), 0.7)]
  }

  /** Height (f / 18) * h * 0.7 of Mercury floor band f. */
  function BandHeight(b: Building, f: int): real
  {
    (f as real / 18.0) * b.H() * 0.7
  }

  /** For a non-negative height every band lies in [0, 0.7 h), below the
      first setback. */
  lemma BandBelowSetback(b: Building, f: nat)
    requires f < 18 && b.h >= 0
    ensures 0.0 <= BandHeight(b, f) && (b.h > 0 ==> BandHeight(b, f) < 0.7 * b.H())
  {
    var t := f as real / 18.0;
    assert 0.0 <= t < 1.0;
    MulMonotone(0.0, t, b.H() + 1.0);
    if b.h > 0 {
      MulStrict(t, 1.0, b.H());
      MulStrict(t * b.H(), b.H(), 0.7);
    } else {
      assert b.H() == 0.0;
    }
  }

  /** The 18 floor bands: front edges of the full footprint at BandHeight(f). */
  method AddMercuryBands(lines: seq<Segment>, b: Building) returns (r: seq<Segment>)
    ensures |r| == |lines| + 18
    ensures forall k :: 0 <= k < |lines| ==> r[k] == lines[k]
    ensures forall f :: 0 <= f < 18 ==> r[|lines| + f] == Edge(b, 1.0, 0, BandHeight(b, f), Floor)
    ensures Count(r, Floor) == Count(lines, Floor) + 18
    ensures forall h :: h != Floor ==> Count(r, h) == Count(lines, h)
  {
    r := lines;
    for f := 0 to 18
      invariant |r| == |lines| + f
      invariant forall k :: 0 <= k < |lines| ==> r[k] == lines[k]
      invariant forall g :: 0 <= g < f ==> r[|lines| + g] == Edge(b, 1.0, 0, BandHeight(b, g), Floor)
      invariant Count(r, Floor) == Count(lines, Floor) + f
      invariant forall h :: h != Floor ==> Count(r, h) == Count(lines, h)
    {
      r := Push(r, Edge(b, 1.0, 0, BandHeight(b, f), Floor));
    }
  }

  /** Mercury City: three golden sections (verticals and top edges only), then
      18 floor bands on the front face, all below the first setback. */
  method Mercury(b: Building) returns (lines: seq<Segment>, ghost owner: seq<nat>)
    ensures |lines| == 42 && |owner| == 24
    ensures lines[..24] == ShaftLines(b, MercurySections(b), NoBase, NoFloors, 12.0, Golden, 3)
    ensures Count(lines, Golden) == 24 && Count(lines, Floor) == 18
    ensures forall k :: 0 <= k < 24 ==>
      owner[k] < 3 && Placed(lines[k], b, MercurySections(b)[owner[k]], false)
    ensures forall f :: 0 <= f < 18 ==> lines[24 + f] == Edge(b, 1.0, 0, BandHeight(b, f), Floor)
  {
    var shaft;
    var ws := WindowSpacing(Moscow);
    assert ws == 12.0;
    shaft, owner := SetbackShaft(b, MercurySections(b), NoBase, NoFloors, ws, Golden);
    assert FrameTotal(NoBase, 3) == 24;
    NoFloorsTotal(MercurySections(b), ws, 3);
    lines := AddMercuryBands(shaft, b);
  }

  /** Moscow.jsx: the Stalinist wedding-cake tiers at fractions 0, 0.4, 0.6,
      0.75, 0.88, 0.95 of the height, scaled 1, 0.75, 0.55, 0.35, 0.2. */
  function StalinistTiers(b: Building): (r: seq<Section>)
    ensures |r| == 5 && Contiguous(r, 0.0, 0.95 * b.H()) && Tapering(r)
  {
    [Section(0.0, 0.4 * b.H(), 1.0), Section(0.4 * b.H(), 0.6 * b.H(), 0.75), Section(0.6 * b.H(), 0.75 * b.H(), 0.55),
     Section(0.75 * b.H(), 0.88 * b.H(), 0.35), Section(0.88 * b.H(), 0.95 * b.H(), 0.2)]
  }

  /** Vertex i of the star: radius 5, flattened to 0.3 in depth, at angle
      (i / 5) * 2 * PI - PI / 2. */
  function StarPoint(b: Building, tr: Trig, i: int, y: real): Point
  {
    Polar(b, tr, Angle(tr, i, 5, -(tr.pi / 2.0)), 5.0, 5.0 * 0.3, y)
  }

  /** The pentagram: line i joins vertex i to vertex i + 2. */
  method AddStar(lines: seq<Segment>, b: Building, tr: Trig, y: real) returns (r: seq<Segment>)
    ensures |r| == |lines| + 5
    ensures forall k :: 0 <= k < |lines| ==> r[k] == lines[k]
    ensures forall i :: 0 <= i < 5 ==> r[|lines| + i] == Segment(StarPoint(b, tr, i, y), StarPoint(b, tr, i + 2, y), Star)
    ensures Count(r, Star) == Count(lines, Star) + 5
    ensures forall h :: h != Star ==> Count(r, h) == Count(lines, h)
  {
    r := lines;
    for i := 0 to 5
      invariant |r| == |lines| + i
      invariant forall k :: 0 <= k < |lines| ==> r[k] == lines[k]
      invariant forall j :: 0 <= j < i ==> r[|lines| + j] == Segment(StarPoint(b, tr, j, y), StarPoint(b, tr, j + 2, y), Star)
      invariant Count(r, Star) == Count(lines, Star) + i
      invariant forall h :: h != Star ==> Count(r, h) == Count(lines, h)
    {
      r := Push(r, Segment(StarPoint(b, tr, i, y), StarPoint(b, tr, i + 2, y), Star));
    }
  }

  /** A Stalinist high-rise: five tiers (base edges on the ground tier only),
      the spire from 0.95 h to h + 30 and the five-line star at h + 30. */
  method StalinistTower(b: Building, tr: Trig) returns (lines: seq<Segment>, ghost owner: seq<nat>)
    ensures |lines| == 50 && |owner| == 44
    ensures lines[..44] == ShaftLines(b, StalinistTiers(b), GroundOnly, NoFloors, 12.0, Stalinist, 5)
    ensures Count(lines, Stalinist) == 44 && Count(lines, Spire) == 1 && Count(lines, Star) == 5
    ensures forall k :: 0 <= k < 44 ==>
      owner[k] < 5 && Placed(lines[k], b, StalinistTiers(b)[owner[k]], false)
    ensures lines[44] == Segment(Axis(b, 0.95 * b.H()), Axis(b, b.H() + 30.0), Spire)
    ensures forall k :: 45 <= k < 50 ==>
      lines[k] == Segment(StarPoint(b, tr, k - 45, b.H() + 30.0), StarPoint(b, tr, k - 43, b.H() + 30.0), Star)
  {
    var shaft;
    var ws := WindowSpacing(Moscow);
    assert ws == 12.0;
    shaft, owner := SetbackShaft(b, StalinistTiers(b), GroundOnly, NoFloors, ws, Stalinist);
    assert FrameTotal(GroundOnly, 5) == 44;
    NoFloorsTotal(StalinistTiers(b), ws, 5);
    CountDisjoint(shaft, Stalinist, Spire);
    CountDisjoint(shaft, Stalinist, Star);
    var spired := Push(shaft, Segment(Axis(b, 0.95 * b.H()), Axis(b, b.H() + 30.0), Spire));
    lines := AddStar(spired, b, tr, b.H() + 30.0);
  }
}
