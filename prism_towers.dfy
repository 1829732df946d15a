/** Landmarks that are the 12-edge box frame (or a variant of it) plus a
    regular pattern: the slender, Gothic and spire towers of NYC.jsx, Comcast
    Technology Center (Philadelphia.jsx), Aurora Place (Sydney.jsx), the HSBC
    building and Jardine House (HongKong.jsx) and the wavy tower (chicago.jsx). */
module PrismTowers {
  import opened Geometry
  import opened Prism
  import opened Scenes

  /** The full-footprint outlines at ws, 2 ws, ..., m ws, bottom first. */
  function Outlines(b: Building, ws: real, m: nat, hint: Hint): (r: seq<Segment>)
    ensures |r| == 4 * m
    ensures forall k :: 0 <= k < |r| ==> r[k].hint == hint && r[k].a.y == r[k].b.y
  {
    if m == 0 then [] else Outlines(b, ws, m - 1, hint) + Outline(b, 1.0, m as real * ws, hint)
  }

  /** Segment k of the outlines is side k % 4 of the outline at level k / 4 + 1. */
  lemma {:induction false} OutlinesAt(b: Building, ws: real, m: nat, hint: Hint)
    ensures forall k :: 0 <= k < 4 * m ==>
      Outlines(b, ws, m, hint)[k] == Edge(b, 1.0, k % 4, (k / 4 + 1) as real * ws, hint)
  {
    if m > 0 {
      OutlinesAt(b, ws, m - 1, hint);
      var r := Outlines(b, ws, m, hint);
      forall k | 0 <= k < 4 * m
        ensures r[k] == Edge(b, 1.0, k % 4, (k / 4 + 1) as real * ws, hint)
      {
        if k >= 4 * (m - 1) {
          assert k / 4 + 1 == m && k % 4 == k - 4 * (m - 1);
          assert r[k] == Outline(b, 1.0, m as real * ws, hint)[k - 4 * (m - 1)];
        } else {
          assert r[k] == Outlines(b, ws, m - 1, hint)[k];
        }
      }
    }
  }

  /** `for (f = 1; f < n; f++)`: the full-footprint outline at f * ws, each of
      its four edges with hint `hint`. */
  method AddOutlines(lines: seq<Segment>, b: Building, ws: real, n: int, hint: Hint) returns (r: seq<Segment>)
    ensures r == lines + Outlines(b, ws, if n >= 1 then n - 1 else 0, hint)
    ensures Count(r, hint) == Count(lines, hint) + |r| - |lines|
    ensures forall h :: h != hint ==> Count(r, h) == Count(lines, h)
  {
    r := lines;
    var f := 1;
    while f < n
      invariant 1 <= f <= if n >= 1 then n else 1
      invariant r == lines + Outlines(b, ws, f - 1, hint)
    {
      var ring := Outline(b, 1.0, f as real * ws, hint);
      assert Outlines(b, ws, f, hint) == Outlines(b, ws, f - 1, hint) + ring;
      AppendAssoc(lines, Outlines(b, ws, f - 1, hint), ring);
      r := r + ring;
      f := f + 1;
    }
    assert f - 1 == if n >= 1 then n - 1 else 0;
    var grid := Outlines(b, ws, f - 1, hint);
    CountUniformIs(grid, hint, hint);
    CountAppend(lines, grid, hint);
    forall h | h != hint
      ensures Count(r, h) == Count(lines, h)
    {
      CountUniformIs(grid, hint, h);
      CountAppend(lines, grid, h);
    }
  }

  /** With m = FloorLines(h, ws), every outline lies strictly between the
      ground and the roof. */
  lemma OutlinesInside(b: Building, ws: real, hint: Hint)
    requires ws > 0.0
    ensures var grid := Outlines(b, ws, FloorLines(b.H(), ws), hint);
      forall k :: 0 <= k < |grid| ==> 0.0 < grid[k].a.y < b.H()
  {
    var m := FloorLines(b.H(), ws);
    var grid := Outlines(b, ws, m, hint);
    OutlinesAt(b, ws, m, hint);
    forall k | 0 <= k < |grid|
      ensures 0.0 < grid[k].a.y < b.H()
    {
      FloorBelowRoof(b.H(), ws, k / 4 + 1);
    }
  }

  /** NYC.jsx slender towers (432 Park): the box frame, then a 10-unit grid of
      all four faces at y = 10 f for 1 <= f < floor(h / 10), strictly between
      the ground and the roof. */
  method Slender(b: Building) returns (lines: seq<Segment>)
    ensures |lines| == 12 + 4 * FloorLines(b.H(), 10.0) && FramesBox(lines, b, b.H())
    ensures Count(lines, Plain) == 12 && Count(lines, Floor) == 4 * FloorLines(b.H(), 10.0)
    ensures lines[12..] == Outlines(b, 10.0, FloorLines(b.H(), 10.0), Floor)
    ensures forall k :: 12 <= k < |lines| ==> 0.0 < lines[k].a.y == lines[k].b.y < b.H()
  {
    var frame := BoxFrame(b);
    var n := (b.H() / 10.0).Floor;
    lines := AddOutlines(frame, b, 10.0, n, Floor);
    ghost var m := FloorLines(b.H(), 10.0);
    assert (if n >= 1 then n - 1 else 0) == m;
    assert lines[12..] == Outlines(b, 10.0, m, Floor);
    OutlinesInside(b, 10.0, Floor);
  }

  /** NYC.jsx Gothic tower (Woolworth): verticals to 0.8 h, the base outline,
      four crown lines tapering from the full footprint at 0.8 h to the 0.4
      footprint at h, per side the crown rims (the full edge at 0.8 h, the 0.4
      edge at h), and four thin pinnacle lines to (x, h + 18, z). */
  method Gothic(b: Building) returns (lines: seq<Segment>)
    ensures lines == Uprights(b, 1.0, 1.0, 0.0, 0.8 * b.H(), Plain) + Outline(b, 1.0, 0.0, Plain) +
      Uprights(b, 1.0, 0.4, 0.8 * b.H(), b.H(), Plain) + Rims(b, 1.0, 0.4, 0.8 * b.H(), b.H(), 4) +
      ToApex(b, 0.4, b.H(), Axis(b, b.H() + 18.0), Thin)
    ensures |lines| == 24 && Count(lines, Plain) == 20 && Count(lines, Thin) == 4
  {
    ghost var shaft, base := Uprights(b, 1.0, 1.0, 0.0, 0.8 * b.H(), Plain), Outline(b, 1.0, 0.0, Plain);
    ghost var crown, rims := Uprights(b, 1.0, 0.4, 0.8 * b.H(), b.H(), Plain), Rims(b, 1.0, 0.4, 0.8 * b.H(), b.H(), 4);
    var pinnacles := ToApex(b, 0.4, b.H(), Axis(b, b.H() + 18.0), Thin);
    lines := AddUprights([], b, 1.0, 1.0, 0.0, 0.8 * b.H(), Plain);
    lines := AddAll(lines, Outline(b, 1.0, 0.0, Plain));
    lines := AddUprights(lines, b, 1.0, 0.4, 0.8 * b.H(), b.H(), Plain);
    lines := AddRims(lines, b, 1.0, 0.4, 0.8 * b.H(), b.H());
    ghost var body := lines;
    assert body == shaft + base + crown + rims;
    lines := AddAll(lines, pinnacles);
    GothicCount(b, Plain);
    GothicCount(b, Thin);
  }

  lemma GothicCount(b: Building, h: Hint)
    ensures var body := Uprights(b, 1.0, 1.0, 0.0, 0.8 * b.H(), Plain) + Outline(b, 1.0, 0.0, Plain) +
      Uprights(b, 1.0, 0.4, 0.8 * b.H(), b.H(), Plain) + Rims(b, 1.0, 0.4, 0.8 * b.H(), b.H(), 4);
      |body| == 20 && Count(body + ToApex(b, 0.4, b.H(), Axis(b, b.H() + 18.0), Thin), h) ==
        (if h == Plain then 20 else 0) + (if h == Thin then 4 else 0)
  {
    var shaft, base := Uprights(b, 1.0, 1.0, 0.0, 0.8 * b.H(), Plain), Outline(b, 1.0, 0.0, Plain);
    var crown, rims := Uprights(b, 1.0, 0.4, 0.8 * b.H(), b.H(), Plain), Rims(b, 1.0, 0.4, 0.8 * b.H(), b.H(), 4);
    var body := shaft + base + crown + rims;
    var pinnacles := ToApex(b, 0.4, b.H(), Axis(b, b.H() + 18.0), Thin);
    assert forall k :: 0 <= k < |body| ==> body[k].hint == Plain;
    CountUniformIs(body, Plain, h);
    CountUniformIs(pinnacles, Thin, h);
    CountAppend(body, pinnacles, h);
  }

  /** NYC.jsx spire tower: the box frame, four thin lines from the roof
      corners to (x, h + 45, z), then the front-face floor lines at spacing 14.
      (chicago.jsx draws its spire after the floors instead: Prism.SpirePrism.) */
  method NycSpire(b: Building) returns (lines: seq<Segment>)
    ensures |lines| == 16 + FloorLines(b.H(), 14.0) && FramesBox(lines, b, b.H())
    ensures lines[12..16] == ToApex(b, 1.0, b.H(), Axis(b, b.H() + 45.0), Thin)
    ensures FloorsInside(lines, 16, b, 14.0, b.H())
    ensures Count(lines, Plain) == 12 && Count(lines, Thin) == 4 && Count(lines, Floor) == FloorLines(b.H(), 14.0)
  {
    var frame := BoxFrame(b);
    var spired := Append(frame, ToApex(b, 1.0, b.H(), Axis(b, b.H() + 45.0), Thin), Thin);
    var ws := WindowSpacing(NewYork);
    assert ws == 14.0;
    lines := AddFrontFloors(spired, b, 1.0, 0.0, ws, (b.H() / 14.0).Floor);
    assert |lines| == 16 + FloorLines(b.H(), 14.0);
    FramesBoxPrefix(frame, spired, b, b.H());
    FramesBoxPrefix(spired, lines, b, b.H());
    FloorsInsideFrom(lines, 16, b, 14.0);
    assert lines[12..16] == spired[12..16];
    assert Count(spired, Plain) == 12 && Count(spired, Thin) == 4 && Count(spired, Floor) == 0;
  }

  /** A fraction t in [0, 1] of a non-negative height h lies in [0, h],
      strictly inside (0, h) when 0 < t < 1 and h > 0. */
  lemma FractionInside(t: real, h: real)
    requires 0.0 <= t <= 1.0 && h >= 0.0
    ensures 0.0 <= t * h <= h
    ensures 0.0 < t < 1.0 && h > 0.0 ==> 0.0 < t * h < h
  {
    MulMonotone(0.0, t, h + 1.0);
    if h > 0.0 {
      MulMonotone(t, 1.0, h);
      MulMonotone(0.0, t, h);
      if 0.0 < t < 1.0 {
        MulStrict(t, 1.0, h);
        MulStrict(0.0, t, h);
      }
    }
  }

  /** Height (f / 22) * h of Comcast band f. */
  function BandY(b: Building, f: int): real
  {
    (f as real / 22.0) * b.H()
  }

  lemma BandInside(b: Building, f: int)
    requires 0 < f < 22 && b.h > 0
    ensures 0.0 < BandY(b, f) < b.H()
  {
    FractionInside(f as real / 22.0, b.H());
  }

  /** Bands 1 .. m: the full-footprint outline at BandY(f) for each f,
      bottom first. */
  function ComcastBands(b: Building, m: nat): seq<Segment>
  {
    if m == 0 then [] else ComcastBands(b, m - 1) + Outline(b, 1.0, BandY(b, m), Floor)
  }

  /** Line k of the first m bands is side k % 4 of the footprint at the height
      of band k / 4 + 1: every band closes around all four faces. */
  lemma {:induction false} ComcastBandsAt(b: Building, m: nat)
    ensures |ComcastBands(b, m)| == 4 * m
    ensures forall k :: 0 <= k < 4 * m ==> ComcastBands(b, m)[k] == Edge(b, 1.0, k % 4, BandY(b, k / 4 + 1), Floor)
  {
    if m > 0 {
      ComcastBandsAt(b, m - 1);
      forall k | 4 * (m - 1) <= k < 4 * m
        ensures ComcastBands(b, m)[k] == Edge(b, 1.0, k % 4, BandY(b, k / 4 + 1), Floor)
      {
        assert k / 4 + 1 == m;
      }
    }
  }

  /** Comcast band f: the full outline at (f / 22) * h. */
  method AddComcastBand(lines: seq<Segment>, b: Building, f: int) returns (r: seq<Segment>)
    requires 0 < f < 22
    ensures r == lines + Outline(b, 1.0, BandY(b, f), Floor)
    ensures |r| == |lines| + 4
    ensures forall k :: 0 <= k < |lines| ==> r[k] == lines[k]
    ensures forall k :: |lines| <= k < |r| ==> r[k].hint == Floor && r[k].a.y == r[k].b.y == BandY(b, f)
    ensures b.h > 0 ==> forall k :: |lines| <= k < |r| ==> 0.0 < r[k].a.y < b.H()
    ensures Count(r, Floor) == Count(lines, Floor) + 4
    ensures forall h :: h != Floor ==> Count(r, h) == Count(lines, h)
  {
    if b.h > 0 {
      BandInside(b, f);
    }
    r := Append(lines, Outline(b, 1.0, BandY(b, f), Floor), Floor);
  }

  /** The 21 Comcast bands, for 1 <= f < 22, bottom first. */
  method AddComcastBands(lines: seq<Segment>, b: Building) returns (r: seq<Segment>)
    ensures r == lines + ComcastBands(b, 21)
    ensures |r| == |lines| + 84
    ensures forall k :: 0 <= k < |lines| ==> r[k] == lines[k]
    ensures forall k :: |lines| <= k < |r| ==> r[k].hint == Floor && r[k].a.y == r[k].b.y
    ensures b.h > 0 ==> forall k :: |lines| <= k < |r| ==> 0.0 < r[k].a.y < b.H()
    ensures Count(r, Floor) == Count(lines, Floor) + 84
    ensures forall h :: h != Floor ==> Count(r, h) == Count(lines, h)
  {
    r := lines;
    for f := 1 to 22
      invariant r == lines + ComcastBands(b, f - 1)
      invariant |r| == |lines| + 4 * (f - 1)
      invariant forall k :: 0 <= k < |lines| ==> r[k] == lines[k]
      invariant forall k :: |lines| <= k < |r| ==> r[k].hint == Floor && r[k].a.y == r[k].b.y
      invariant b.h > 0 ==> forall k :: |lines| <= k < |r| ==> 0.0 < r[k].a.y < b.H()
      invariant Count(r, Floor) == Count(lines, Floor) + |r| - |lines|
      invariant forall h :: h != Floor ==> Count(r, h) == Count(lines, h)
    {
      AppendAssoc(lines, ComcastBands(b, f - 1), Outline(b, 1.0, BandY(b, f), Floor));
      r := AddComcastBand(r, b, f);
    }
  }

  /** Comcast Technology Center (Philadelphia.jsx): the box frame, 21 bands
      around all four faces, and a thin antenna from h to h + 20. */
  method ComcastTech(b: Building) returns (lines: seq<Segment>)
    ensures |lines| == 97 && FramesBox(lines, b, b.H())
    ensures lines[12..96] == ComcastBands(b, 21)
    ensures Count(lines, Plain) == 12 && Count(lines, Floor) == 84 && Count(lines, Thin) == 1
    ensures b.h > 0 ==> forall k :: 12 <= k < 96 ==> 0.0 < lines[k].a.y == lines[k].b.y < b.H()
    ensures lines[96] == Segment(Axis(b, b.H()), Axis(b, b.H() + 20.0), Thin)
  {
    var frame := BoxFrame(b);
    var banded := AddComcastBands(frame, b);
    lines := Push(banded, Segment(Axis(b, b.H()), Axis(b, b.H() + 20.0), Thin));
  }

  /** Aurora Place (Sydney.jsx): the box frame, the glass fin on the roof (a
      closed triangle from the front of the roof up to h + 25 and back to the
      centre at h + 15), then the front-face floor lines at spacing 12. */
  method Aurora(b: Building) returns (lines: seq<Segment>)
    ensures |lines| == 15 + FloorLines(b.H(), 12.0) && FramesBox(lines, b, b.H())
    ensures lines[12].a == Point(b.x, b.H(), b.z - b.HalfD()) && lines[12].b == Point(b.x, b.H() + 25.0, b.z - b.HalfD())
    ensures lines[12].b == lines[13].a && lines[13].b == lines[14].a && lines[14].b == lines[12].a
    ensures lines[13].b == Point(b.x, b.H() + 15.0, b.z)
    ensures FloorsInside(lines, 15, b, 12.0, b.H())
    ensures Count(lines, Plain) == 12 && Count(lines, Fin) == 3 && Count(lines, Floor) == FloorLines(b.H(), 12.0)
  {
    var frame := BoxFrame(b);
    var finBase := Point(b.x, b.H(), b.z - b.HalfD());
    var finTop := Point(b.x, b.H() + 25.0, b.z - b.HalfD());
    var finBack := Point(b.x, b.H() + 15.0, b.z);
    var finned := Push(frame, Segment(finBase, finTop, Fin));
    finned := Push(finned, Segment(finTop, finBack, Fin));
    finned := Push(finned, Segment(finBack, finBase, Fin));
    var ws := WindowSpacing(Sydney);
    assert ws == 12.0;
    lines := AddFrontFloors(finned, b, 1.0, 0.0, ws, (b.H() / 12.0).Floor);
    assert |lines| == 15 + FloorLines(b.H(), 12.0);
    FramesBoxPrefix(frame, finned, b, b.H());
    FramesBoxPrefix(finned, lines, b, b.H());
    FloorsInsideFrom(lines, 15, b, 12.0);
    assert Count(finned, Plain) == 12 && Count(finned, Fin) == 3 && Count(finned, Floor) == 0;
  }

  /** Height (l / 5) * h of HSBC level l. */
  function LevelY(b: Building, l: int): real
  {
    (l as real / 5.0) * b.H()
  }

  lemma LevelInside(b: Building, l: int)
    requires 0 <= l <= 5 && b.h >= 0
    ensures 0.0 <= LevelY(b, l) <= b.H()
  {
    FractionInside(l as real / 5.0, b.H());
  }

  /** What pass l of the level loop draws: the full-footprint outline at
      LevelY(l) and, below the top level, the four corner columns from
      LevelY(l) up to LevelY(l + 1). */
  function HsbcLevel(b: Building, l: int): seq<Segment>
  {
    Outline(b, 1.0, LevelY(b, l), Structure) +
    (if l < 5 then Uprights(b, 1.0, 1.0, LevelY(b, l), LevelY(b, l + 1), Structure) else [])
  }

  /** Passes 0 .. m - 1 of the level loop. */
  function HsbcLevels(b: Building, m: nat): seq<Segment>
  {
    if m == 0 then [] else HsbcLevels(b, m - 1) + HsbcLevel(b, m - 1)
  }

  /** The two front-face braces of interval l: each from a bottom corner at
      LevelY(l) to the opposite top corner at LevelY(l + 1). */
  function HsbcBrace(b: Building, l: int): seq<Segment>
  {
    var zf := b.z - b.HalfD();
    [Segment(Point(b.x - b.HalfW(), LevelY(b, l), zf), Point(b.x + b.HalfW(), LevelY(b, l + 1), zf), Brace),
     Segment(Point(b.x + b.HalfW(), LevelY(b, l), zf), Point(b.x - b.HalfW(), LevelY(b, l + 1), zf), Brace)]
  }

  /** The braces of intervals 0 .. m - 1. */
  function HsbcBraces(b: Building, m: nat): seq<Segment>
  {
    if m == 0 then [] else HsbcBraces(b, m - 1) + HsbcBrace(b, m - 1)
  }

  /** The full-footprint outline of HSBC level l. */
  method AddHsbcRing(lines: seq<Segment>, b: Building, l: int) returns (r: seq<Segment>)
    requires 0 <= l <= 5
    ensures r == lines + Outline(b, 1.0, LevelY(b, l), Structure)
    ensures |r| == |lines| + 4
    ensures forall k :: 0 <= k < |lines| ==> r[k] == lines[k]
    ensures forall k :: |lines| <= k < |r| ==>
      r[k].hint == Structure && OnFootprint(b, 1.0, r[k].a) && OnFootprint(b, 1.0, r[k].b)
    ensures b.h >= 0 ==> forall k :: |lines| <= k < |r| ==>
      0.0 <= r[k].a.y <= b.H() && 0.0 <= r[k].b.y <= b.H()
    ensures Count(r, Structure) == Count(lines, Structure) + 4
    ensures forall h :: h != Structure ==> Count(r, h) == Count(lines, h)
  {
    var y := LevelY(b, l);
    OutlineOnFootprint(b, 1.0, y, Structure);
    if b.h >= 0 {
      LevelInside(b, l);
    }
    r := Append(lines, Outline(b, 1.0, y, Structure), Structure);
  }

  /** The four HSBC columns from level l to level l + 1. */
  method AddHsbcColumns(lines: seq<Segment>, b: Building, l: int) returns (r: seq<Segment>)
    requires 0 <= l < 5
    ensures r == lines + Uprights(b, 1.0, 1.0, LevelY(b, l), LevelY(b, l + 1), Structure)
    ensures |r| == |lines| + 4
    ensures forall k :: 0 <= k < |lines| ==> r[k] == lines[k]
    ensures forall k :: |lines| <= k < |r| ==>
      r[k].hint == Structure && OnFootprint(b, 1.0, r[k].a) && OnFootprint(b, 1.0, r[k].b)
    ensures b.h >= 0 ==> forall k :: |lines| <= k < |r| ==>
      0.0 <= r[k].a.y <= b.H() && 0.0 <= r[k].b.y <= b.H()
    ensures Count(r, Structure) == Count(lines, Structure) + 4
    ensures forall h :: h != Structure ==> Count(r, h) == Count(lines, h)
  {
    var y1 := LevelY(b, l);
    var y2 := LevelY(b, l + 1);
    UprightsOnFootprint(b, 1.0, y1, y2, Structure);
    if b.h >= 0 {
      LevelInside(b, l);
      LevelInside(b, l + 1);
    }
    r := Append(lines, Uprights(b, 1.0, 1.0, y1, y2, Structure), Structure);
  }

  /** The HSBC exoskeleton: levels 0..5. Every segment joins two corners of
      the full footprint between the ground and the roof. */
  method AddHsbcLevels(lines: seq<Segment>, b: Building) returns (r: seq<Segment>)
    ensures r == lines + HsbcLevels(b, 6)
    ensures |r| == |lines| + 44
    ensures forall k :: 0 <= k < |lines| ==> r[k] == lines[k]
    ensures forall k :: |lines| <= k < |r| ==>
      r[k].hint == Structure && OnFootprint(b, 1.0, r[k].a) && OnFootprint(b, 1.0, r[k].b)
    ensures b.h >= 0 ==> forall k :: |lines| <= k < |r| ==>
      0.0 <= r[k].a.y <= b.H() && 0.0 <= r[k].b.y <= b.H()
    ensures Count(r, Structure) == Count(lines, Structure) + 44
    ensures forall h :: h != Structure ==> Count(r, h) == Count(lines, h)
  {
    r := lines;
    for l := 0 to 6
      invariant r == lines + HsbcLevels(b, l)
      invariant |r| == |lines| + 8 * l - (if l == 6 then 4 else 0)
      invariant forall k :: 0 <= k < |lines| ==> r[k] == lines[k]
      invariant forall k :: |lines| <= k < |r| ==>
        r[k].hint == Structure && OnFootprint(b, 1.0, r[k].a) && OnFootprint(b, 1.0, r[k].b)
      invariant b.h >= 0 ==> forall k :: |lines| <= k < |r| ==>
        0.0 <= r[k].a.y <= b.H() && 0.0 <= r[k].b.y <= b.H()
      invariant Count(r, Structure) == Count(lines, Structure) + |r| - |lines|
      invariant forall h :: h != Structure ==> Count(r, h) == Count(lines, h)
    {
      AppendAssoc(lines, HsbcLevels(b, l), HsbcLevel(b, l));
      AppendAssoc(r, Outline(b, 1.0, LevelY(b, l), Structure),
                  if l < 5 then Uprights(b, 1.0, 1.0, LevelY(b, l), LevelY(b, l + 1), Structure) else []);
      r := AddHsbcRing(r, b, l);
      if l < 5 {
        r := AddHsbcColumns(r, b, l);
      }
    }
  }

  /** The two front-face cross braces per level interval. */
  method AddHsbcBraces(lines: seq<Segment>, b: Building) returns (r: seq<Segment>)
    ensures r == lines + HsbcBraces(b, 5)
    ensures |r| == |lines| + 10
    ensures forall k :: 0 <= k < |lines| ==> r[k] == lines[k]
    ensures forall k :: |lines| <= k < |r| ==>
      r[k].hint == Brace && r[k].a.z == b.z - b.HalfD() && r[k].b.z == b.z - b.HalfD() && r[k].a.x + r[k].b.x == 2.0 * b.x
    ensures Count(r, Brace) == Count(lines, Brace) + 10
    ensures forall h :: h != Brace ==> Count(r, h) == Count(lines, h)
  {
    r := lines;
    var zf := b.z - b.HalfD();
    for l := 0 to 5
      invariant r == lines + HsbcBraces(b, l)
      invariant |r| == |lines| + 2 * l
      invariant forall k :: 0 <= k < |lines| ==> r[k] == lines[k]
      invariant forall k :: |lines| <= k < |r| ==>
        r[k].hint == Brace && r[k].a.z == zf && r[k].b.z == zf && r[k].a.x + r[k].b.x == 2.0 * b.x
      invariant Count(r, Brace) == Count(lines, Brace) + 2 * l
      invariant forall h :: h != Brace ==> Count(r, h) == Count(lines, h)
    {
      var y1 := LevelY(b, l);
      var y2 := LevelY(b, l + 1);
      AppendAssoc(lines, HsbcBraces(b, l), HsbcBrace(b, l));
      r := Push(r, Segment(Point(b.x - b.HalfW(), y1, zf), Point(b.x + b.HalfW(), y2, zf), Brace));
      r := Push(r, Segment(Point(b.x + b.HalfW(), y1, zf), Point(b.x - b.HalfW(), y2, zf), Brace));
    }
  }

  /** The HSBC building (HongKong.jsx): 6 level outlines and 5 * 4 columns
      (structure), then 5 * 2 front cross braces crossing the axis x = b.x:
      54 segments. */
  method Hsbc(b: Building) returns (lines: seq<Segment>)
    ensures lines == HsbcLevels(b, 6) + HsbcBraces(b, 5)
    ensures |lines| == 54 && Count(lines, Structure) == 44 && Count(lines, Brace) == 10
    ensures forall k :: 0 <= k < 44 ==> OnFootprint(b, 1.0, lines[k].a) && OnFootprint(b, 1.0, lines[k].b)
    ensures b.h >= 0 ==> forall k :: 0 <= k < 44 ==> 0.0 <= lines[k].a.y <= b.H() && 0.0 <= lines[k].b.y <= b.H()
    ensures forall k :: 44 <= k < 54 ==> lines[k].hint == Brace && lines[k].a.z == b.z - b.HalfD()
  {
    var levels := AddHsbcLevels([], b);
    lines := AddHsbcBraces(levels, b);
  }

  /** Porthole w (0 <= w < 6) of floor f of Jardine House: a zero-length
      segment at x - w/2 + (w + 0.5) * (w / 6) on the front face at (f / 12) h. */
  function PortholeAt(b: Building, f: int, w: int): Segment
  {
    var p := Point(b.x - b.HalfW() + (w as real + 0.5) * (b.w / 6.0), (f as real / 12.0) * b.H(), b.z - b.HalfD());
    Segment(p, p, Porthole)
  }

  lemma PortholeOnFace(b: Building, f: int, w: int)
    requires 0 <= w < 6 && b.w > 0.0
    ensures b.x - b.HalfW() < PortholeAt(b, f, w).a.x < b.x + b.HalfW()
  {
    var t := w as real + 0.5;
    assert 0.0 < t < 6.0;
    MulStrict(0.0, t, b.w / 6.0);
    MulStrict(t, 6.0, b.w / 6.0);
  }

  /** Jardine House (HongKong.jsx): the box frame, then 11 rows of 6 portholes,
      each a zero-length entry (drawn as a circle, not a line) strictly inside
      the front face. */
  method Jardine(b: Building) returns (lines: seq<Segment>)
    ensures |lines| == 78 && FramesBox(lines, b, b.H())
    ensures Count(lines, Plain) == 12 && Count(lines, Porthole) == 66
    ensures forall k :: 12 <= k < 78 ==> lines[k] == PortholeAt(b, (k - 12) / 6 + 1, (k - 12) % 6)
    ensures forall k :: 12 <= k < 78 ==> lines[k].a == lines[k].b && lines[k].a.z == b.z - b.HalfD()
    ensures b.w > 0.0 ==> forall k :: 12 <= k < 78 ==> b.x - b.HalfW() < lines[k].a.x < b.x + b.HalfW()
  {
    lines := BoxFrame(b);
    for f := 1 to 12
      invariant |lines| == 12 + 6 * (f - 1) && FramesBox(lines, b, b.H())
      invariant forall k :: 12 <= k < |lines| ==> lines[k] == PortholeAt(b, (k - 12) / 6 + 1, (k - 12) % 6)
      invariant Count(lines, Plain) == 12 && Count(lines, Porthole) == |lines| - 12
    {
      var prev := lines;
      lines := AddPortholeRow(lines, b, f);
      forall k | |prev| <= k < |lines|
        ensures lines[k] == PortholeAt(b, (k - 12) / 6 + 1, (k - 12) % 6)
      {
        var w := k - |prev|;
        assert lines[|prev| + w] == PortholeAt(b, f, w);
        RowAndColumn(k - 12, f - 1, w);
      }
    }
    forall k | 12 <= k < 78
      ensures b.w > 0.0 ==> b.x - b.HalfW() < lines[k].a.x < b.x + b.HalfW()
    {
      if b.w > 0.0 {
        PortholeOnFace(b, (k - 12) / 6 + 1, (k - 12) % 6);
      }
    }
  }

  /** Entry n = 6 q + w of the porthole grid is column w of row q. */
  lemma RowAndColumn(n: int, q: int, w: int)
    requires 0 <= w < 6 && n == 6 * q + w
    ensures n / 6 == q && n % 6 == w
  {
  }

  /** One row of six portholes on floor f. */
  method AddPortholeRow(lines: seq<Segment>, b: Building, f: int) returns (r: seq<Segment>)
    ensures |r| == |lines| + 6
    ensures forall k :: 0 <= k < |lines| ==> r[k] == lines[k]
    ensures forall w :: 0 <= w < 6 ==> r[|lines| + w] == PortholeAt(b, f, w)
    ensures Count(r, Porthole) == Count(lines, Porthole) + 6
    ensures forall h :: h != Porthole ==> Count(r, h) == Count(lines, h)
  {
    r := lines;
    for w := 0 to 6
      invariant |r| == |lines| + w
      invariant forall k :: 0 <= k < |lines| ==> r[k] == lines[k]
      invariant forall v :: 0 <= v < w ==> r[|lines| + v] == PortholeAt(b, f, v)
      invariant Count(r, Porthole) == Count(lines, Porthole) + w
      invariant forall h :: h != Porthole ==> Count(r, h) == Count(lines, h)
    {
      r := Push(r, PortholeAt(b, f, w));
    }
  }

  /** Corner j of wavy floor f at height y: the footprint corner pushed by
      sin(0.4 f + j) * 6 along x for even j and along z for odd j. */
  function WavyCorner(b: Building, tr: Trig, f: int, j: int, y: real): Point
  {
    var wave := tr.sin(f as real * 0.4 + j as real) * 6.0;
    Point(CornerX(b, 1.0, j) + (if j % 2 == 0 then wave else 0.0), y, CornerZ(b, 1.0, j) + (if j % 2 == 1 then wave else 0.0))
  }

  /** Edge i of wavy floor f at height y, from WavyCorner(i) to WavyCorner(i + 1). */
  function WavyEdge(b: Building, tr: Trig, f: int, i: int, y: real): Segment
  {
    Segment(WavyCorner(b, tr, f, i, y), WavyCorner(b, tr, f, i + 1, y), Floor)
  }

  /** The four edges of wavy floor f at height y. */
  function WavyEdges(b: Building, tr: Trig, f: int, y: real): (r: seq<Segment>)
    ensures |r| == 4
  {
    seq(4, i => WavyEdge(b, tr, f, i, y))
  }

  /** A wavy floor is four level Floor lines at y, each starting where the
      previous one ends. */
  lemma WavyEdgesShape(b: Building, tr: Trig, f: int, y: real)
    ensures forall k :: 0 <= k < 4 ==>
      WavyEdges(b, tr, f, y)[k].hint == Floor && WavyEdges(b, tr, f, y)[k].a.y == WavyEdges(b, tr, f, y)[k].b.y == y
    ensures forall k :: 0 <= k < 3 ==> WavyEdges(b, tr, f, y)[k].b == WavyEdges(b, tr, f, y)[k + 1].a
  {
    var e := WavyEdges(b, tr, f, y);
    forall k | 0 <= k < 3
      ensures e[k].b == e[k + 1].a
    {
      assert e[k] == WavyEdge(b, tr, f, k, y) && e[k + 1] == WavyEdge(b, tr, f, k + 1, y);
    }
  }

  /** Wavy floor f, at y = 12 f. */
  function WavyFloor(b: Building, tr: Trig, f: int): seq<Segment>
  {
    WavyEdges(b, tr, f, f as real * 12.0)
  }

  /** The loop `for (i = 0; i < 4; i++)` of one wavy floor at y = 12 f. */
  method AddWavyFloor(lines: seq<Segment>, b: Building, tr: Trig, f: int) returns (r: seq<Segment>)
    ensures r == lines + WavyFloor(b, tr, f)
  {
    r := lines;
    var y := f as real * 12.0;
    var edges := WavyEdges(b, tr, f, y);
    for i := 0 to 4
      invariant r == lines + edges[..i]
    {
      assert edges[..i + 1] == edges[..i] + [edges[i]];
      AppendAssoc(lines, edges[..i], [edges[i]]);
      r := r + [edges[i]];
    }
    assert edges[..4] == edges;
  }

  /** Wavy floors 0 .. n - 1, floor f at y = 12 f. */
  function WavyFloors(b: Building, tr: Trig, n: nat): (r: seq<Segment>)
    ensures |r| == 4 * n
  {
    if n == 0 then [] else WavyFloors(b, tr, n - 1) + WavyFloor(b, tr, n - 1)
  }

  /** Line k of the wavy floors is a level Floor line of floor k / 4, at 12 (k / 4). */
  lemma {:induction false} WavyFloorsShape(b: Building, tr: Trig, n: nat)
    ensures forall k :: 0 <= k < 4 * n ==>
      WavyFloors(b, tr, n)[k].hint == Floor && WavyFloors(b, tr, n)[k].a.y == WavyFloors(b, tr, n)[k].b.y == (k / 4) as real * 12.0
  {
    if n > 0 {
      var below, edges := WavyFloors(b, tr, n - 1), WavyFloor(b, tr, n - 1);
      var w := WavyFloors(b, tr, n);
      WavyFloorsShape(b, tr, n - 1);
      WavyEdgesShape(b, tr, n - 1, (n - 1) as real * 12.0);
      assert w == below + edges;
      forall k | 0 <= k < 4 * n
        ensures w[k].hint == Floor && w[k].a.y == w[k].b.y == (k / 4) as real * 12.0
      {
        if k < 4 * (n - 1) {
          assert w[k] == below[k];
        } else {
          assert w[k] == edges[k - 4 * (n - 1)] && k / 4 == n - 1;
        }
      }
    }
  }

  /** With n = floor(h / 12), every wavy floor lies at or above the ground
      and strictly below the roof. */
  lemma WavyFloorsBelowRoof(b: Building, tr: Trig, n: nat)
    requires n == (b.H() / 12.0).Floor
    ensures forall k :: 0 <= k < 4 * n ==> 0.0 <= WavyFloors(b, tr, n)[k].a.y < b.H()
  {
    WavyFloorsShape(b, tr, n);
    forall k | 0 <= k < 4 * n
      ensures 0.0 <= WavyFloors(b, tr, n)[k].a.y < b.H()
    {
      WavyFloorBelowRoof(b, k / 4, n);
    }
  }

  /** chicago.jsx wavy tower: four verticals, then for f = 0 .. floor(h / 12) - 1
      the four wavy edges of floor f. */
  method Wavy(b: Building, tr: Trig) returns (lines: seq<Segment>)
    ensures var n := (b.H() / 12.0).Floor; lines == Uprights(b, 1.0, 1.0, 0.0, b.H(), Plain) + WavyFloors(b, tr, if n > 0 then n else 0)
    ensures Count(lines, Plain) == 4 && Count(lines, Floor) == |lines| - 4
  {
    var n := (b.H() / 12.0).Floor;
    lines := AddUprights([], b, 1.0, 1.0, 0.0, b.H(), Plain);
    ghost var up := lines;
    assert up == Uprights(b, 1.0, 1.0, 0.0, b.H(), Plain);
    var f := 0;
    while f < n
      invariant 0 <= f && (n > 0 ==> f <= n) && (n <= 0 ==> f == 0)
      invariant lines == up + WavyFloors(b, tr, f)
    {
      lines := AddWavyFloor(lines, b, tr, f);
      AppendAssoc(up, WavyFloors(b, tr, f), WavyFloor(b, tr, f));
      f := f + 1;
    }
    var floors := WavyFloors(b, tr, f);
    WavyFloorsShape(b, tr, f);
    CountUniformIs(up, Plain, Plain);
    CountUniformIs(up, Plain, Floor);
    CountUniformIs(floors, Floor, Plain);
    CountUniformIs(floors, Floor, Floor);
    CountAppend(up, floors, Plain);
    CountAppend(up, floors, Floor);
  }

  /** Floor f < floor(h / 12) sits at 12 f, strictly below the roof. */
  lemma WavyFloorBelowRoof(b: Building, f: int, n: int)
    requires n == (b.H() / 12.0).Floor && 0 <= f < n
    ensures 0.0 <= f as real * 12.0 < b.H()
  {
    DivBounds(b.H(), 12.0);
    MulMonotone(f as real, n as real - 1.0, 12.0);
    MulMonotone(n as real, b.H() / 12.0, 12.0);
  }
}
