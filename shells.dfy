/** The curved outlines of HongKong.jsx: the convention centre's wing roof
    (`b.hkcec`) and the Victoria Peak silhouette with its contour lines
    (`renderMountains`). */
module Shells {
  import opened Geometry

  // ---------------------------------------------------------------- HKCEC

  /** The roof is sampled at 12 points along the building's width. */
  const NumPoints: nat := 12

  /** `t` of sample i: i / (numPoints - 1). */
  function CurveT(i: int): real
  {
    i as real / 11.0
  }

  function CurveX(b: Building, i: int): real
  {
    b.x - b.w / 2.0 + CurveT(i) * b.w
  }

  /** `curveH`: h (1 - 3 (t - 0.5)^2). */
  function CurveH(b: Building, t: real): real
  {
    b.H() * (1.0 - (t - 0.5) * (t - 0.5) * 3.0)
  }

  /** The roof is a hump: at full height h in the middle, down to a quarter
      of h at both ends, within [h / 4, h] across the width, and symmetric. */
  lemma RoofHump(b: Building, t: real)
    ensures CurveH(b, 0.5) == b.H() && CurveH(b, 0.0) == b.H() * 0.25 && CurveH(b, 1.0) == b.H() * 0.25
    ensures CurveH(b, t) == CurveH(b, 1.0 - t)
    ensures b.h >= 0 && 0.0 <= t <= 1.0 ==> b.H() * 0.25 <= CurveH(b, t) <= b.H()
  {
    var u := t - 0.5;
    assert (1.0 - t) - 0.5 == -u;
    assert CurveH(b, t) == b.H() - b.H() * (u * u * 3.0);
    if b.h >= 0 && 0.0 <= t <= 1.0 {
      assert 0.0 <= u * u <= 0.25 by {
        if u >= 0.0 { assert u * u <= u * 0.5; } else { assert u * u <= (-u) * 0.5; }
      }
      Between(b.H(), u * u * 3.0);
    }
  }

  /** 0 <= h c <= 0.75 h for h >= 0 and 0 <= c <= 0.75. */
  lemma Between(h: real, c: real)
    requires h >= 0.0 && 0.0 <= c <= 0.75
    ensures 0.0 <= h * c <= h * 0.75
  {
  }

  /** The crest point of rib i on the building's centre line. */
  function Crest(b: Building, i: int): Point
  {
    Point(CurveX(b, i), CurveH(b, CurveT(i)), b.z)
  }

  /** What sample i adds: the rib from the front ground edge over the crest
      to the back ground edge, then the ridge piece from the previous crest. */
  function RoofStep(b: Building, i: int): seq<Segment>
  {
    [Segment(Point(CurveX(b, i), 0.0, b.z - b.HalfD()), Crest(b, i), Plain),
     Segment(Crest(b, i), Point(CurveX(b, i), 0.0, b.z + b.HalfD()), Plain)] +
    (if i > 0 then [Segment(Crest(b, i - 1), Crest(b, i), Plain)] else [])
  }

  /** Samples 0 .. n - 1 of the roof. */
  function RoofLines(b: Building, n: nat): (r: seq<Segment>)
    ensures |r| == (if n == 0 then 0 else 3 * n - 1)
    ensures forall k :: 0 <= k < |r| ==> r[k].hint == Plain
  {
    if n == 0 then [] else RoofLines(b, n - 1) + RoofStep(b, n - 1)
  }

  /** The ribs stand on the footprint's front and back edges, and the ridge
      is a path through consecutive crests; mirror-image ribs are equally
      high. */
  lemma RoofShape(b: Building, i: int)
    ensures RoofStep(b, i)[0].a.z == b.z - b.HalfD() && RoofStep(b, i)[1].b.z == b.z + b.HalfD()
    ensures RoofStep(b, i)[0].b == RoofStep(b, i)[1].a == Crest(b, i)
    ensures i > 0 ==> RoofStep(b, i)[2].a == Crest(b, i - 1) && RoofStep(b, i)[2].b == Crest(b, i)
    ensures Crest(b, i).y == Crest(b, 11 - i).y
  {
    assert CurveT(11 - i) == 1.0 - CurveT(i);
    RoofHump(b, CurveT(i));
  }

  /** `b.hkcec`: 12 ribs of 2 lines and 11 ridge pieces, 35 lines. */
  method Hkcec(b: Building) returns (lines: seq<Segment>)
    ensures lines == RoofLines(b, NumPoints)
    ensures |lines| == 35 && Count(lines, Plain) == 35
  {
    lines := [];
    for i := 0 to NumPoints
      invariant lines == RoofLines(b, i)
    {
      var t := i as real / (NumPoints - 1) as real;
      var x := b.x - b.w / 2.0 + t * b.w;
      var p2 := Point(x, CurveH(b, t), b.z);
      assert t == CurveT(i) && p2 == Crest(b, i);
      lines := lines + [Segment(Point(x, 0.0, b.z - b.HalfD()), p2, Plain), Segment(p2, Point(x, 0.0, b.z + b.HalfD()), Plain)];
      if i > 0 {
        lines := lines + [Segment(Crest(b, i - 1), p2, Plain)];
      }
    }
    CountUniform(lines, Plain);
  }

  // ---------------------------------------------------------------- Victoria Peak

  /** A silhouette vertex: its x and its height above the mountain base. */
  datatype Peak = Peak(x: int, h: int)

  /** `peakPoints`. */
  const PeakPoints: seq<Peak> := [
    Peak(-500, 0), Peak(-450, 35), Peak(-380, 70), Peak(-300, 95), Peak(-200, 120),
    Peak(-100, 130), Peak(0, 125), Peak(100, 115), Peak(200, 100), Peak(300, 85),
    Peak(400, 65), Peak(480, 40), Peak(500, 0)]

  /** The mountain stands 100 above the ground at z = 280. */
  function PeakPoint(x: int, y: int): Point
  {
    Point(x as real, y as real, 280.0)
  }

  /** The silhouette: consecutive peak points, each raised by 100. */
  function Silhouette(pts: seq<Peak>): (r: seq<Segment>)
    ensures |r| == if |pts| == 0 then 0 else |pts| - 1
    ensures forall i :: 0 <= i < |r| ==>
      r[i] == Segment(PeakPoint(pts[i].x, pts[i].h + 100), PeakPoint(pts[i + 1].x, pts[i + 1].h + 100), Mountain)
  {
    if |pts| <= 1 then [] else
    seq(|pts| - 1, i requires 0 <= i < |pts| - 1 =>
      Segment(PeakPoint(pts[i].x, pts[i].h + 100), PeakPoint(pts[i + 1].x, pts[i + 1].h + 100), Mountain))
  }

  function Min(a: int, b: int): int
  {
    if a < b then a else b
  }

  /** `filter(([x, h]) => h > level - 20)`. */
  function Kept(pts: seq<Peak>, level: int): (r: seq<Peak>)
    ensures |r| <= |pts|
  {
    if pts == [] then []
    else (if pts[0].h > level - 20 then [pts[0]] else []) + Kept(pts[1..], level)
  }

  /** The filter keeps exactly the peaks above level - 20. */
  lemma {:induction false} KeptMembers(pts: seq<Peak>, level: int, p: Peak)
    ensures p in Kept(pts, level) <==> p in pts && p.h > level - 20
  {
    if pts != [] {
      KeptMembers(pts[1..], level, p);
      assert pts == [pts[0]] + pts[1..];
    }
  }

  /** `map(([x, h]) => [x, min(h, level) + 100])`. */
  function Lowered(pts: seq<Peak>, level: int): (r: seq<Peak>)
    ensures |r| == |pts|
    ensures forall i :: 0 <= i < |r| ==> r[i] == Peak(pts[i].x, Min(pts[i].h, level) + 100)
  {
    seq(|pts|, i requires 0 <= i < |pts| => Peak(pts[i].x, Min(pts[i].h, level) + 100))
  }

  /** The contour points of one level. */
  function ContourPoints(pts: seq<Peak>, level: int): seq<Peak>
  {
    Lowered(Kept(pts, level), level)
  }

  /** The x coordinates strictly increase along pts. */
  predicate Increasing(pts: seq<Peak>)
  {
    forall i, j :: 0 <= i < j < |pts| ==> pts[i].x < pts[j].x
  }

  /** Filtering keeps the left-to-right order. */
  lemma {:induction false} KeptIncreasing(pts: seq<Peak>, level: int)
    requires Increasing(pts)
    ensures Increasing(Kept(pts, level))
  {
    if pts != [] {
      var rest := pts[1..];
      assert Increasing(rest) by {
        forall i, j | 0 <= i < j < |rest|
          ensures rest[i].x < rest[j].x
        {
          assert rest[i] == pts[i + 1] && rest[j] == pts[j + 1];
        }
      }
      KeptIncreasing(rest, level);
      var k := Kept(rest, level);
      if pts[0].h > level - 20 {
        var r := [pts[0]] + k;
        forall i, j | 0 <= i < j < |r|
          ensures r[i].x < r[j].x
        {
          if i == 0 {
            assert r[j] in k;
            KeptMembers(rest, level, r[j]);
            assert r[j] in rest;
            var m :| 0 <= m < |rest| && rest[m] == r[j];
            assert pts[m + 1] == r[j];
          } else {
            assert r[i] == k[i - 1] && r[j] == k[j - 1];
          }
        }
      }
    }
  }

  /** Every contour point is a kept peak lowered to at most the level, so it
      lies in (level + 80, level + 100]; a silhouette drawn left to right
      gives contours drawn left to right. */
  lemma ContourBand(pts: seq<Peak>, level: int)
    ensures forall p :: p in ContourPoints(pts, level) ==> level + 80 < p.h <= level + 100
    ensures Increasing(pts) ==> Increasing(ContourPoints(pts, level))
  {
    var k := Kept(pts, level);
    forall p | p in ContourPoints(pts, level)
      ensures level + 80 < p.h <= level + 100
    {
      var i :| 0 <= i < |k| && ContourPoints(pts, level)[i] == p;
      assert k[i] in k;
      KeptMembers(pts, level, k[i]);
    }
    if Increasing(pts) {
      KeptIncreasing(pts, level);
    }
  }

  /** The contour of one level: consecutive contour points. */
  function ContourLines(pts: seq<Peak>): (r: seq<Segment>)
    ensures |r| == if |pts| == 0 then 0 else |pts| - 1
    ensures forall i :: 0 <= i < |r| ==>
      r[i] == Segment(PeakPoint(pts[i].x, pts[i].h), PeakPoint(pts[i + 1].x, pts[i + 1].h), Contour)
  {
    if |pts| <= 1 then [] else
    seq(|pts| - 1, i requires 0 <= i < |pts| - 1 =>
      Segment(PeakPoint(pts[i].x, pts[i].h), PeakPoint(pts[i + 1].x, pts[i + 1].h), Contour))
  }

  /** The loop visits the four levels 20, 45, 70 and 95. */
  const Levels: nat := 4

  /** The contour level after `steps` passes of `level += 25` from 20. */
  function Level(steps: nat): int
  {
    20 + 25 * steps
  }

  /** The contours of the first `steps` levels. */
  function Contours(pts: seq<Peak>, steps: nat): (r: seq<Segment>)
    ensures forall k :: 0 <= k < |r| ==> r[k].hint == Contour
  {
    if steps == 0 then [] else Contours(pts, steps - 1) + ContourLines(ContourPoints(pts, Level(steps - 1)))
  }

  /** Lines in the contours of the first `steps` levels: one fewer than the
      peaks each level keeps, none for a level that keeps none. */
  function ContourTotal(pts: seq<Peak>, steps: nat): nat
  {
    if steps == 0 then 0
    else ContourTotal(pts, steps - 1) + (if |Kept(pts, Level(steps - 1))| == 0 then 0 else |Kept(pts, Level(steps - 1))| - 1)
  }

  lemma {:induction false} ContoursSize(pts: seq<Peak>, steps: nat)
    ensures |Contours(pts, steps)| == ContourTotal(pts, steps)
  {
    if steps > 0 {
      ContoursSize(pts, steps - 1);
    }
  }

  /** `renderMountains` over the silhouette `pts` (the scene's `peakPoints`):
      the silhouette, then the contours of levels 20, 45, 70 and 95, the
      levels below 120. */
  method Mountains(pts: seq<Peak>) returns (lines: seq<Segment>)
    ensures lines == Silhouette(pts) + Contours(pts, Levels)
    ensures Count(lines, Mountain) == |Silhouette(pts)| && Count(lines, Contour) == ContourTotal(pts, Levels)
  {
    lines := AddSilhouette(pts);
    lines := AddContours(lines, pts);
    MountainCount(pts, Mountain);
    MountainCount(pts, Contour);
  }

  /** The outline loop over consecutive peak points. */
  method AddSilhouette(pts: seq<Peak>) returns (lines: seq<Segment>)
    ensures lines == Silhouette(pts)
  {
    lines := [];
    if |pts| > 1 {
      for i := 0 to |pts| - 1
        invariant |lines| == i && forall k :: 0 <= k < i ==> lines[k] == Silhouette(pts)[k]
      {
        lines := lines + [Segment(PeakPoint(pts[i].x, pts[i].h + 100), PeakPoint(pts[i + 1].x, pts[i + 1].h + 100), Mountain)];
      }
    }
  }

  /** The `level` loop: `for (level = 20; level < 120; level += 25)`. */
  method AddContours(lines: seq<Segment>, pts: seq<Peak>) returns (r: seq<Segment>)
    ensures r == lines + Contours(pts, Levels)
  {
    r := lines;
    var level := 20;
    var steps := 0;
    while level < 120
      invariant level == Level(steps) && steps <= Levels
      invariant r == lines + Contours(pts, steps)
    {
      var contour := ContourPoints(pts, level);
      r := AddContour(r, contour);
      AppendAssoc(lines, Contours(pts, steps), ContourLines(contour));
      level := level + 25;
      steps := steps + 1;
    }
    assert steps == Levels;
  }

  /** The inner loop over one contour's points. */
  method AddContour(lines: seq<Segment>, pts: seq<Peak>) returns (r: seq<Segment>)
    ensures r == lines + ContourLines(pts)
  {
    r := lines;
    ghost var cl := ContourLines(pts);
    if |pts| > 1 {
      for i := 0 to |pts| - 1
        invariant r == lines + cl[..i]
      {
        var seg := Segment(PeakPoint(pts[i].x, pts[i].h), PeakPoint(pts[i + 1].x, pts[i + 1].h), Contour);
        assert seg == cl[i];
        assert cl[..i + 1] == cl[..i] + [seg];
        AppendAssoc(lines, cl[..i], [seg]);
        r := r + [seg];
      }
      assert cl[..|pts| - 1] == cl;
    }
  }

  lemma MountainCount(pts: seq<Peak>, h: Hint)
    ensures Count(Silhouette(pts) + Contours(pts, Levels), h) ==
      (if h == Mountain then |Silhouette(pts)| else 0) + (if h == Contour then ContourTotal(pts, Levels) else 0)
  {
    var s, c := Silhouette(pts), Contours(pts, Levels);
    ContoursSize(pts, Levels);
    CountUniformIs(s, Mountain, h);
    CountUniformIs(c, Contour, h);
    CountAppend(s, c, h);
  }

  /** Victoria Peak's silhouette runs left to right over 13 points. */
  lemma PeakPointsIncreasing()
    ensures Increasing(PeakPoints) && |Silhouette(PeakPoints)| == 12
  {
    var pts := PeakPoints;
    assert |pts| == 13;
    assert forall i :: 0 <= i < 12 ==> pts[i].x < pts[i + 1].x;
    forall i, j | 0 <= i < j < |pts|
      ensures pts[i].x < pts[j].x
    {
      StepsIncrease(pts, i, j);
    }
  }

  /** x rising between neighbours rises between any two points. */
  lemma {:induction false} StepsIncrease(pts: seq<Peak>, i: int, j: int)
    requires forall k :: 0 <= k < |pts| - 1 ==> pts[k].x < pts[k + 1].x
    requires 0 <= i < j < |pts|
    ensures pts[i].x < pts[j].x
    decreases j - i
  {
    if i + 1 < j {
      StepsIncrease(pts, i + 1, j);
    }
  }
}
