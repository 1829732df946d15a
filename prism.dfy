/** Box-shaped archetypes: the default prism every scene falls back to, and the
    landmarks that are a box frame plus a regular pattern of extra lines. */
module Prism {
  import opened Geometry

  /** max(0, floor(h / ws) - 1): how many lines the loop
      `for (f = 1; f < Math.floor(h / ws); f++)` draws. */
  function FloorLines(h: real, ws: real): nat
    requires ws > 0.0
  {
    var q := (h / ws).Floor;
    if q >= 1 then q - 1 else 0
  }

  /** There are floor lines exactly when the height is at least two spacings,
      and then the last one sits at least one spacing below the roof. */
  lemma FloorLinesBounds(h: real, ws: real)
    requires ws > 0.0
    ensures FloorLines(h, ws) > 0 <==> 2.0 * ws <= h
    ensures FloorLines(h, ws) > 0 ==> (FloorLines(h, ws) + 1) as real * ws <= h
  {
    DivBounds(h, ws);
  }

  /** The facts about h / ws the floor counts need. */
  lemma DivBounds(h: real, ws: real)
    requires ws > 0.0
    ensures (h / ws).Floor as real * ws <= h < ((h / ws).Floor + 1) as real * ws
    ensures 2.0 * ws <= h <==> (h / ws).Floor >= 2
  {
    var q := h / ws;
    assert q * ws == h;
    MulMonotone(q.Floor as real, q, ws);
    assert q < (q.Floor + 1) as real;
    MulStrict(q, (q.Floor + 1) as real, ws);
    assert h < (q.Floor + 1) as real * ws;
    if 2.0 * ws <= h {
      MulMonotone(2.0, q, ws);
      assert 2.0 <= q by {
        if q < 2.0 {
          MulStrict(q, 2.0, ws);
        }
      }
    }
  }

  lemma MulMonotone(a: real, c: real, w: real)
    requires a <= c && w > 0.0
    ensures a * w <= c * w
  {
  }

  lemma MulStrict(a: real, c: real, w: real)
    requires a < c && w > 0.0
    ensures a * w < c * w
  {
  }

  /** Floor line f (1 <= f <= FloorLines(h, ws)) lies strictly above the ground
      and at least one spacing below the roof. */
  lemma {:induction false} FloorBelowRoof(h: real, ws: real, f: int)
    requires ws > 0.0 && 1 <= f <= FloorLines(h, ws)
    ensures 0.0 < f as real * ws && f as real * ws + ws <= h
  {
    FloorLinesBounds(h, ws);
    MulMonotone(f as real, FloorLines(h, ws) as real, ws);
    MulStrict(0.0, f as real, ws);
  }

  /** The 12-edge box frame of the full footprint from 0 to `top` in the order
      the scenes draw it: four verticals, then the base and top edge of each side. */
  predicate FramesBox(lines: seq<Segment>, b: Building, top: real)
  {
    |lines| >= 12 &&
    (forall i :: 0 <= i < 4 ==> lines[i] == Vertical(b, 1.0, i, 0.0, top, Plain)) &&
    (forall i :: 0 <= i < 4 ==>
      lines[4 + 2 * i] == Edge(b, 1.0, i, 0.0, Plain) && lines[5 + 2 * i] == Edge(b, 1.0, i, top, Plain))
  }

  method BoxFrame(b: Building) returns (lines: seq<Segment>)
    ensures |lines| == 12 && FramesBox(lines, b, b.H())
    ensures forall h :: Count(lines, h) == if h == Plain then 12 else 0
  {
    lines := [];
    for i := 0 to 4
      invariant |lines| == i && forall h :: Count(lines, h) == if h == Plain then i else 0
      invariant forall k :: 0 <= k < i ==> lines[k] == Vertical(b, 1.0, k, 0.0, b.H(), Plain)
    {
      lines := Push(lines, Vertical(b, 1.0, i, 0.0, b.H(), Plain));
    }
    for i := 0 to 4
      invariant |lines| == 4 + 2 * i && forall h :: Count(lines, h) == if h == Plain then 4 + 2 * i else 0
      invariant forall k :: 0 <= k < 4 ==> lines[k] == Vertical(b, 1.0, k, 0.0, b.H(), Plain)
      invariant forall k :: 0 <= k < i ==>
        lines[4 + 2 * k] == Edge(b, 1.0, k, 0.0, Plain) && lines[5 + 2 * k] == Edge(b, 1.0, k, b.H(), Plain)
    {
      lines := Push(lines, Edge(b, 1.0, i, 0.0, Plain));
      lines := Push(lines, Edge(b, 1.0, i, b.H(), Plain));
    }
  }

  /** Floor lines 1 .. m: the front edge of the footprint scaled by s at
      height lo + f * ws for f = 1 .. m, bottom first. */
  function FrontFloors(b: Building, s: real, lo: real, ws: real, m: nat): (r: seq<Segment>)
    ensures |r| == m
    ensures forall k :: 0 <= k < m ==> r[k] == Edge(b, s, 0, lo + (k + 1) as real * ws, Floor)
  {
    if m == 0 then [] else FrontFloors(b, s, lo, ws, m - 1) + [Edge(b, s, 0, lo + m as real * ws, Floor)]
  }

  /** The loop `for (f = 1; f < n; f++)` pushing the front edge (corner 0 to
      corner 1) of the footprint scaled by s at height lo + f * ws. */
  method AddFrontFloors(lines: seq<Segment>, b: Building, s: real, lo: real, ws: real, n: int)
    returns (r: seq<Segment>)
    ensures |r| == |lines| + (if n >= 1 then n - 1 else 0)
    ensures forall k :: 0 <= k < |lines| ==> r[k] == lines[k]
    ensures forall k :: |lines| <= k < |r| ==> r[k] == Edge(b, s, 0, lo + (k - |lines| + 1) as real * ws, Floor)
    ensures forall h :: Count(r, h) == Count(lines, h) + if h == Floor && n >= 1 then n - 1 else 0
    ensures r == lines + FrontFloors(b, s, lo, ws, if n >= 1 then n - 1 else 0)
  {
    r := lines;
    var f := 1;
    while f < n
      invariant 1 <= f <= if n >= 1 then n else 1
      invariant r == lines + FrontFloors(b, s, lo, ws, f - 1)
    {
      assert FrontFloors(b, s, lo, ws, f) == FrontFloors(b, s, lo, ws, f - 1) + [Edge(b, s, 0, lo + f as real * ws, Floor)];
      AppendAssoc(lines, FrontFloors(b, s, lo, ws, f - 1), [Edge(b, s, 0, lo + f as real * ws, Floor)]);
      r := Push(r, Edge(b, s, 0, lo + f as real * ws, Floor));
      f := f + 1;
    }
    var floors := FrontFloors(b, s, lo, ws, f - 1);
    CountAppendAll(lines, floors);
    forall h
      ensures Count(floors, h) == if h == Floor then |floors| else 0
    {
      CountUniformIs(floors, Floor, h);
    }
  }

  /** Every segment from index `from` on is a front-face floor line at a
      multiple of ws strictly inside (0, top). */
  predicate FloorsInside(lines: seq<Segment>, from: nat, b: Building, ws: real, top: real)
  {
    forall k :: from <= k < |lines| ==>
      lines[k] == Edge(b, 1.0, 0, (k - from + 1) as real * ws, Floor) &&
      0.0 < lines[k].a.y == lines[k].b.y < top &&
      lines[k].a.z == lines[k].b.z == b.z - b.HalfD()
  }

  lemma FloorsInsideFrom(lines: seq<Segment>, from: nat, b: Building, ws: real)
    requires ws > 0.0 && |lines| == from + FloorLines(b.H(), ws)
    requires forall k :: from <= k < |lines| ==> lines[k] == Edge(b, 1.0, 0, 0.0 + (k - from + 1) as real * ws, Floor)
    ensures FloorsInside(lines, from, b, ws, b.H())
  {
    forall k | from <= k < |lines|
      ensures 0.0 < lines[k].a.y < b.H()
    {
      FloorBelowRoof(b.H(), ws, k - from + 1);
    }
  }

  /** The default prism (the final `else` branch of every scene): the box frame,
      then a floor line on the front face z = b.z - d/2 at every multiple of the
      scene's window spacing strictly between the ground and the roof. */
  method DefaultPrism(b: Building, ws: real) returns (lines: seq<Segment>)
    requires ws > 0.0
    ensures |lines| == 12 + FloorLines(b.H(), ws) && FramesBox(lines, b, b.H())
    ensures FloorsInside(lines, 12, b, ws, b.H())
    ensures Count(lines, Plain) == 12 && Count(lines, Floor) == FloorLines(b.H(), ws) && Count(lines, Thin) == 0
  {
    var frame := BoxFrame(b);
    var n := (b.H() / ws).Floor;
    lines := AddFrontFloors(frame, b, 1.0, 0.0, ws, n);
    assert |lines| == 12 + FloorLines(b.H(), ws);
    FramesBoxPrefix(frame, lines, b, b.H());
    FloorsInsideFrom(lines, 12, b, ws);
    assert Count(frame, Plain) == 12 && Count(frame, Floor) == 0 && Count(frame, Thin) == 0;
  }

  /** A sequence that starts with a box frame frames the box. */
  lemma FramesBoxPrefix(frame: seq<Segment>, lines: seq<Segment>, b: Building, top: real)
    requires FramesBox(frame, b, top) && |frame| <= |lines|
    requires forall k :: 0 <= k < |frame| ==> lines[k] == frame[k]
    ensures FramesBox(lines, b, top)
  {
    forall i | 0 <= i < 4
      ensures lines[i] == frame[i] && lines[4 + 2 * i] == frame[4 + 2 * i] && lines[5 + 2 * i] == frame[5 + 2 * i]
    {
    }
  }

  /** chicago's default prism with the spire flag: four thin lines from the roof
      corners to the point 40 above the roof centre, after the floors. */
  method SpirePrism(b: Building, ws: real, spire: bool) returns (lines: seq<Segment>)
    requires ws > 0.0
    ensures |lines| == 12 + FloorLines(b.H(), ws) + (if spire then 4 else 0)
    ensures FramesBox(lines, b, b.H())
    ensures forall k :: 12 <= k < 12 + FloorLines(b.H(), ws) ==> lines[k].hint == Floor && 0.0 < lines[k].a.y < b.H()
    ensures FloorsInside(lines[..12 + FloorLines(b.H(), ws)], 12, b, ws, b.H())
    ensures spire ==> lines[|lines| - 4..] == ToApex(b, 1.0, b.H(), Axis(b, b.H() + 40.0), Thin)
    ensures Count(lines, Plain) == 12 && Count(lines, Floor) == FloorLines(b.H(), ws)
    ensures Count(lines, Thin) == if spire then 4 else 0
  {
    lines := DefaultPrism(b, ws);
    if spire {
      lines := Append(lines, ToApex(b, 1.0, b.H(), Axis(b, b.H() + 40.0), Thin), Thin);
    }
  }
}
