/** The stepped-tower pass shared by the Empire State, Chrysler, Willis, One and
    Two Liberty, Mercury City and Stalinist generators: `sections.forEach((sec,
    si) => ...)` draws, per section, the four corner verticals of the scaled
    footprint, the top edge of each side (and, under a per-landmark rule, the
    base edge), and, again under a per-landmark rule, front-face floor lines. */
module Setbacks {
  import opened Geometry
  import opened Prism

  /** One stage: drawn from height lo to height top on the footprint scaled by `scale`. */
  datatype Section = Section(lo: real, top: real, scale: real)

  /** Which sections also draw the edges at their base: none (Chrysler,
      Mercury), every section but the first (`si > 0`: Empire State, Willis,
      Liberty), or only the ground tier (`tier.h === 0`: Stalinist). */
  datatype BaseRule = NoBase | AfterFirst | GroundOnly

  /** Which sections draw front-face floor lines: none, every section (Empire
      State, Willis) or only the first (`si === 0`: Liberty). */
  datatype FloorRule = NoFloors | EverySection | FirstSection

  predicate BaseDrawn(rule: BaseRule, si: nat)
  {
    match rule
    case NoBase => false
    case AfterFirst => si > 0
    case GroundOnly => si == 0
  }

  predicate FloorsDrawn(rule: FloorRule, si: nat)
  {
    match rule
    case NoFloors => false
    case EverySection => true
    case FirstSection => si == 0
  }

  /** Frame segments of the first n sections: 4 verticals and 4 top edges each,
      plus 4 base edges where the rule draws them. */
  function FrameTotal(rule: BaseRule, n: nat): nat
  {
    if n == 0 then 0 else FrameTotal(rule, n - 1) + 8 + (if BaseDrawn(rule, n - 1) then 4 else 0)
  }

  /** Floor lines of the first n sections: max(0, floor((top - lo) / ws) - 1)
      in each section the rule draws floors in. */
  function FloorTotal(secs: seq<Section>, rule: FloorRule, ws: real, n: nat): nat
    requires ws > 0.0 && n <= |secs|
  {
    if n == 0 then 0
    else
      var last := if FloorsDrawn(rule, n - 1) then FloorLines(secs[n - 1].top - secs[n - 1].lo, ws) else 0;
      FloorTotal(secs, rule, ws, n - 1) + last
  }

  /** Under `NoFloors` the pass draws no floor lines. */
  lemma {:induction false} NoFloorsTotal(secs: seq<Section>, ws: real, n: nat)
    requires ws > 0.0 && n <= |secs|
    ensures FloorTotal(secs, NoFloors, ws, n) == 0
  {
    if n > 0 {
      NoFloorsTotal(secs, ws, n - 1);
    }
  }

  /** The sections stack without gaps from `base` to `top`. */
  predicate Contiguous(secs: seq<Section>, base: real, top: real)
  {
    |secs| > 0 && secs[0].lo == base && secs[|secs| - 1].top == top &&
    forall i :: 0 < i < |secs| ==> secs[i].lo == secs[i - 1].top
  }

  /** The first section is full size and every later one is strictly smaller. */
  predicate Tapering(secs: seq<Section>)
  {
    |secs| > 0 && secs[0].scale == 1.0 &&
    forall i :: 0 < i < |secs| ==> 0.0 < secs[i].scale < secs[i - 1].scale
  }

  predicate Within(y: real, lo: real, top: real)
  {
    lo <= y <= top || top <= y <= lo
  }

  /** seg joins two corners of the footprint of `sec` inside its height band. */
  predicate Spans(seg: Segment, b: Building, sec: Section)
  {
    Within(seg.a.y, sec.lo, sec.top) && Within(seg.b.y, sec.lo, sec.top) &&
    OnFootprint(b, sec.scale, seg.a) && OnFootprint(b, sec.scale, seg.b)
  }

  /** seg is a floor line of `sec`: its front edge strictly inside the band. */
  predicate FloorOf(seg: Segment, b: Building, sec: Section)
  {
    sec.lo < seg.a.y < sec.top && seg == Edge(b, sec.scale, 0, seg.a.y, Floor)
  }

  lemma EdgeSpans(b: Building, sec: Section, i: int, y: real, hint: Hint)
    requires Within(y, sec.lo, sec.top)
    ensures Spans(Edge(b, sec.scale, i, y, hint), b, sec)
  {
    CornerOnFootprint(b, sec.scale, i, y);
    CornerOnFootprint(b, sec.scale, i + 1, y);
  }

  lemma UprightsSpan(b: Building, sec: Section, hint: Hint)
    ensures forall i :: 0 <= i < 4 ==>
      Spans(Uprights(b, sec.scale, sec.scale, sec.lo, sec.top, hint)[i], b, sec)
  {
    forall i | 0 <= i < 4
      ensures Spans(Uprights(b, sec.scale, sec.scale, sec.lo, sec.top, hint)[i], b, sec)
    {
      CornerOnFootprint(b, sec.scale, i, sec.lo);
      CornerOnFootprint(b, sec.scale, i, sec.top);
    }
  }

  /** Side i of a section's frame as the `for (i = 0; i < 4; i++)` body draws
      it: the edge from corner i to corner i + 1 at the section's top, then,
      when `withBase`, the same edge at its base. */
  function SideLines(b: Building, sec: Section, i: int, withBase: bool, hint: Hint): seq<Segment>
  {
    [Edge(b, sec.scale, i, sec.top, hint)] + (if withBase then [Edge(b, sec.scale, i, sec.lo, hint)] else [])
  }

  /** Sides 0 .. m - 1 of a section's frame, in drawing order. */
  function Sides(b: Building, sec: Section, withBase: bool, hint: Hint, m: nat): seq<Segment>
  {
    if m == 0 then [] else Sides(b, sec, withBase, hint, m - 1) + SideLines(b, sec, m - 1, withBase, hint)
  }

  /** The frame of one section: the four corner verticals of its scaled
      footprint from lo to top (`corners.forEach`), then its four sides. */
  function SectionFrame(b: Building, sec: Section, withBase: bool, hint: Hint): seq<Segment>
  {
    Uprights(b, sec.scale, sec.scale, sec.lo, sec.top, hint) + Sides(b, sec, withBase, hint, 4)
  }

  /** The floor lines of one section: the front edge of its scaled footprint
      at lo + f * ws for f = 1 .. floor((top - lo) / ws) - 1. */
  function SectionFloors(b: Building, sec: Section, ws: real): seq<Segment>
    requires ws > 0.0
  {
    FrontFloors(b, sec.scale, sec.lo, ws, FloorLines(sec.top - sec.lo, ws))
  }

  /** Everything pass si of `sections.forEach` draws: the frame, with base
      edges where the base rule draws them, then the floor lines where the
      floor rule draws them. */
  function SectionLines(b: Building, secs: seq<Section>, base: BaseRule, floors: FloorRule, ws: real,
                        hint: Hint, si: nat): seq<Segment>
    requires ws > 0.0 && si < |secs|
  {
    SectionFrame(b, secs[si], BaseDrawn(base, si), hint) +
    (if FloorsDrawn(floors, si) then SectionFloors(b, secs[si], ws) else [])
  }

  /** The lines of the first n passes, in drawing order. */
  function ShaftLines(b: Building, secs: seq<Section>, base: BaseRule, floors: FloorRule, ws: real,
                      hint: Hint, n: nat): seq<Segment>
    requires ws > 0.0 && n <= |secs|
  {
    if n == 0 then [] else ShaftLines(b, secs, base, floors, ws, hint, n - 1) + SectionLines(b, secs, base, floors, ws, hint, n - 1)
  }

  /** The frame part of one pass of the `forEach` body: the four verticals,
      then per side the top edge followed by the base edge when `withBase`. */
  method AddSectionFrame(lines: seq<Segment>, b: Building, sec: Section, withBase: bool, hint: Hint)
    returns (r: seq<Segment>)
    ensures |r| == |lines| + 8 + (if withBase then 4 else 0)
    ensures forall k :: 0 <= k < |lines| ==> r[k] == lines[k]
    ensures forall k :: |lines| <= k < |r| ==> Spans(r[k], b, sec) && r[k].hint == hint
    ensures Count(r, hint) == Count(lines, hint) + |r| - |lines|
    ensures forall h :: h != hint ==> Count(r, h) == Count(lines, h)
    ensures r == lines + SectionFrame(b, sec, withBase, hint)
  {
    UprightsSpan(b, sec, hint);
    var ups := Uprights(b, sec.scale, sec.scale, sec.lo, sec.top, hint);
    r := Append(lines, ups, hint);
    for i := 0 to 4
      invariant r == lines + ups + Sides(b, sec, withBase, hint, i)
      invariant |r| == |lines| + 4 + (if withBase then 2 * i else i)
      invariant forall k :: 0 <= k < |lines| ==> r[k] == lines[k]
      invariant forall k :: |lines| <= k < |r| ==> Spans(r[k], b, sec) && r[k].hint == hint
      invariant forall h :: Count(r, h) == Count(lines, h) + if h == hint then |r| - |lines| else 0
    {
      AppendAssoc(lines + ups, Sides(b, sec, withBase, hint, i), SideLines(b, sec, i, withBase, hint));
      r := AddSectionSide(r, b, sec, i, withBase, hint);
    }
    AppendAssoc(lines, ups, Sides(b, sec, withBase, hint, 4));
  }

  /** Side i of the frame: its top edge, then its base edge when `withBase`. */
  method AddSectionSide(lines: seq<Segment>, b: Building, sec: Section, i: int, withBase: bool, hint: Hint)
    returns (r: seq<Segment>)
    ensures |r| == |lines| + (if withBase then 2 else 1)
    ensures forall k :: 0 <= k < |lines| ==> r[k] == lines[k]
    ensures forall k :: |lines| <= k < |r| ==> Spans(r[k], b, sec) && r[k].hint == hint
    ensures forall h :: Count(r, h) == Count(lines, h) + if h == hint then |r| - |lines| else 0
    ensures r == lines + SideLines(b, sec, i, withBase, hint)
  {
    EdgeSpans(b, sec, i, sec.top, hint);
    r := Push(lines, Edge(b, sec.scale, i, sec.top, hint));
    if withBase {
      EdgeSpans(b, sec, i, sec.lo, hint);
      r := Push(r, Edge(b, sec.scale, i, sec.lo, hint));
    }
  }

  /** The floor loop of one section: max(0, floor((top - lo) / ws) - 1) front
      edges, each strictly inside the section's band. */
  method AddSectionFloors(lines: seq<Segment>, b: Building, sec: Section, ws: real) returns (r: seq<Segment>)
    requires ws > 0.0
    ensures |r| == |lines| + FloorLines(sec.top - sec.lo, ws)
    ensures forall k :: 0 <= k < |lines| ==> r[k] == lines[k]
    ensures forall k :: |lines| <= k < |r| ==> Spans(r[k], b, sec) && FloorOf(r[k], b, sec)
    ensures Count(r, Floor) == Count(lines, Floor) + |r| - |lines|
    ensures forall h :: h != Floor ==> Count(r, h) == Count(lines, h)
    ensures r == lines + SectionFloors(b, sec, ws)
  {
    r := AddFrontFloors(lines, b, sec.scale, sec.lo, ws, ((sec.top - sec.lo) / ws).Floor);
    forall k | |lines| <= k < |r|
      ensures Spans(r[k], b, sec) && FloorOf(r[k], b, sec)
    {
      var f := k - |lines| + 1;
      FloorBelowRoof(sec.top - sec.lo, ws, f);
      EdgeSpans(b, sec, 0, sec.lo + f as real * ws, Floor);
    }
  }

  /** seg is drawn by section `sec`: it joins two corners of the section's
      footprint inside its band, and if it is a floor line, it lies strictly
      inside the band of a section whose rule draws floors. */
  predicate Placed(seg: Segment, b: Building, sec: Section, floorsDrawn: bool)
  {
    Spans(seg, b, sec) && (seg.hint == Floor ==> floorsDrawn && FloorOf(seg, b, sec))
  }

  /** The tallies after the first n sections of the pass. */
  predicate Tallied(lines: seq<Segment>, secs: seq<Section>, base: BaseRule, floors: FloorRule,
                    ws: real, hint: Hint, n: nat)
    requires ws > 0.0 && n <= |secs|
  {
    |lines| == FrameTotal(base, n) + FloorTotal(secs, floors, ws, n) &&
    Count(lines, hint) == FrameTotal(base, n) &&
    Count(lines, Floor) == FloorTotal(secs, floors, ws, n)
  }

  /** Every segment is placed by one of the first n sections, named by `owner`. */
  ghost predicate Owned(lines: seq<Segment>, owner: seq<nat>, b: Building, secs: seq<Section>,
                        floors: FloorRule, n: nat)
    requires n <= |secs|
  {
    |owner| == |lines| &&
    forall k :: 0 <= k < |lines| ==>
      owner[k] < n && Placed(lines[k], b, secs[owner[k]], FloorsDrawn(floors, owner[k]))
  }

  /** One iteration of the `forEach`: section si adds its frame and floors. */
  method AddSection(lines: seq<Segment>, ghost owner: seq<nat>, b: Building, secs: seq<Section>,
                    base: BaseRule, floors: FloorRule, ws: real, hint: Hint, si: nat)
    returns (r: seq<Segment>, ghost o: seq<nat>)
    requires ws > 0.0 && hint != Floor && si < |secs|
    requires Tallied(lines, secs, base, floors, ws, hint, si) && Owned(lines, owner, b, secs, floors, si)
    ensures Tallied(r, secs, base, floors, ws, hint, si + 1) && Owned(r, o, b, secs, floors, si + 1)
    ensures r == lines + SectionLines(b, secs, base, floors, ws, hint, si)
  {
    var fd := FloorsDrawn(floors, si);
    var framed := AddSectionFrame(lines, b, secs[si], BaseDrawn(base, si), hint);
    PlacedFrame(lines, framed, b, secs[si], fd, hint);
    r := framed;
    if fd {
      r := AddSectionFloors(framed, b, secs[si], ws);
      PlacedFloors(lines, framed, r, b, secs[si]);
    }
    AppendAssoc(lines, SectionFrame(b, secs[si], BaseDrawn(base, si), hint),
                if fd then SectionFloors(b, secs[si], ws) else []);
    TalliedStep(lines, framed, r, secs, base, floors, ws, hint, si);
    o := owner + seq(|r| - |lines|, _ => si);
    OwnedStep(lines, owner, r, o, b, secs, floors, si);
  }

  /** The tally after one section, from what its frame and floor passes add. */
  lemma TalliedStep(lines: seq<Segment>, framed: seq<Segment>, r: seq<Segment>, secs: seq<Section>, base: BaseRule,
                    floors: FloorRule, ws: real, hint: Hint, si: nat)
    requires ws > 0.0 && hint != Floor && si < |secs|
    requires Tallied(lines, secs, base, floors, ws, hint, si)
    requires |framed| == |lines| + 8 + (if BaseDrawn(base, si) then 4 else 0)
    requires Count(framed, hint) == Count(lines, hint) + |framed| - |lines|
    requires forall h :: h != hint ==> Count(framed, h) == Count(lines, h)
    requires FloorsDrawn(floors, si) ==>
      |r| == |framed| + FloorLines(secs[si].top - secs[si].lo, ws) &&
      Count(r, Floor) == Count(framed, Floor) + |r| - |framed| &&
      forall h :: h != Floor ==> Count(r, h) == Count(framed, h)
    requires !FloorsDrawn(floors, si) ==> r == framed
    ensures Tallied(r, secs, base, floors, ws, hint, si + 1)
  {
    assert Count(framed, Floor) == Count(lines, Floor);
    assert Count(r, hint) == Count(framed, hint);
  }

  lemma PlacedFrame(lines: seq<Segment>, r: seq<Segment>, b: Building, sec: Section, fd: bool, hint: Hint)
    requires hint != Floor && |lines| <= |r|
    requires forall k :: |lines| <= k < |r| ==> Spans(r[k], b, sec) && r[k].hint == hint
    ensures forall k :: |lines| <= k < |r| ==> Placed(r[k], b, sec, fd)
  {
  }

  lemma PlacedFloors(lines: seq<Segment>, framed: seq<Segment>, r: seq<Segment>, b: Building, sec: Section)
    requires |lines| <= |framed| <= |r|
    requires forall k :: 0 <= k < |framed| ==> r[k] == framed[k]
    requires forall k :: |lines| <= k < |framed| ==> Placed(framed[k], b, sec, true)
    requires forall k :: |framed| <= k < |r| ==> Spans(r[k], b, sec) && FloorOf(r[k], b, sec)
    ensures forall k :: |lines| <= k < |r| ==> Placed(r[k], b, sec, true)
  {
    forall k | |lines| <= k < |r|
      ensures Placed(r[k], b, sec, true)
    {
      if k < |framed| {
        assert r[k] == framed[k];
      }
    }
  }

  lemma OwnedStep(lines: seq<Segment>, owner: seq<nat>, r: seq<Segment>, o: seq<nat>, b: Building,
                  secs: seq<Section>, floors: FloorRule, si: nat)
    requires si < |secs| && Owned(lines, owner, b, secs, floors, si) && |lines| <= |r|
    requires forall k :: 0 <= k < |lines| ==> r[k] == lines[k]
    requires forall k :: |lines| <= k < |r| ==> Placed(r[k], b, secs[si], FloorsDrawn(floors, si))
    requires o == owner + seq(|r| - |lines|, _ => si)
    ensures Owned(r, o, b, secs, floors, si + 1)
  {
    forall k | 0 <= k < |r|
      ensures o[k] < si + 1 && Placed(r[k], b, secs[o[k]], FloorsDrawn(floors, o[k]))
    {
      if k < |lines| {
        assert r[k] == lines[k] && o[k] == owner[k];
      } else {
        assert o[k] == si;
      }
    }
  }

  /** The whole `sections.forEach` pass. The ghost `owner` names, for each
      segment, the section that drew it: every segment lies on the footprint of
      its section inside that section's height band, and every floor line lies
      strictly inside a section the floor rule allows. The tallies are the sums
      of the per-section counts. */
  method SetbackShaft(b: Building, secs: seq<Section>, base: BaseRule, floors: FloorRule, ws: real, hint: Hint)
    returns (lines: seq<Segment>, ghost owner: seq<nat>)
    requires ws > 0.0 && hint != Floor
    ensures lines == ShaftLines(b, secs, base, floors, ws, hint, |secs|)
    ensures |lines| == FrameTotal(base, |secs|) + FloorTotal(secs, floors, ws, |secs|)
    ensures Count(lines, hint) == FrameTotal(base, |secs|)
    ensures Count(lines, Floor) == FloorTotal(secs, floors, ws, |secs|)
    ensures |owner| == |lines|
    ensures forall k :: 0 <= k < |lines| ==>
      owner[k] < |secs| && Placed(lines[k], b, secs[owner[k]], FloorsDrawn(floors, owner[k]))
  {
    lines, owner := [], [];
    for si := 0 to |secs|
      invariant Tallied(lines, secs, base, floors, ws, hint, si)
      invariant Owned(lines, owner, b, secs, floors, si)
      invariant lines == ShaftLines(b, secs, base, floors, ws, hint, si)
    {
      lines, owner := AddSection(lines, owner, b, secs, base, floors, ws, hint, si);
    }
  }
}
