/** Twisted towers: Moscow's Evolution Tower and chicago's St. Regis, whose
    four corners turn a little on every floor, and Moscow's Federation Tower,
    a triangular shaft that narrows section by section. */
module Twisted {
  import opened Geometry

  /** Which floors get the horizontal ties between neighbouring corners. */
  datatype TieRule = EveryFloor | EveryThird

  predicate Tied(rule: TieRule, f: int)
  {
    rule == EveryFloor || f % 3 == 0
  }

  /** A twisted tower: its floor count, its total turn as a fraction of PI,
      its tie rule and the hint of its rising corner lines. */
  datatype Tower = Tower(floors: nat, turn: real, rule: TieRule, rise: Hint)

  /** Evolution Tower: 45 floors turning 0.55 PI, ties every third floor. */
  const Evolution: Tower := Tower(45, 0.55, EveryThird, Twist)

  /** St. Regis (`b.twisted`): 15 segments turning 0.15 PI, ties on every one. */
  const StRegis: Tower := Tower(15, 0.15, EveryFloor, Plain)

  /** Height (f / floors) * h of floor f. */
  function FloorY(b: Building, tw: Tower, f: int): real
    requires tw.floors > 0
  {
    (f as real / tw.floors as real) * b.H()
  }

  /** Angle (c / 4) * 2 PI + PI / 4 + (f / floors) * turn PI of corner c on floor f. */
  function TwistAngle(tr: Trig, tw: Tower, c: int, f: int): real
    requires tw.floors > 0
  {
    (c as real / 4.0) * tr.pi * 2.0 + tr.pi / 4.0 + (f as real / tw.floors as real) * (tr.pi * tw.turn)
  }

  /** Corner c on floor f: on the ellipse of radii (w/2, d/2) at the twisted angle. */
  function TwistPoint(b: Building, tr: Trig, tw: Tower, c: int, f: int): Point
    requires tw.floors > 0
  {
    Polar(b, tr, TwistAngle(tr, tw, c, f), b.HalfW(), b.HalfD(), FloorY(b, tw, f))
  }

  /** The rising line of corner c from floor f to floor f + 1. */
  function Rise(b: Building, tr: Trig, tw: Tower, c: int, f: int): Segment
    requires tw.floors > 0
  {
    Segment(TwistPoint(b, tr, tw, c, f), TwistPoint(b, tr, tw, c, f + 1), tw.rise)
  }

  /** The tie from corner c to corner c + 1 on floor f. */
  function Tie(b: Building, tr: Trig, tw: Tower, c: int, f: int): Segment
    requires tw.floors > 0
  {
    Segment(TwistPoint(b, tr, tw, c, f), TwistPoint(b, tr, tw, c + 1, f), Floor)
  }

  /** What the corner loop of floor f pushes for corners 0 .. c - 1: each
      corner's rise, followed by its tie on a tied floor. */
  function Corners(b: Building, tr: Trig, tw: Tower, f: int, c: nat): seq<Segment>
    requires tw.floors > 0
  {
    if c == 0 then []
    else Corners(b, tr, tw, f, c - 1) + [Rise(b, tr, tw, c - 1, f)] + (if Tied(tw.rule, f) then [Tie(b, tr, tw, c - 1, f)] else [])
  }

  /** What the floor loop pushes for floors 0 .. n - 1. */
  function Storeys(b: Building, tr: Trig, tw: Tower, n: nat): seq<Segment>
    requires tw.floors > 0
  {
    if n == 0 then [] else Storeys(b, tr, tw, n - 1) + Corners(b, tr, tw, n - 1, 4)
  }

  /** The nested loops `for (f = 0; f < floors; f++) for (c = 0; c < 4; c++)`. */
  method AddStoreys(lines: seq<Segment>, b: Building, tr: Trig, tw: Tower) returns (r: seq<Segment>)
    requires tw.floors > 0
    ensures r == lines + Storeys(b, tr, tw, tw.floors)
  {
    r := lines;
    for f := 0 to tw.floors
      invariant r == lines + Storeys(b, tr, tw, f)
    {
      r := AddCorners(r, b, tr, tw, f);
      AppendAssoc(lines, Storeys(b, tr, tw, f), Corners(b, tr, tw, f, 4));
    }
  }

  /** The inner loop `for (c = 0; c < 4; c++)` of floor f. */
  method AddCorners(lines: seq<Segment>, b: Building, tr: Trig, tw: Tower, f: int) returns (r: seq<Segment>)
    requires tw.floors > 0
    ensures r == lines + Corners(b, tr, tw, f, 4)
  {
    r := lines;
    for c := 0 to 4
      invariant r == lines + Corners(b, tr, tw, f, c)
    {
      r := r + [Rise(b, tr, tw, c, f)];
      if Tied(tw.rule, f) {
        r := r + [Tie(b, tr, tw, c, f)];
      }
    }
  }

  /** How many of the floors 0 .. n - 1 are tied. */
  function TiedBelow(rule: TieRule, n: nat): nat
  {
    if rule == EveryFloor then n else (n + 2) / 3
  }

  /** One more floor adds one tied floor exactly when that floor is tied. */
  lemma TiedStep(rule: TieRule, n: nat)
    requires n > 0
    ensures TiedBelow(rule, n) == TiedBelow(rule, n - 1) + if Tied(rule, n - 1) then 1 else 0
  {
  }

  /** The lines of hint h that the corner loop of floor f pushes for
      corners 0 .. c - 1. */
  function CornerTally(tw: Tower, f: int, c: nat, h: Hint): nat
  {
    (if h == tw.rise then c else 0) + (if h == Floor && Tied(tw.rule, f) then c else 0)
  }

  /** The lines of hint h on floors 0 .. n - 1, floor by floor. */
  function StoreyTally(tw: Tower, n: nat, h: Hint): nat
  {
    if n == 0 then 0 else StoreyTally(tw, n - 1, h) + CornerTally(tw, n - 1, 4, h)
  }

  /** Four rises per floor and four ties per tied floor. */
  lemma {:induction false} StoreyTallyIs(tw: Tower, n: nat, h: Hint)
    ensures StoreyTally(tw, n, h) == (if h == tw.rise then 4 * n else 0) + (if h == Floor then 4 * TiedBelow(tw.rule, n) else 0)
  {
    if n > 0 {
      StoreyTallyIs(tw, n - 1, h);
      TiedStep(tw.rule, n);
    }
  }

  /** A floor's corner loop pushes four rises and, on a tied floor, four ties. */
  lemma {:induction false} CornersCount(b: Building, tr: Trig, tw: Tower, f: int, c: nat, h: Hint)
    requires tw.floors > 0
    ensures Count(Corners(b, tr, tw, f, c), h) == CornerTally(tw, f, c, h)
  {
    if c > 0 {
      CornersCount(b, tr, tw, f, c - 1, h);
      var rise := [Rise(b, tr, tw, c - 1, f)];
      var tie := if Tied(tw.rule, f) then [Tie(b, tr, tw, c - 1, f)] else [];
      assert Corners(b, tr, tw, f, c) == (Corners(b, tr, tw, f, c - 1) + rise) + tie;
      CountAppend(Corners(b, tr, tw, f, c - 1) + rise, tie, h);
      CountAppend(Corners(b, tr, tw, f, c - 1), rise, h);
      assert Count(rise, h) == if h == tw.rise then 1 else 0 by {
        assert rise[..0] == [];
      }
      if Tied(tw.rule, f) {
        assert tie[..0] == [];
      }
    }
  }

  /** Floors 0 .. n - 1 carry 4 n rises and four ties per tied floor. */
  lemma {:induction false} StoreysCount(b: Building, tr: Trig, tw: Tower, n: nat, h: Hint)
    requires tw.floors > 0
    ensures Count(Storeys(b, tr, tw, n), h) == StoreyTally(tw, n, h)
  {
    if n > 0 {
      var below, top := Storeys(b, tr, tw, n - 1), Corners(b, tr, tw, n - 1, 4);
      StoreysCount(b, tr, tw, n - 1, h);
      CornersCount(b, tr, tw, n - 1, 4, h);
      CountAppend(below, top, h);
      assert Storeys(b, tr, tw, n) == below + top;
      SumStep(Count(Storeys(b, tr, tw, n), h), Count(below, h), Count(top, h),
        StoreyTally(tw, n, h), StoreyTally(tw, n - 1, h), CornerTally(tw, n - 1, 4, h));
    }
  }

  lemma {:induction false} StoreysSize(b: Building, tr: Trig, tw: Tower, n: nat)
    requires tw.floors > 0
    ensures |Storeys(b, tr, tw, n)| == 4 * n + 4 * TiedBelow(tw.rule, n)
  {
    if n > 0 {
      StoreysSize(b, tr, tw, n - 1);
      CornersSize(b, tr, tw, n - 1, 4);
      TiedStep(tw.rule, n);
    }
  }

  lemma {:induction false} CornersSize(b: Building, tr: Trig, tw: Tower, f: int, c: nat)
    requires tw.floors > 0
    ensures |Corners(b, tr, tw, f, c)| == if Tied(tw.rule, f) then 2 * c else c
  {
    if c > 0 {
      CornersSize(b, tr, tw, f, c - 1);
    }
  }

  /** s is the rise of some corner c < 4 from some floor f < n. */
  predicate IsRise(b: Building, tr: Trig, tw: Tower, n: nat, s: Segment)
    requires tw.floors > 0
  {
    exists c, f :: 0 <= c < 4 && 0 <= f < n && s == Rise(b, tr, tw, c, f)
  }

  /** s is the tie from some corner c < 4 on some tied floor f < n. */
  predicate IsTie(b: Building, tr: Trig, tw: Tower, n: nat, s: Segment)
    requires tw.floors > 0
  {
    exists c, f :: 0 <= c < 4 && 0 <= f < n && Tied(tw.rule, f) && s == Tie(b, tr, tw, c, f)
  }

  /** Every line a floor's corner loop pushes is a rise of that floor or a tie
      on it. */
  lemma {:induction false} CornersShape(b: Building, tr: Trig, tw: Tower, f: nat, c: nat)
    requires tw.floors > 0 && c <= 4
    ensures forall s :: s in Corners(b, tr, tw, f, c) ==> IsRise(b, tr, tw, f + 1, s) || IsTie(b, tr, tw, f + 1, s)
  {
    if c > 0 {
      CornersShape(b, tr, tw, f, c - 1);
      assert IsRise(b, tr, tw, f + 1, Rise(b, tr, tw, c - 1, f));
      if Tied(tw.rule, f) {
        assert IsTie(b, tr, tw, f + 1, Tie(b, tr, tw, c - 1, f));
      }
    }
  }

  /** Every line of floors 0 .. n - 1 is one corner's rise by one floor, or a
      tie between neighbouring corners on a tied floor: nothing else is drawn. */
  lemma {:induction false} StoreysShape(b: Building, tr: Trig, tw: Tower, n: nat)
    requires tw.floors > 0
    ensures forall s :: s in Storeys(b, tr, tw, n) ==> IsRise(b, tr, tw, n, s) || IsTie(b, tr, tw, n, s)
  {
    if n > 0 {
      StoreysShape(b, tr, tw, n - 1);
      CornersShape(b, tr, tw, n - 1, 4);
      forall s | s in Storeys(b, tr, tw, n)
        ensures IsRise(b, tr, tw, n, s) || IsTie(b, tr, tw, n, s)
      {
        if s in Storeys(b, tr, tw, n - 1) {
          if IsRise(b, tr, tw, n - 1, s) {
            var c, f :| 0 <= c < 4 && 0 <= f < n - 1 && s == Rise(b, tr, tw, c, f);
            assert IsRise(b, tr, tw, n, s);
          } else {
            var c, f :| 0 <= c < 4 && 0 <= f < n - 1 && Tied(tw.rule, f) && s == Tie(b, tr, tw, c, f);
            assert IsTie(b, tr, tw, n, s);
          }
        }
      }
    }
  }

  /** The twist: a rise climbs exactly one floor height h / floors while its
      corner turns by exactly turn PI / floors; a tie stays on its floor and
      joins corners a quarter turn (PI / 2) apart. */
  lemma TwistStep(b: Building, tr: Trig, tw: Tower, c: int, f: int)
    requires tw.floors > 0
    ensures Rise(b, tr, tw, c, f).b.y == Rise(b, tr, tw, c, f).a.y + b.H() / tw.floors as real
    ensures TwistAngle(tr, tw, c, f + 1) == TwistAngle(tr, tw, c, f) + tr.pi * tw.turn / tw.floors as real
    ensures Tie(b, tr, tw, c, f).a.y == Tie(b, tr, tw, c, f).b.y
    ensures TwistAngle(tr, tw, c + 1, f) == TwistAngle(tr, tw, c, f) + tr.pi / 2.0
  {
    var n := tw.floors as real;
    var t := f as real / n;
    assert (f + 1) as real / n == t + 1.0 / n;
    Distribute(t, 1.0 / n, b.H());
    Distribute(t, 1.0 / n, tr.pi * tw.turn);
    assert (c + 1) as real / 4.0 == c as real / 4.0 + 0.25;
    Distribute(c as real / 4.0, 0.25, tr.pi);
  }

  lemma Distribute(x: real, y: real, z: real)
    ensures (x + y) * z == x * z + y * z
  {
  }

  /** The tower reaches from the ground (floor 0) to its roof (floor floors). */
  lemma TwistSpan(b: Building, tw: Tower)
    requires tw.floors > 0
    ensures FloorY(b, tw, 0) == 0.0 && FloorY(b, tw, tw.floors) == b.H()
  {
  }

  /** Line j of the spiral edge polyline of Evolution corner e: from floor 2j to
      floor 2j + 2. */
  function SpiralLine(b: Building, tr: Trig, e: int, j: int): Segment
  {
    Segment(TwistPoint(b, tr, Evolution, e, 2 * j), TwistPoint(b, tr, Evolution, e, 2 * j + 2), EdgeLine)
  }

  /** The spiral polylines follow the corners: each line starts where the
      previous one ends, and its ends are corner points on floors 2j and 2j + 2. */
  lemma SpiralFollowsCorners(b: Building, tr: Trig, e: int, j: int)
    ensures SpiralLine(b, tr, e, j).b == SpiralLine(b, tr, e, j + 1).a
    ensures SpiralLine(b, tr, e, j).a == Rise(b, tr, Evolution, e, 2 * j).a
    ensures SpiralLine(b, tr, e, j).b == Rise(b, tr, Evolution, e, 2 * j + 1).b
  {
  }

  /** The first m lines of the spiral polyline of corner e. */
  function Spiral(b: Building, tr: Trig, e: int, m: nat): (r: seq<Segment>)
    ensures |r| == m && forall j :: 0 <= j < m ==> r[j] == SpiralLine(b, tr, e, j)
  {
    seq(m, j requires 0 <= j < m => SpiralLine(b, tr, e, j))
  }

  /** The polylines of corners 0 .. n - 1, 22 lines each. */
  function Spirals(b: Building, tr: Trig, n: nat): seq<Segment>
  {
    if n == 0 then [] else Spirals(b, tr, n - 1) + Spiral(b, tr, n - 1, 22)
  }

  /** Line j of the polyline of corner e sits at position 22 e + j. */
  lemma {:induction false} SpiralsAt(b: Building, tr: Trig, n: nat)
    ensures |Spirals(b, tr, n)| == 22 * n
    ensures forall e, j :: 0 <= e < n && 0 <= j < 22 ==> Spirals(b, tr, n)[22 * e + j] == SpiralLine(b, tr, e, j)
  {
    if n > 0 {
      SpiralsAt(b, tr, n - 1);
      forall e, j | 0 <= e < n && 0 <= j < 22
        ensures Spirals(b, tr, n)[22 * e + j] == SpiralLine(b, tr, e, j)
      {
        if e < n - 1 {
          assert Spirals(b, tr, n)[22 * e + j] == Spirals(b, tr, n - 1)[22 * e + j];
        } else {
          assert Spirals(b, tr, n)[22 * e + j] == Spiral(b, tr, n - 1, 22)[j];
        }
      }
    }
  }

  /** Every spiral line carries the edge-line hint. */
  lemma {:induction false} SpiralsHint(b: Building, tr: Trig, n: nat)
    ensures forall k :: 0 <= k < |Spirals(b, tr, n)| ==> Spirals(b, tr, n)[k].hint == EdgeLine
  {
    if n > 0 {
      SpiralsHint(b, tr, n - 1);
    }
  }

  /** One more line extends the polyline of corner e. */
  lemma SpiralStep(b: Building, tr: Trig, e: int, m: nat)
    ensures Spiral(b, tr, e, m + 1) == Spiral(b, tr, e, m) + [SpiralLine(b, tr, e, m)]
  {
    assert Spiral(b, tr, e, m + 1)[..m] == Spiral(b, tr, e, m);
  }

  /** The inner loop `for (f = 0; f <= 45; f += 2)` of corner e carrying
      `prevP`: a line from the previous sample to each sample after the first. */
  method AddSpiral(lines: seq<Segment>, b: Building, tr: Trig, e: int) returns (r: seq<Segment>)
    ensures r == lines + Spiral(b, tr, e, 22)
  {
    r := lines;
    var prev: Option<Point> := None;
    var f := 0;
    ghost var k := 0;
    while f <= 45
      invariant f == 2 * k && 0 <= k <= 23
      invariant prev == if k == 0 then None else Some(TwistPoint(b, tr, Evolution, e, 2 * k - 2))
      invariant r == lines + Spiral(b, tr, e, if k == 0 then 0 else k - 1)
      decreases 46 - f
    {
      var p := TwistPoint(b, tr, Evolution, e, f);
      if prev.Some? {
        var seg := Segment(prev.value, p, EdgeLine);
        assert seg == SpiralLine(b, tr, e, k - 1);
        SpiralStep(b, tr, e, k - 1);
        AppendAssoc(lines, Spiral(b, tr, e, k - 1), [seg]);
        r := r + [seg];
      }
      prev := Some(p);
      f := f + 2;
      k := k + 1;
    }
  }

  /** The loop `for (edge = 0; edge < 4; edge++)` over the four polylines. */
  method AddSpirals(lines: seq<Segment>, b: Building, tr: Trig) returns (r: seq<Segment>)
    ensures r == lines + Spirals(b, tr, 4)
  {
    r := lines;
    for e := 0 to 4
      invariant r == lines + Spirals(b, tr, e)
    {
      r := AddSpiral(r, b, tr, e);
      assert Spirals(b, tr, e + 1) == Spirals(b, tr, e) + Spiral(b, tr, e, 22);
      AppendAssoc(lines, Spirals(b, tr, e), Spiral(b, tr, e, 22));
    }
  }

  /** Evolution Tower (`b.evolution`): 45 twisted floors with ties every third
      floor, the four spiral edge polylines, and the spire from h to h + 25:
      180 twisted rises, 60 ties, 88 spiral lines and the spire. */
  method EvolutionTower(b: Building, tr: Trig) returns (lines: seq<Segment>)
    ensures lines == Storeys(b, tr, Evolution, 45) + Spirals(b, tr, 4) + [EvolutionSpire(b)]
    ensures |lines| == 329
    ensures Count(lines, Twist) == 180 && Count(lines, Floor) == 60
    ensures Count(lines, EdgeLine) == 88 && Count(lines, Thin) == 1
  {
    var storeys := AddStoreys([], b, tr, Evolution);
    var spirals := AddSpirals(storeys, b, tr);
    lines := spirals + [EvolutionSpire(b)];
    ghost var st, sp := Storeys(b, tr, Evolution, 45), Spirals(b, tr, 4);
    assert storeys == st;
    assert lines == st + sp + [EvolutionSpire(b)];
    StoreysSize(b, tr, Evolution, 45);
    assert TiedBelow(EveryThird, 45) == 15;
    SpiralsAt(b, tr, 4);
    assert |st| == 240 && |sp| == 88;
    EvolutionCount(b, tr, Twist);
    EvolutionCount(b, tr, Floor);
    EvolutionCount(b, tr, EdgeLine);
    EvolutionCount(b, tr, Thin);
  }

  /** The spire from the roof centre to 25 above it. */
  function EvolutionSpire(b: Building): Segment
  {
    Segment(Axis(b, b.H()), Axis(b, b.H() + 25.0), Thin)
  }

  /** The hint tally of the whole Evolution Tower. */
  lemma EvolutionCount(b: Building, tr: Trig, h: Hint)
    ensures Count(Storeys(b, tr, Evolution, 45) + Spirals(b, tr, 4) + [EvolutionSpire(b)], h) ==
      (if h == Twist then 180 else 0) + (if h == Floor then 60 else 0) +
      (if h == EdgeLine then 88 else 0) + (if h == Thin then 1 else 0)
  {
    var storeys := Storeys(b, tr, Evolution, 45);
    var spirals := Spirals(b, tr, 4);
    StoreysCount(b, tr, Evolution, 45, h);
    StoreyTallyIs(Evolution, 45, h);
    SpiralsAt(b, tr, 4);
    SpiralsHint(b, tr, 4);
    CountUniform(spirals, h);
    CountAppend(storeys, spirals, h);
    CountAppend(storeys + spirals, [EvolutionSpire(b)], h);
    assert [EvolutionSpire(b)][..0] == [];
  }

  /** St. Regis (`b.twisted`): 15 twisted segments, each corner's rise
      followed by its tie: 120 lines. */
  method StRegisTower(b: Building, tr: Trig) returns (lines: seq<Segment>)
    ensures lines == Storeys(b, tr, StRegis, 15)
    ensures |lines| == 120 && Count(lines, Plain) == 60 && Count(lines, Floor) == 60
  {
    lines := AddStoreys([], b, tr, StRegis);
    StoreysSize(b, tr, StRegis, 15);
    StoreysCount(b, tr, StRegis, 15, Plain);
    StoreysCount(b, tr, StRegis, 15, Floor);
    StoreyTallyIs(StRegis, 15, Plain);
    StoreyTallyIs(StRegis, 15, Floor);
  }

  /** Federation Tower's triangular footprint, corner i (taken mod 3) scaled
      about the centre by s at height y: the back apex (x, z - d/2) and the
      front corners (x +- w/2, z + 0.6 d/2). */
  function TriPoint(b: Building, i: int, s: real, y: real): Point
  {
    if i % 3 == 0 then Point(b.x, y, b.z - b.HalfD() * s)
    else if i % 3 == 1 then Point(b.x + b.HalfW() * s, y, b.z + b.HalfD() * 0.6 * s)
    else Point(b.x - b.HalfW() * s, y, b.z + b.HalfD() * 0.6 * s)
  }

  /** Scale 1 - (k / 22) * 0.15 at the bottom of section k. */
  function FedScale(k: int): real
  {
    1.0 - (k as real / 22.0) * 0.15
  }

  /** Height (k / 22) * h of the bottom of section k. */
  function FedY(b: Building, k: int): real
  {
    (k as real / 22.0) * b.H()
  }

  /** The tapered edge of corner i through section k. */
  function FedRise(b: Building, i: int, k: int): Segment
  {
    Segment(TriPoint(b, i, FedScale(k), FedY(b, k)), TriPoint(b, i, FedScale(k + 1), FedY(b, k + 1)), Plain)
  }

  /** The top edge of section k from corner i to corner (i + 1) % 3. */
  function FedRing(b: Building, i: int, k: int): Segment
  {
    Segment(TriPoint(b, i, FedScale(k + 1), FedY(b, k + 1)), TriPoint(b, i + 1, FedScale(k + 1), FedY(b, k + 1)), Floor)
  }

  /** The first m tapered edges of section k. */
  function FedRises(b: Building, k: int, m: nat): (r: seq<Segment>)
    ensures |r| == m && forall i :: 0 <= i < m ==> r[i] == FedRise(b, i, k)
  {
    seq(m, i requires 0 <= i < m => FedRise(b, i, k))
  }

  /** The first m top edges of section k. */
  function FedRings(b: Building, k: int, m: nat): (r: seq<Segment>)
    ensures |r| == m && forall i :: 0 <= i < m ==> r[i] == FedRing(b, i, k)
  {
    seq(m, i requires 0 <= i < m => FedRing(b, i, k))
  }

  /** Sections 0 .. n - 1: each its three tapered edges, then its three top edges. */
  function FedSections(b: Building, n: nat): seq<Segment>
  {
    if n == 0 then [] else FedSections(b, n - 1) + FedRises(b, n - 1, 3) + FedRings(b, n - 1, 3)
  }

  /** The `corners.forEach` pass of section k: its three tapered edges. */
  method AddFedRises(lines: seq<Segment>, b: Building, k: int) returns (r: seq<Segment>)
    ensures r == lines + FedRises(b, k, 3)
  {
    r := lines;
    for i := 0 to 3
      invariant r == lines + FedRises(b, k, i)
    {
      assert FedRises(b, k, i + 1) == FedRises(b, k, i) + [FedRise(b, i, k)];
      AppendAssoc(lines, FedRises(b, k, i), [FedRise(b, i, k)]);
      r := r + [FedRise(b, i, k)];
    }
  }

  /** The `for (i = 0; i < 3; i++)` pass of section k: its three top edges. */
  method AddFedRings(lines: seq<Segment>, b: Building, k: int) returns (r: seq<Segment>)
    ensures r == lines + FedRings(b, k, 3)
  {
    r := lines;
    for i := 0 to 3
      invariant r == lines + FedRings(b, k, i)
    {
      assert FedRings(b, k, i + 1) == FedRings(b, k, i) + [FedRing(b, i, k)];
      AppendAssoc(lines, FedRings(b, k, i), [FedRing(b, i, k)]);
      r := r + [FedRing(b, i, k)];
    }
  }

  /** The loop `for (s = 0; s < 22; s++)`. */
  method AddFedSections(lines: seq<Segment>, b: Building) returns (r: seq<Segment>)
    ensures r == lines + FedSections(b, 22)
  {
    r := lines;
    for k := 0 to 22
      invariant r == lines + FedSections(b, k)
    {
      r := AddFedRises(r, b, k);
      AppendAssoc(lines, FedSections(b, k), FedRises(b, k, 3));
      r := AddFedRings(r, b, k);
      AppendAssoc(lines, FedSections(b, k) + FedRises(b, k, 3), FedRings(b, k, 3));
      assert FedSections(b, k + 1) == FedSections(b, k) + FedRises(b, k, 3) + FedRings(b, k, 3);
    }
  }

  /** Section n - 1 adds three tapered edges and three top edges. */
  lemma {:induction false} FedSectionsCount(b: Building, n: nat, h: Hint)
    ensures |FedSections(b, n)| == 6 * n
    ensures Count(FedSections(b, n), h) == (if h == Plain then 3 * n else 0) + (if h == Floor then 3 * n else 0)
  {
    if n > 0 {
      var below := FedSections(b, n - 1);
      var rises := FedRises(b, n - 1, 3);
      var rings := FedRings(b, n - 1, 3);
      FedSectionsCount(b, n - 1, h);
      CountUniformIs(rises, Plain, h);
      CountUniformIs(rings, Floor, h);
      CountAppend(below, rises, h);
      CountAppend(below + rises, rings, h);
      assert FedSections(b, n) == below + rises + rings;
    }
  }

  /** The footprint scale falls linearly from 1 at the ground to 0.85 at the
      roof, strictly with every section. */
  lemma FedScaleFalls(k: int, l: int)
    ensures FedScale(0) == 1.0 && FedScale(22) == 0.85
    ensures k < l ==> FedScale(l) < FedScale(k)
    ensures 0 <= k <= 22 ==> 0.85 <= FedScale(k) <= 1.0
  {
  }

  /** The sections stack without gaps: each tapered edge starts where the same
      corner's edge of the section below ends, and every top edge joins the
      tops of two tapered edges of its section, closing the triangle. */
  lemma FedContiguous(b: Building, i: int, k: int)
    ensures FedRise(b, i, k).b == FedRise(b, i, k + 1).a
    ensures FedRing(b, i, k).a == FedRise(b, i, k).b
    ensures FedRing(b, i, k).b == FedRise(b, i + 1, k).b
    ensures FedRing(b, 2, k).b == FedRise(b, 0, k).b
    ensures FedRing(b, i, k).a.y == FedRing(b, i, k).b.y == FedY(b, k + 1)
  {
  }

  /** The spire from the roof centre to 45 above it. */
  function FederationSpire(b: Building): Segment
  {
    Segment(Axis(b, b.H()), Axis(b, b.H() + 45.0), Thin)
  }

  /** Federation Tower (`b.federation`): 22 tapering triangular sections, each
      three tapered edges and three top edges, then the spire: 133 lines. */
  method FederationTower(b: Building) returns (lines: seq<Segment>)
    ensures lines == FedSections(b, 22) + [FederationSpire(b)]
    ensures |lines| == 133
    ensures Count(lines, Plain) == 66 && Count(lines, Floor) == 66 && Count(lines, Thin) == 1
  {
    var sections := AddFedSections([], b);
    assert sections == FedSections(b, 22);
    lines := sections + [FederationSpire(b)];
    FederationCount(b, Plain);
    FederationCount(b, Floor);
    FederationCount(b, Thin);
  }

  lemma FederationCount(b: Building, h: Hint)
    ensures |FedSections(b, 22)| == 132
    ensures Count(FedSections(b, 22) + [FederationSpire(b)], h) ==
      (if h == Plain then 66 else 0) + (if h == Floor then 66 else 0) + (if h == Thin then 1 else 0)
  {
    FedSectionsCount(b, 22, h);
    CountAppend(FedSections(b, 22), [FederationSpire(b)], h);
    assert [FederationSpire(b)][..0] == [];
  }
}
