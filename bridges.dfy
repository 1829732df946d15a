/** The two bridge renderers: the Brooklyn Bridge of NYC.jsx (a suspension
    bridge whose cables are sampled in a loop that remembers the previous
    sample) and the Sydney Harbour Bridge of Sydney.jsx (a parabolic truss arch
    sampled the same way, with suspenders, a deck and two tapered pylons). Both
    are modelled as the world-space segments they project. */
module Bridges {
  import opened Geometry

  // ---------------------------------------------------------------- Brooklyn Bridge

  const StartX: real := -470.0
  const EndX: real := -350.0
  const BridgeZ: real := -95.0
  const TowerX1: real := StartX + 25.0
  const TowerX2: real := EndX - 25.0
  const TowerH: real := 70.0
  const DeckH: real := 18.0

  /** `x` of cable sample i: startX + (i / 20) * (endX - startX). */
  function CableX(i: int): real
  {
    StartX + (i as real / 20.0) * (EndX - StartX)
  }

  /** Cable samples are 6 apart. */
  lemma CableXAt(i: int)
    ensures CableX(i) == StartX + 6.0 * i as real
  {
  }

  /** The main-span sag `(x - mid) / (span / 2)`. */
  function Sag(x: real): real
  {
    (x - (TowerX1 + TowerX2) / 2.0) / ((TowerX2 - TowerX1) / 2.0)
  }

  /** The cable height: a straight approach cable rising from the tower to
      0.4 of the tower's height above the deck at either end, and the main
      span's parabola between the towers, 20 below the tower tops at mid-span. */
  function CableY(x: real): real
  {
    if x < TowerX1 then DeckH + (TowerX1 - x) / (TowerX1 - StartX) * (TowerH - DeckH) * 0.4
    else if x > TowerX2 then DeckH + (x - TowerX2) / (EndX - TowerX2) * (TowerH - DeckH) * 0.4
    else TowerH - 20.0 * (1.0 - Sag(x) * Sag(x))
  }

  /** Between the towers the cable hangs from 70 at both towers to 50 at
      mid-span, never outside [50, 70], and symmetrically about mid-span. */
  lemma MainSpan(x: real, d: real)
    ensures CableY(TowerX1) == 70.0 && CableY(TowerX2) == 70.0 && CableY(-410.0) == 50.0
    ensures TowerX1 <= x <= TowerX2 ==> 50.0 <= CableY(x) <= 70.0
    ensures -35.0 <= d <= 35.0 ==> CableY(-410.0 + d) == CableY(-410.0 - d)
  {
    if TowerX1 <= x <= TowerX2 {
      SquareAtMostOne(Sag(x));
    }
    if -35.0 <= d <= 35.0 {
      assert Sag(-410.0 + d) == -Sag(-410.0 - d);
    }
  }

  /** 0 <= u u <= 1 for |u| <= 1. */
  lemma SquareAtMostOne(u: real)
    requires -1.0 <= u <= 1.0
    ensures 0.0 <= u * u <= 1.0
  {
    if u >= 0.0 {
      assert u * u <= u * 1.0;
    } else {
      assert u * u <= (-u) * 1.0;
    }
  }

  /** The approach cables run between 18 and 38.8, reaching 38.8 only at the
      bridge ends, so the cable jumps from below 38.8 to the tower top (70)
      at each tower. */
  lemma Approaches(x: real)
    ensures CableY(StartX) == 38.8 && CableY(EndX) == 38.8
    ensures StartX <= x < TowerX1 ==> 18.0 < CableY(x) <= 38.8
    ensures TowerX2 < x <= EndX ==> 18.0 < CableY(x) <= 38.8
    ensures StartX < x < TowerX1 || TowerX2 < x < EndX ==> CableY(x) < 38.8
  {
  }

  /** The suspender rule `i > 0 && i < 20 && i % 2 === 0 && towerX1 < x < towerX2`. */
  predicate Suspended(i: int)
  {
    0 < i < 20 && i % 2 == 0 && TowerX1 < CableX(i) < TowerX2
  }

  /** Suspenders hang from samples 6, 8, 10, 12 and 14 only. */
  lemma SuspendedExactly(i: int)
    ensures Suspended(i) <==> i % 2 == 0 && 6 <= i <= 14
  {
    CableXAt(i);
  }

  function CablePoint(zo: real, i: int): Point
  {
    Point(CableX(i), CableY(CableX(i)), BridgeZ + zo)
  }

  /** What sample i adds: the cable piece from the previous sample, then its
      suspender down to the deck. */
  function CableStep(zo: real, i: int): seq<Segment>
  {
    (if i > 0 then [Segment(CablePoint(zo, i - 1), CablePoint(zo, i), Cable)] else []) +
    (if Suspended(i) then [Segment(CablePoint(zo, i), Point(CableX(i), DeckH, BridgeZ + zo), Suspender)] else [])
  }

  /** Samples 0 .. n - 1 of the cable at z offset zo. */
  function CableLines(zo: real, n: nat): seq<Segment>
  {
    if n == 0 then [] else CableLines(zo, n - 1) + CableStep(zo, n - 1)
  }

  /** Suspenders among samples 0 .. n - 1. */
  function SuspendersBelow(n: int): nat
  {
    if n <= 6 then 0 else if n >= 15 then 5 else (n - 5) / 2
  }

  /** Every cable piece joins two consecutive samples, and every suspender
      ends on the deck straight below its sample. */
  lemma CablePieces(zo: real, i: int)
    ensures i > 0 ==> CableStep(zo, i)[0].a == CablePoint(zo, i - 1) && CableStep(zo, i)[0].b == CablePoint(zo, i)
    ensures Suspended(i) ==> var s := CableStep(zo, i)[|CableStep(zo, i)| - 1];
      s.a == CablePoint(zo, i) && s.b.x == s.a.x && s.b.z == s.a.z && s.b.y == DeckH
  {
  }

  /** n samples give n - 1 cable pieces and the suspenders below n. */
  lemma {:induction false} CableLinesCount(zo: real, n: nat, h: Hint)
    ensures Count(CableLines(zo, n), h) ==
      (if h == Cable && n > 0 then n - 1 else 0) + (if h == Suspender then SuspendersBelow(n) else 0)
    ensures |CableLines(zo, n)| == (if n > 0 then n - 1 else 0) + SuspendersBelow(n)
  {
    if n > 0 {
      var below, step := CableLines(zo, n - 1), CableStep(zo, n - 1);
      CableLinesCount(zo, n - 1, h);
      CableStepCount(zo, n - 1, h);
      CountAppend(below, step, h);
      assert CableLines(zo, n) == below + step;
      SuspendersStep(n - 1);
    }
  }

  lemma SuspendersStep(i: nat)
    ensures SuspendersBelow(i + 1) == SuspendersBelow(i) + (if i % 2 == 0 && 6 <= i <= 14 then 1 else 0)
  {
  }

  lemma CableStepCount(zo: real, i: int, h: Hint)
    ensures Count(CableStep(zo, i), h) ==
      (if h == Cable && i > 0 then 1 else 0) + (if h == Suspender && i % 2 == 0 && 6 <= i <= 14 then 1 else 0)
    ensures |CableStep(zo, i)| == (if i > 0 then 1 else 0) + (if i % 2 == 0 && 6 <= i <= 14 then 1 else 0)
  {
    SuspendedExactly(i);
    var chord := if i > 0 then [Segment(CablePoint(zo, i - 1), CablePoint(zo, i), Cable)] else [];
    var hanger := if Suspended(i) then [Segment(CablePoint(zo, i), Point(CableX(i), DeckH, BridgeZ + zo), Suspender)] else [];
    CountUniform(chord, h);
    CountUniform(hanger, h);
    CountAppend(chord, hanger, h);
  }

  /** The cable loop of one of the two cables (z offset -5 or 5): `lastP`
      holds the previous sample once there is one. */
  method AddCable(lines: seq<Segment>, zo: real) returns (r: seq<Segment>)
    ensures r == lines + CableLines(zo, 21)
  {
    r := lines;
    var lastP: Option<Point> := None;
    for i := 0 to 21
      invariant r == lines + CableLines(zo, i)
      invariant lastP == if i == 0 then None else Some(CablePoint(zo, i - 1))
    {
      var x := StartX + (i as real / 20.0) * (EndX - StartX);
      var p := Point(x, CableY(x), BridgeZ + zo);
      ghost var before := r;
      if lastP.Some? {
        r := r + [Segment(lastP.value, p, Cable)];
      }
      lastP := Some(p);
      if i > 0 && i < 20 && i % 2 == 0 && x > TowerX1 && x < TowerX2 {
        r := r + [Segment(p, Point(x, DeckH, BridgeZ + zo), Suspender)];
      }
      assert r == before + CableStep(zo, i);
      AppendAssoc(lines, CableLines(zo, i), CableStep(zo, i));
    }
  }

  /** The deck edges at z -+ 6 from end to end. */
  function BrooklynDeck(): (r: seq<Segment>)
    ensures |r| == 2 && forall k :: 0 <= k < 2 ==> r[k].hint == Deck
  {
    [Segment(Point(StartX, DeckH, BridgeZ - 6.0), Point(EndX, DeckH, BridgeZ - 6.0), Deck),
     Segment(Point(StartX, DeckH, BridgeZ + 6.0), Point(EndX, DeckH, BridgeZ + 6.0), Deck)]
  }

  /** Cross beam k at x = startX + 12 k. */
  function CrossBeam(k: int): Segment
  {
    Segment(Point(StartX + 12.0 * k as real, DeckH, BridgeZ - 6.0), Point(StartX + 12.0 * k as real, DeckH, BridgeZ + 6.0), Beam)
  }

  function CrossBeams(n: nat): (r: seq<Segment>)
    ensures |r| == n && forall k :: 0 <= k < n ==> r[k] == CrossBeam(k)
  {
    seq(n, k requires 0 <= k < n => CrossBeam(k))
  }

  /** The beam loop `for (x = startX; x <= endX; x += 12)`: beams at
      startX, startX + 12, ..., the last one at endX itself. */
  method AddBeams(lines: seq<Segment>) returns (r: seq<Segment>)
    ensures r == lines + CrossBeams(11)
    ensures CrossBeams(11)[10].a.x == EndX
  {
    r := lines;
    var x := StartX;
    var k := 0;
    while x <= EndX
      invariant 0 <= k <= 11 && x == StartX + 12.0 * k as real
      invariant r == lines + CrossBeams(k)
      decreases 11 - k
    {
      assert CrossBeams(k + 1) == CrossBeams(k) + [CrossBeam(k)];
      AppendAssoc(lines, CrossBeams(k), [CrossBeam(k)]);
      r := r + [CrossBeam(k)];
      x := x + 12.0;
      k := k + 1;
    }
    assert k == 11;
  }

  /** The footprint of the stone tower at tx: a 12 by 12 square, 70 high. */
  function TowerBase(tx: real): Building
  {
    Building(tx, BridgeZ, 12.0, 12.0, 70)
  }

  /** A Gothic tower: its four corner posts, the top bar across it and the
      two sides of its pointed arch (from +-4 at 0.45 of its height to the
      peak at 0.65). */
  function GothicTower(tx: real): seq<Segment>
  {
    Uprights(TowerBase(tx), 1.0, 1.0, 0.0, TowerH, Pylon) +
    [Segment(Point(tx - 6.0, TowerH, BridgeZ), Point(tx + 6.0, TowerH, BridgeZ), Pylon),
     Segment(Point(tx - 4.0, TowerH * 0.45, BridgeZ), Point(tx, TowerH * 0.65, BridgeZ), Structure),
     Segment(Point(tx + 4.0, TowerH * 0.45, BridgeZ), Point(tx, TowerH * 0.65, BridgeZ), Structure)]
  }

  /** The towers' posts stand at the corners of a 12 by 12 square around the
      tower centre, the arch sits inside the tower below its top, and the
      cable touches each tower's top. */
  lemma TowersCarryCable(tx: real, i: int)
    requires 0 <= i < 4
    ensures var post := GothicTower(tx)[i];
      post.a.y == 0.0 && post.b.y == TowerH && (post.a.x == tx - 6.0 || post.a.x == tx + 6.0) &&
      (post.a.z == BridgeZ - 6.0 || post.a.z == BridgeZ + 6.0) && post.b.x == post.a.x
    ensures 0.0 < GothicTower(tx)[5].a.y < GothicTower(tx)[5].b.y < TowerH
    ensures CableY(TowerX1) == TowerH && CableY(TowerX2) == TowerH
  {
    MainSpan(TowerX1, 0.0);
  }

  function BrooklynLines(): seq<Segment>
  {
    BrooklynDeck() + CrossBeams(11) + GothicTower(TowerX1) + GothicTower(TowerX2) +
    CableLines(-5.0, 21) + CableLines(5.0, 21)
  }

  /** `renderBrooklynBridge`: 2 deck edges, 11 cross beams, two 7-line
      towers and two cables of 20 pieces with 5 suspenders each: 77 lines. */
  method BrooklynBridge() returns (lines: seq<Segment>)
    ensures lines == BrooklynLines()
    ensures |lines| == 77
    ensures Count(lines, Cable) == 40 && Count(lines, Suspender) == 10 && Count(lines, Beam) == 11
    ensures Count(lines, Pylon) == 10 && Count(lines, Structure) == 4 && Count(lines, Deck) == 2
  {
    lines := BrooklynDeck();
    lines := AddBeams(lines);
    lines := AddAll(lines, GothicTower(TowerX1));
    lines := AddAll(lines, GothicTower(TowerX2));
    lines := AddCable(lines, -5.0);
    lines := AddCable(lines, 5.0);
    BrooklynCount(Cable);
    BrooklynCount(Suspender);
    BrooklynCount(Beam);
    BrooklynCount(Pylon);
    BrooklynCount(Structure);
    BrooklynCount(Deck);
  }

  lemma BrooklynCount(h: Hint)
    ensures |BrooklynLines()| == 77
    ensures Count(BrooklynLines(), h) ==
      (if h == Deck then 2 else 0) + (if h == Beam then 11 else 0) + (if h == Pylon then 10 else 0) +
      (if h == Structure then 4 else 0) + (if h == Cable then 40 else 0) + (if h == Suspender then 10 else 0)
  {
    var fixed := BrooklynDeck() + CrossBeams(11) + GothicTower(TowerX1) + GothicTower(TowerX2);
    var c1, c2 := CableLines(-5.0, 21), CableLines(5.0, 21);
    FixedCount(h);
    CableLinesCount(-5.0, 21, h);
    CableLinesCount(5.0, 21, h);
    CountAppend(fixed, c1, h);
    CountAppend(fixed + c1, c2, h);
  }

  /** The deck, beams and towers. */
  lemma FixedCount(h: Hint)
    ensures |BrooklynDeck() + CrossBeams(11) + GothicTower(TowerX1) + GothicTower(TowerX2)| == 27
    ensures Count(BrooklynDeck() + CrossBeams(11) + GothicTower(TowerX1) + GothicTower(TowerX2), h) ==
      (if h == Deck then 2 else 0) + (if h == Beam then 11 else 0) + (if h == Pylon then 10 else 0) + (if h == Structure then 4 else 0)
  {
    var deck, beams, t1, t2 := BrooklynDeck(), CrossBeams(11), GothicTower(TowerX1), GothicTower(TowerX2);
    CountUniform(deck, h);
    CountUniform(beams, h);
    TowerCount(TowerX1, h);
    TowerCount(TowerX2, h);
    var cd, cb := Count(deck, h), Count(beams, h);
    assert cd == (if h == Deck then 2 else 0) && cb == (if h == Beam then 11 else 0);
    CountAppend(deck, beams, h);
    CountAppend(deck + beams, t1, h);
    CountAppend(deck + beams + t1, t2, h);
  }

  lemma TowerCount(tx: real, h: Hint)
    ensures |GothicTower(tx)| == 7
    ensures Count(GothicTower(tx), h) == (if h == Pylon then 5 else 0) + (if h == Structure then 2 else 0)
  {
    var posts := Uprights(TowerBase(tx), 1.0, 1.0, 0.0, TowerH, Pylon);
    var bar := [Segment(Point(tx - 6.0, TowerH, BridgeZ), Point(tx + 6.0, TowerH, BridgeZ), Pylon)];
    var arch := [Segment(Point(tx - 4.0, TowerH * 0.45, BridgeZ), Point(tx, TowerH * 0.65, BridgeZ), Structure),
                 Segment(Point(tx + 4.0, TowerH * 0.45, BridgeZ), Point(tx, TowerH * 0.65, BridgeZ), Structure)];
    assert GothicTower(tx) == posts + bar + arch;
    CountUniform(posts, h);
    CountUniform(bar, h);
    CountUniform(arch, h);
    CountAppend(posts, bar, h);
    CountAppend(posts + bar, arch, h);
  }

  // ---------------------------------------------------------------- Harbour Bridge

  const Bx: real := 50.0
  const Bz: real := -130.0
  const BridgeLength: real := 650.0
  const ArchHeight: real := 160.0
  const ArchThickness: real := 18.0
  const HarbourDeckY: real := 55.0
  /** `numArchPoints`: the arch is sampled at i = 0 .. 50. */
  const NumArchPoints: nat := 50
  /** The suspender loop's candidates i = 3, 5, ..., 47. */
  const SuspenderSlots: nat := 23
  /** The two pylons stand 30 in from the bridge ends. */
  const PylonX1: real := Bx - BridgeLength / 2.0 + 30.0
  const PylonX2: real := Bx + BridgeLength / 2.0 - 30.0

  /** `t` of arch sample i: i / numArchPoints, with numArchPoints = 50
      written out so that the division stays linear. */
  function ArchT(i: int): real
  {
    i as real / 50.0
  }

  /** `x` of arch sample i: bx - length / 2 + t * length. */
  function ArchX(i: int): real
  {
    Bx - BridgeLength / 2.0 + ArchT(i) * BridgeLength
  }

  /** The parabola 160 (1 - (2 (t - 0.5))^2) of the bottom chord. */
  function ArchY(t: real): real
  {
    ArchHeight * (1.0 - ((t - 0.5) * 2.0) * ((t - 0.5) * 2.0))
  }

  /** The arch springs from 0 at both ends, peaks at 160 at mid-span, stays
      within [0, 160] over the span, and is symmetric about mid-span. */
  lemma ArchShape(t: real)
    ensures ArchY(0.0) == 0.0 && ArchY(1.0) == 0.0 && ArchY(0.5) == ArchHeight
    ensures 0.0 <= t <= 1.0 ==> 0.0 <= ArchY(t) <= ArchHeight
    ensures ArchY(t) == ArchY(1.0 - t)
    ensures ArchY(t) <= ArchHeight
  {
    if 0.0 <= t <= 1.0 {
      SquareAtMostOne((t - 0.5) * 2.0);
    }
    assert ((1.0 - t) - 0.5) * 2.0 == -((t - 0.5) * 2.0);
  }

  function ArchTop(i: int): Point
  {
    Point(ArchX(i), ArchY(ArchT(i)) + ArchThickness, Bz)
  }

  function ArchBottom(i: int): Point
  {
    Point(ArchX(i), ArchY(ArchT(i)), Bz)
  }

  /** What arch sample i adds once there is a previous sample: the top and
      bottom chords, a vertical on even samples and a cross-brace pair on
      inner samples (below numArchPoints = 50) divisible by three. */
  function ArchStep(i: int): seq<Segment>
  {
    if i <= 0 then []
    else
      [Segment(ArchTop(i - 1), ArchTop(i), Chord), Segment(ArchBottom(i - 1), ArchBottom(i), Chord)] +
      (if i % 2 == 0 then [Segment(ArchTop(i), ArchBottom(i), Truss)] else []) +
      (if i % 3 == 0 && i < 50 then [Segment(ArchTop(i - 1), ArchBottom(i), Diagonal), Segment(ArchBottom(i - 1), ArchTop(i), Diagonal)] else [])
  }

  /** Arch samples 0 .. n - 1. */
  function ArchLines(n: nat): seq<Segment>
  {
    if n == 0 then [] else ArchLines(n - 1) + ArchStep(n - 1)
  }

  /** The top chord runs 18 above the bottom chord, and each chord piece
      joins consecutive samples. */
  lemma ChordsParallel(i: int)
    requires i > 0
    ensures ArchTop(i).y == ArchBottom(i).y + ArchThickness && ArchTop(i).x == ArchBottom(i).x
    ensures ArchStep(i)[0].a == ArchTop(i - 1) && ArchStep(i)[0].b == ArchTop(i)
    ensures ArchStep(i)[1].a == ArchBottom(i - 1) && ArchStep(i)[1].b == ArchBottom(i)
  {
  }

  function ArchChords(n: nat): nat
  {
    if n == 0 then 0 else 2 * (n - 1)
  }

  function ArchVerticals(n: nat): nat
  {
    if n == 0 then 0 else (n - 1) / 2
  }

  function ArchDiagonals(n: nat): nat
  {
    if n == 0 then 0 else if n - 1 <= 49 then 2 * ((n - 1) / 3) else 2 * (49 / 3)
  }

  /** The pieces of hint h among the first n samples. */
  function ArchTally(n: nat, h: Hint): nat
  {
    (if h == Chord then ArchChords(n) else 0) + (if h == Truss then ArchVerticals(n) else 0) +
    (if h == Diagonal then ArchDiagonals(n) else 0)
  }

  /** The pieces of hint h that sample i adds. */
  function StepTally(i: nat, h: Hint): nat
  {
    (if h == Chord && i > 0 then 2 else 0) + (if h == Truss && i > 0 && i % 2 == 0 then 1 else 0) +
    (if h == Diagonal && i > 0 && i % 3 == 0 && i < 50 then 2 else 0)
  }

  lemma {:induction false} ArchLinesCount(n: nat, h: Hint)
    ensures Count(ArchLines(n), h) == ArchTally(n, h)
    ensures |ArchLines(n)| == ArchChords(n) + ArchVerticals(n) + ArchDiagonals(n)
  {
    if n > 0 {
      ArchLinesCount(n - 1, h);
      CountAppend(ArchLines(n - 1), ArchStep(n - 1), h);
      ArchStepCount(n - 1, h);
      ArchTallyStep(n - 1, h);
    }
  }

  lemma ArchStepCount(i: nat, h: Hint)
    ensures Count(ArchStep(i), h) == StepTally(i, h)
    ensures |ArchStep(i)| ==
      (if i > 0 then 2 else 0) + (if i > 0 && i % 2 == 0 then 1 else 0) + (if i > 0 && i % 3 == 0 && i < 50 then 2 else 0)
  {
    if i > 0 {
      var chords := [Segment(ArchTop(i - 1), ArchTop(i), Chord), Segment(ArchBottom(i - 1), ArchBottom(i), Chord)];
      var vertical := if i % 2 == 0 then [Segment(ArchTop(i), ArchBottom(i), Truss)] else [];
      var braces := if i % 3 == 0 && i < 50 then [Segment(ArchTop(i - 1), ArchBottom(i), Diagonal), Segment(ArchBottom(i - 1), ArchTop(i), Diagonal)] else [];
      CountUniform(chords, h);
      CountUniform(vertical, h);
      CountUniform(braces, h);
      CountAppend(chords, vertical, h);
      CountAppend(chords + vertical, braces, h);
    }
  }

  /** How the three tallies grow with sample i. */
  lemma ArchTallyStep(i: nat, h: Hint)
    ensures ArchChords(i + 1) == ArchChords(i) + (if i > 0 then 2 else 0)
    ensures ArchVerticals(i + 1) == ArchVerticals(i) + (if i > 0 && i % 2 == 0 then 1 else 0)
    ensures ArchDiagonals(i + 1) == ArchDiagonals(i) + (if i > 0 && i % 3 == 0 && i < 50 then 2 else 0)
    ensures ArchTally(i + 1, h) == ArchTally(i, h) + StepTally(i, h)
  {
  }

  /** The arch loop over i = 0 .. numArchPoints, the scene's constant 50
      (so `t` is i / 50 and braces stop below sample 50): `prevArchTop` and
      `prevArchBottom` hold the previous sample's chord points once there is
      one. The count is a parameter only so that the loop bound and the
      ensures stay symbolic rather than being unrolled 51 times; the requires
      pins it to NumArchPoints, so it is not a knob. */
  method AddArch(lines: seq<Segment>, numArchPoints: nat) returns (r: seq<Segment>)
    requires numArchPoints == NumArchPoints
    ensures r == lines + ArchLines(numArchPoints + 1)
  {
    r := lines;
    var prevTop: Option<Point> := None;
    var prevBottom: Option<Point> := None;
    for i := 0 to numArchPoints + 1
      invariant r == lines + ArchLines(i)
      invariant prevTop == (if i == 0 then None else Some(ArchTop(i - 1)))
      invariant prevBottom == (if i == 0 then None else Some(ArchBottom(i - 1)))
    {
      var t := i as real / 50.0;
      var x := Bx - BridgeLength / 2.0 + t * BridgeLength;
      var archY := ArchY(t);
      var topP := Point(x, archY + ArchThickness, Bz);
      var bottomP := Point(x, archY, Bz);
      assert topP == ArchTop(i) && bottomP == ArchBottom(i);
      if prevTop.Some? && prevBottom.Some? {
        r := AddArchStep(r, i, prevTop.value, prevBottom.value, topP, bottomP);
        AppendAssoc(lines, ArchLines(i), ArchStep(i));
      }
      assert ArchLines(i + 1) == ArchLines(i) + ArchStep(i);
      prevTop := Some(topP);
      prevBottom := Some(bottomP);
    }
  }

  /** The body of the arch loop for a sample with a predecessor. */
  method AddArchStep(lines: seq<Segment>, i: int, prevTop: Point, prevBottom: Point, topP: Point, bottomP: Point) returns (r: seq<Segment>)
    requires i > 0
    requires prevTop == ArchTop(i - 1) && prevBottom == ArchBottom(i - 1) && topP == ArchTop(i) && bottomP == ArchBottom(i)
    ensures r == lines + ArchStep(i)
  {
    r := lines + [Segment(prevTop, topP, Chord), Segment(prevBottom, bottomP, Chord)];
    if i % 2 == 0 {
      r := r + [Segment(topP, bottomP, Truss)];
    }
    if i % 3 == 0 && i > 0 && i < 50 {
      r := r + [Segment(prevTop, bottomP, Diagonal), Segment(prevBottom, topP, Diagonal)];
    }
  }

  /** The road deck's two edges at z -+ 12. */
  function HarbourDeck(): (r: seq<Segment>)
    ensures |r| == 2 && forall k :: 0 <= k < 2 ==> r[k].hint == Deck
  {
    [Segment(Point(Bx - BridgeLength / 2.0, HarbourDeckY, Bz - 12.0), Point(Bx + BridgeLength / 2.0, HarbourDeckY, Bz - 12.0), Deck),
     Segment(Point(Bx - BridgeLength / 2.0, HarbourDeckY, Bz + 12.0), Point(Bx + BridgeLength / 2.0, HarbourDeckY, Bz + 12.0), Deck)]
  }

  /** The suspender rule: the arch at sample i clears the deck by more than 15. */
  predicate Hangs(i: int)
  {
    ArchY(ArchT(i)) > HarbourDeckY + 15.0
  }

  /** At sample i the arch is 160 - 160 (i - 25)^2 / 625 high. */
  lemma ArchAtSample(i: int)
    ensures ArchY(ArchT(i)) == ArchHeight - ArchHeight * (((i - 25) as real) * ((i - 25) as real)) / 625.0
  {
    var d := (i - 25) as real;
    var e := d / 25.0;
    assert (ArchT(i) - 0.5) * 2.0 == e;
    assert e * e == (d * d) / 625.0;
  }

  /** The arch clears the deck by more than 15 exactly at samples 7 .. 43. */
  lemma HangsExactly(i: int)
    ensures Hangs(i) <==> 7 <= i <= 43
  {
    ArchAtSample(i);
    var di := i - 25;
    SquareWithin(di);
    var dd := (di as real) * (di as real);
    assert dd < 351.5625 <==> 7 <= i <= 43;
    assert ArchY(ArchT(i)) == 160.0 - 160.0 * dd / 625.0;
  }

  /** d^2 < 351.5625 exactly for whole numbers |d| <= 18. */
  lemma SquareWithin(d: int)
    ensures (d as real) * (d as real) < 351.5625 <==> -18 <= d <= 18
  {
    var a := if d < 0 then -d as real else d as real;
    assert (d as real) * (d as real) == a * a;
    if -18 <= d <= 18 {
      assert a <= 18.0;
      assert a * a <= 18.0 * a <= 18.0 * 18.0;
    } else {
      assert a >= 19.0;
      assert a * a >= 19.0 * a >= 19.0 * 19.0;
    }
  }

  /** Suspender candidate k is sample 3 + 2 k: from the arch down to the deck. */
  function HarbourSuspender(k: int): Segment
  {
    Segment(Point(ArchX(3 + 2 * k), ArchY(ArchT(3 + 2 * k)), Bz), Point(ArchX(3 + 2 * k), HarbourDeckY, Bz), Suspender)
  }

  /** The suspenders drawn among the first n candidates. */
  function HarbourSuspenders(n: nat): (r: seq<Segment>)
    ensures forall j :: 0 <= j < |r| ==> r[j].hint == Suspender
  {
    if n == 0 then []
    else HarbourSuspenders(n - 1) + (if Hangs(3 + 2 * (n - 1)) then [HarbourSuspender(n - 1)] else [])
  }

  /** Candidates 0 .. n - 1 (samples 3, 5, ...) that hang: samples 7 .. 43. */
  function HangingBelow(n: int): nat
  {
    if n <= 2 then 0 else if n >= 21 then 19 else n - 2
  }

  lemma {:induction false} HarbourSuspendersCount(n: nat)
    ensures |HarbourSuspenders(n)| == HangingBelow(n)
  {
    if n > 0 {
      HarbourSuspendersCount(n - 1);
      HangsExactly(3 + 2 * (n - 1));
    }
  }

  /** Each suspender hangs straight down from the arch to the road deck, and
      the arch is at least 15 above the deck there. */
  lemma SuspenderSpans(k: int)
    requires Hangs(3 + 2 * k)
    ensures HarbourSuspender(k).a.x == HarbourSuspender(k).b.x && HarbourSuspender(k).b.y == HarbourDeckY
    ensures HarbourSuspender(k).a.y > HarbourDeckY + 15.0
  {
  }

  /** The loop `for (i = 3; i < numArchPoints - 2; i += 2)`. */
  method AddSuspenders(lines: seq<Segment>) returns (r: seq<Segment>)
    ensures r == lines + HarbourSuspenders(SuspenderSlots)
  {
    r := lines;
    var i := 3;
    ghost var k := 0;
    while i < NumArchPoints - 2
      invariant i == 3 + 2 * k && 0 <= k <= SuspenderSlots
      invariant r == lines + HarbourSuspenders(k)
    {
      var t := i as real / 50.0;
      var x := Bx - BridgeLength / 2.0 + t * BridgeLength;
      var archY2 := ArchY(t);
      assert t == ArchT(i) && x == ArchX(i);
      assert HarbourSuspenders(k + 1) == HarbourSuspenders(k) + (if Hangs(i) then [HarbourSuspender(k)] else []);
      if archY2 > HarbourDeckY + 15.0 {
        var seg := Segment(Point(x, archY2, Bz), Point(x, HarbourDeckY, Bz), Suspender);
        assert seg == HarbourSuspender(k);
        AppendAssoc(lines, HarbourSuspenders(k), [seg]);
        r := r + [seg];
      }
      i := i + 2;
      k := k + 1;
    }
  }

  /** The pylons' footprint: 22 by 18 about (px, bz), 105 high. */
  function PylonBase(px: real): Building
  {
    Building(px, Bz, 22.0, 18.0, 105)
  }

  /** `bandY` and `bandScale` of pylon band `band`. */
  function BandY(band: int): real
  {
    (band as real / 3.0) * 105.0
  }

  function BandScale(band: int): real
  {
    1.0 - (band as real / 4.0) * (1.0 - 0.7)
  }

  /** Pylon bands 0 .. n - 1. */
  function PylonBands(px: real, n: nat): (r: seq<Segment>)
    ensures |r| == 4 * n && forall j :: 0 <= j < |r| ==> r[j].hint == Pylon
  {
    if n == 0 then [] else PylonBands(px, n - 1) + Outline(PylonBase(px), BandScale(n - 1), BandY(n - 1), Pylon)
  }

  /** A pylon: four posts tapering to 0.7 of the footprint at the top, then
      four horizontal bands. */
  function HarbourPylon(px: real): seq<Segment>
  {
    Uprights(PylonBase(px), 1.0, 0.7, 0.0, 105.0, Pylon) + PylonBands(px, 4)
  }

  /** The bands are spaced in height by thirds but shrink by quarters of the
      taper, so they part from the posts: the top band is at the posts' top
      height but at scale 0.775, not the posts' 0.7, and its corner misses
      the top of its post. */
  lemma BandsMissPosts(px: real)
    ensures BandY(3) == 105.0 && BandScale(3) == 0.775
    ensures Outline(PylonBase(px), BandScale(3), BandY(3), Pylon)[0].a != Uprights(PylonBase(px), 1.0, 0.7, 0.0, 105.0, Pylon)[0].b
    ensures forall band :: 0 <= band < 3 ==> BandScale(band + 1) < BandScale(band) && BandY(band) < BandY(band + 1)
  {
  }

  method AddPylon(lines: seq<Segment>, px: real) returns (r: seq<Segment>)
    ensures r == lines + HarbourPylon(px)
  {
    r := AddUprights(lines, PylonBase(px), 1.0, 0.7, 0.0, 105.0, Pylon);
    ghost var posts := r;
    for band := 0 to 4
      invariant r == posts + PylonBands(px, band)
    {
      r := AddOutline(r, PylonBase(px), BandScale(band), BandY(band), Pylon);
      AppendAssoc(posts, PylonBands(px, band), Outline(PylonBase(px), BandScale(band), BandY(band), Pylon));
    }
  }

  /** The arch, the road deck and the suspenders. */
  function HarbourSpan(): seq<Segment>
  {
    ArchLines(NumArchPoints + 1) + HarbourDeck() + HarbourSuspenders(SuspenderSlots)
  }

  function HarbourLines(): seq<Segment>
  {
    HarbourSpan() + HarbourPylon(PylonX1) + HarbourPylon(PylonX2)
  }

  /** `renderHarbourBridge`: 100 chord pieces, 25 verticals, 16 brace pairs,
      2 deck edges, 19 suspenders and two 20-line pylons: 218 lines. */
  method HarbourBridge() returns (lines: seq<Segment>)
    ensures lines == HarbourLines()
    ensures |lines| == 218
    ensures Count(lines, Chord) == 100 && Count(lines, Truss) == 25 && Count(lines, Diagonal) == 32
    ensures Count(lines, Deck) == 2 && Count(lines, Suspender) == 19 && Count(lines, Pylon) == 40
  {
    lines := AddArch([], NumArchPoints);
    assert lines == ArchLines(NumArchPoints + 1);
    lines := lines + HarbourDeck();
    lines := AddSuspenders(lines);
    lines := AddPylon(lines, PylonX1);
    lines := AddPylon(lines, PylonX2);
    HarbourCounts();
  }

  /** The tally of every hint the bridge uses. */
  lemma HarbourCounts()
    ensures |HarbourLines()| == 218
    ensures Count(HarbourLines(), Chord) == 100 && Count(HarbourLines(), Truss) == 25 && Count(HarbourLines(), Diagonal) == 32
    ensures Count(HarbourLines(), Deck) == 2 && Count(HarbourLines(), Suspender) == 19 && Count(HarbourLines(), Pylon) == 40
  {
    HarbourCount(Chord);
    HarbourCount(Truss);
    HarbourCount(Diagonal);
    HarbourCount(Deck);
    HarbourCount(Suspender);
    HarbourCount(Pylon);
  }

  lemma HarbourCount(h: Hint)
    ensures |HarbourLines()| == 218
    ensures Count(HarbourLines(), h) ==
      (if h == Chord then 100 else 0) + (if h == Truss then 25 else 0) + (if h == Diagonal then 32 else 0) +
      (if h == Deck then 2 else 0) + (if h == Suspender then 19 else 0) + (if h == Pylon then 40 else 0)
  {
    var arch, deck, hangers := ArchLines(NumArchPoints + 1), HarbourDeck(), HarbourSuspenders(SuspenderSlots);
    var p1, p2 := HarbourPylon(PylonX1), HarbourPylon(PylonX2);
    ArchCount(NumArchPoints + 1, h);
    HangersCount(h);
    PylonCount(PylonX1, h);
    PylonCount(PylonX2, h);
    CountUniformIs(deck, Deck, h);
    assert |deck| == 2;
    assert HarbourLines() == arch + deck + hangers + p1 + p2;
    CountFive(arch, deck, hangers, p1, p2, h);
  }

  /** Counting over five consecutive blocks. */
  lemma CountFive(a: seq<Segment>, b: seq<Segment>, c: seq<Segment>, d: seq<Segment>, e: seq<Segment>, h: Hint)
    ensures |a + b + c + d + e| == |a| + |b| + |c| + |d| + |e|
    ensures Count(a + b + c + d + e, h) == Count(a, h) + Count(b, h) + Count(c, h) + Count(d, h) + Count(e, h)
  {
    CountAppend(a, b, h);
    CountAppend(a + b, c, h);
    CountAppend(a + b + c, d, h);
    CountAppend(a + b + c + d, e, h);
  }

  /** The arch of the 51 samples 0 .. 50. */
  lemma ArchCount(n: nat, h: Hint)
    requires n == NumArchPoints + 1
    ensures |ArchLines(n)| == 157
    ensures Count(ArchLines(n), h) == (if h == Chord then 100 else 0) + (if h == Truss then 25 else 0) + (if h == Diagonal then 32 else 0)
  {
    ArchLinesCount(n, h);
    assert ArchChords(n) == 100 && ArchVerticals(n) == 25 && ArchDiagonals(n) == 32;
  }

  lemma HangersCount(h: Hint)
    ensures |HarbourSuspenders(SuspenderSlots)| == 19
    ensures Count(HarbourSuspenders(SuspenderSlots), h) == if h == Suspender then 19 else 0
  {
    HarbourSuspendersCount(SuspenderSlots);
    CountUniform(HarbourSuspenders(SuspenderSlots), h);
  }

  lemma PylonCount(px: real, h: Hint)
    ensures |HarbourPylon(px)| == 20
    ensures Count(HarbourPylon(px), h) == if h == Pylon then 20 else 0
  {
    CountUniform(HarbourPylon(px), h);
  }
}
