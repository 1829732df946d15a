/** Tokyo Tower (`b.tokyoTower`): an orange lattice of 51 square rings whose
    half-width narrows with height, joined by main legs and, below the main
    observation deck, cross bracing on every face; then the two observation
    decks and the antenna with its crossbars. The half-widths are absolute
    (they do not depend on the building's own width). */
module Lattice {
  import opened Geometry

  /** `numSections`: the lattice has sections 0 .. 50, so 51 rings. */
  const Sections: nat := 50

  /** t = s / 50, the height fraction of ring s. */
  function LatticeT(s: int): real
  {
    s as real / 50.0
  }

  /** Height t * h of ring s. */
  function LatticeY(b: Building, s: int): real
  {
    LatticeT(s) * b.H()
  }

  /** `sectionW` (and `nextW`, computed by the same rule one ring up): the
      half-width 50 (1 - 0.7 t) below the main deck, 50 * 0.15 up to the
      special deck, 50 * 0.08 above it. */
  function LatticeWidth(t: real): (w: real)
    ensures 0.0 <= t <= 1.0 ==> 4.0 <= w <= 50.0
  {
    if t < 0.6 then 50.0 * (1.0 - t * 0.7)
    else if t < 0.85 then 50.0 * 0.15
    else 50.0 * 0.08
  }

  /** The half-width never grows with height, shrinks strictly below the main
      deck, and steps from 29 down to 7.5 at the deck and from 7.5 to 4 at the
      special deck. */
  lemma LatticeWidthFalls(t1: real, t2: real)
    requires t1 <= t2
    ensures LatticeWidth(t2) <= LatticeWidth(t1)
    ensures t1 < t2 < 0.6 ==> LatticeWidth(t2) < LatticeWidth(t1)
    ensures LatticeWidth(0.0) == 50.0 && LatticeWidth(0.6) == 7.5 && LatticeWidth(0.85) == 4.0
    ensures t1 < 0.6 ==> LatticeWidth(t1) > 29.0
  {
  }

  /** Half-width of ring s. */
  function RingWidth(s: int): real
  {
    LatticeWidth(LatticeT(s))
  }

  /** The sign of corner i (taken mod 4) along x and along z, in the order the
      scene lists the corners: (-,-), (+,-), (+,+), (-,+). */
  function SignX(i: int): real
  {
    if i % 4 == 0 || i % 4 == 3 then -1.0 else 1.0
  }

  function SignZ(i: int): real
  {
    if i % 4 < 2 then -1.0 else 1.0
  }

  /** The point (x + sx * w, y, z + sz * w) of a square of half-width w. */
  function SquarePoint(b: Building, sx: real, sz: real, w: real, y: real): Point
  {
    Point(b.x + sx * w, y, b.z + sz * w)
  }

  /** Corner i of ring s. */
  function RingCorner(b: Building, s: int, i: int): Point
  {
    SquarePoint(b, SignX(i), SignZ(i), RingWidth(s), LatticeY(b, s))
  }

  /** Ring s, side i: corner i to corner (i + 1) % 4. */
  function RingSide(b: Building, s: int, i: int): Segment
  {
    Segment(RingCorner(b, s, i), RingCorner(b, s, i + 1), Ring)
  }

  /** Main leg i of section s: corner i of ring s to corner i of ring s + 1. */
  function MainLeg(b: Building, s: int, i: int): Segment
  {
    Segment(RingCorner(b, s, i), RingCorner(b, s + 1, i), Main)
  }

  /** Which corner signs a brace joins: (x1, z1) on ring s to (x2, z2) on
      ring s + 1. */
  datatype BraceEnds = BraceEnds(x1: real, z1: real, x2: real, z2: real)

  /** The eight braces in the order they are pushed: the two of the front face
      (face 0), the two of the back face (face 2), then the two of the left and
      the two of the right face. */
  function BraceSigns(k: int): BraceEnds
  {
    if k == 0 then BraceEnds(-1.0, -1.0, 1.0, -1.0)
    else if k == 1 then BraceEnds(1.0, -1.0, -1.0, -1.0)
    else if k == 2 then BraceEnds(1.0, 1.0, -1.0, 1.0)
    else if k == 3 then BraceEnds(-1.0, 1.0, 1.0, 1.0)
    else if k == 4 then BraceEnds(-1.0, -1.0, -1.0, 1.0)
    else if k == 5 then BraceEnds(-1.0, 1.0, -1.0, -1.0)
    else if k == 6 then BraceEnds(1.0, -1.0, 1.0, 1.0)
    else BraceEnds(1.0, 1.0, 1.0, -1.0)
  }

  /** Brace k of section s. */
  function LatticeBrace(b: Building, s: int, k: int): Segment
  {
    var e := BraceSigns(k);
    Segment(SquarePoint(b, e.x1, e.z1, RingWidth(s), LatticeY(b, s)),
            SquarePoint(b, e.x2, e.z2, RingWidth(s + 1), LatticeY(b, s + 1)), Brace)
  }

  /** The braces form an X on each of the four faces: braces 2m and 2m + 1
      stay on one face (front z-, back z+, left x-, right x+), each crosses it
      diagonally, and the second starts below where the first ends. */
  lemma BracesCrossFaces(m: int)
    requires 0 <= m < 4
    ensures var e := BraceSigns(2 * m); var f := BraceSigns(2 * m + 1);
      f == BraceEnds(e.x2, e.z2, e.x1, e.z1) &&
      (if m < 2 then e.z1 == e.z2 == (if m == 0 then -1.0 else 1.0) && e.x1 == -e.x2
       else e.x1 == e.x2 == (if m == 2 then -1.0 else 1.0) && e.z1 == -e.z2)
  {
  }

  function RingSides(b: Building, s: int, m: nat): (r: seq<Segment>)
    ensures |r| == m && forall i :: 0 <= i < m ==> r[i] == RingSide(b, s, i)
  {
    seq(m, i requires 0 <= i < m => RingSide(b, s, i))
  }

  function MainLegs(b: Building, s: int, m: nat): (r: seq<Segment>)
    ensures |r| == m && forall i :: 0 <= i < m ==> r[i] == MainLeg(b, s, i)
  {
    seq(m, i requires 0 <= i < m => MainLeg(b, s, i))
  }

  function Braces(b: Building, s: int, m: nat): (r: seq<Segment>)
    ensures |r| == m && forall k :: 0 <= k < m ==> r[k] == LatticeBrace(b, s, k)
  {
    seq(m, k requires 0 <= k < m => LatticeBrace(b, s, k))
  }

  /** Section s: its ring; below the top ring its four legs; below the main
      deck (t < 0.6) its eight braces. */
  function LatticeSection(b: Building, s: int): seq<Segment>
  {
    RingSides(b, s, 4) +
    (if s < Sections then MainLegs(b, s, 4) + (if LatticeT(s) < 0.6 then Braces(b, s, 8) else []) else [])
  }

  /** Sections 0 .. n - 1 in drawing order. */
  function LatticeSections(b: Building, n: nat): seq<Segment>
  {
    if n == 0 then [] else LatticeSections(b, n - 1) + LatticeSection(b, n - 1)
  }

  /** Legs end where the next ring's corners are: the lattice has no gaps. */
  lemma LatticeContiguous(b: Building, s: int, i: int)
    ensures MainLeg(b, s, i).a == RingSide(b, s, i).a
    ensures MainLeg(b, s, i).b == RingSide(b, s + 1, i).a
    ensures RingSide(b, s, i).b == RingSide(b, s, i + 1).a
    ensures RingSide(b, s, 3).b == RingSide(b, s, 0).a
    ensures RingSide(b, s, i).a.y == RingSide(b, s, i).b.y == LatticeY(b, s)
  {
  }

  /** The horizontal ring of section s. */
  method AddRing(lines: seq<Segment>, b: Building, s: int) returns (r: seq<Segment>)
    ensures r == lines + RingSides(b, s, 4)
  {
    r := lines;
    for i := 0 to 4
      invariant r == lines + RingSides(b, s, i)
    {
      assert RingSides(b, s, i + 1) == RingSides(b, s, i) + [RingSide(b, s, i)];
      r := r + [RingSide(b, s, i)];
    }
  }

  /** The main legs of section s. */
  method AddLegs(lines: seq<Segment>, b: Building, s: int) returns (r: seq<Segment>)
    ensures r == lines + MainLegs(b, s, 4)
  {
    r := lines;
    for i := 0 to 4
      invariant r == lines + MainLegs(b, s, i)
    {
      assert MainLegs(b, s, i + 1) == MainLegs(b, s, i) + [MainLeg(b, s, i)];
      r := r + [MainLeg(b, s, i)];
    }
  }

  /** The cross bracing of section s: the `face` loop pushes two braces on
      faces 0 and 2, then the four side-face braces follow. */
  method AddBraces(lines: seq<Segment>, b: Building, s: int) returns (r: seq<Segment>)
    ensures r == lines + Braces(b, s, 8)
  {
    r := lines;
    for face := 0 to 4
      invariant r == lines + Braces(b, s, if face == 0 then 0 else if face <= 2 then 2 else 4)
    {
      if face == 0 || face == 2 {
        assert Braces(b, s, face + 2) == Braces(b, s, face) + [LatticeBrace(b, s, face), LatticeBrace(b, s, face + 1)];
        r := r + [LatticeBrace(b, s, face), LatticeBrace(b, s, face + 1)];
      }
    }
    assert Braces(b, s, 8) == Braces(b, s, 4) + [LatticeBrace(b, s, 4), LatticeBrace(b, s, 5), LatticeBrace(b, s, 6), LatticeBrace(b, s, 7)];
    r := r + [LatticeBrace(b, s, 4), LatticeBrace(b, s, 5), LatticeBrace(b, s, 6), LatticeBrace(b, s, 7)];
  }

  /** One pass of the section loop. */
  method AddSection(lines: seq<Segment>, b: Building, s: int) returns (r: seq<Segment>)
    ensures r == lines + LatticeSection(b, s)
  {
    r := AddRing(lines, b, s);
    if s < Sections {
      r := AddLegs(r, b, s);
      if LatticeT(s) < 0.6 {
        r := AddBraces(r, b, s);
      }
    }
  }

  /** The loop `for (s = 0; s <= numSections; s++)`. */
  method AddLattice(lines: seq<Segment>, b: Building) returns (r: seq<Segment>)
    ensures r == lines + LatticeSections(b, Sections + 1)
  {
    r := lines;
    for s := 0 to Sections + 1
      invariant r == lines + LatticeSections(b, s)
    {
      r := AddSection(r, b, s);
      AppendAssoc(lines, LatticeSections(b, s), LatticeSection(b, s));
    }
  }

  /** Braces stop exactly at section 30 (t = 0.6). */
  lemma BracedBelow(s: int)
    ensures LatticeT(s) < 0.6 <==> s < 30
  {
  }

  lemma LatticeSectionCount(b: Building, s: nat, h: Hint)
    ensures |LatticeSection(b, s)| == 4 + (if s < Sections then 4 else 0) + (if s < 30 then 8 else 0)
    ensures Count(LatticeSection(b, s), h) ==
      (if h == Ring then 4 else 0) + (if h == Main && s < Sections then 4 else 0) + (if h == Brace && s < 30 then 8 else 0)
  {
    BracedBelow(s);
    var ring := RingSides(b, s, 4);
    CountUniformIs(ring, Ring, h);
    if s < Sections {
      var legs := MainLegs(b, s, 4);
      CountUniformIs(legs, Main, h);
      if s < 30 {
        var braces := Braces(b, s, 8);
        CountUniformIs(braces, Brace, h);
        CountAppend(legs, braces, h);
        CountAppend(ring, legs + braces, h);
        assert LatticeSection(b, s) == ring + (legs + braces);
      } else {
        CountAppend(ring, legs, h);
        assert LatticeSection(b, s) == ring + legs;
      }
    } else {
      assert LatticeSection(b, s) == ring;
    }
  }

  /** Section counts add up: 4 ring sides for every ring, 4 legs for each of
      the first 50 sections, 8 braces for each of the first 30. */
  lemma {:induction false} LatticeSectionsCount(b: Building, n: nat, h: Hint)
    ensures Count(LatticeSections(b, n), h) ==
      (if h == Ring then 4 * n else 0) + (if h == Main then 4 * Capped(n, Sections) else 0) +
      (if h == Brace then 8 * Capped(n, 30) else 0)
  {
    if n > 0 {
      var s := n - 1;
      var below := LatticeSections(b, s);
      var top := LatticeSection(b, s);
      assert LatticeSections(b, n) == below + top;
      LatticeSectionsCount(b, s, h);
      LatticeSectionCount(b, s, h);
      CountAppend(below, top, h);
      CappedStep(s, Sections);
      CappedStep(s, 30);
      SectionArithmetic(Count(below, h), Count(top, h), s, Capped(s, Sections), Capped(s, 30),
        Capped(s + 1, Sections), Capped(s + 1, 30), h == Ring, h == Main, h == Brace);
    }
  }

  lemma {:induction false} LatticeSectionsSize(b: Building, n: nat)
    ensures |LatticeSections(b, n)| == 4 * n + 4 * Capped(n, Sections) + 8 * Capped(n, 30)
  {
    if n > 0 {
      var s := n - 1;
      LatticeSectionsSize(b, s);
      LatticeSectionCount(b, s, Ring);
      CappedStep(s, Sections);
      CappedStep(s, 30);
    }
  }

  /** The tally of one more section, with the counts kept abstract. */
  lemma SectionArithmetic(below: int, top: int, s: int, legs0: int, braced0: int, legs: int, braced: int,
                          isRing: bool, isMain: bool, isBrace: bool)
    requires below == (if isRing then 4 * s else 0) + (if isMain then 4 * legs0 else 0) + (if isBrace then 8 * braced0 else 0)
    requires top == (if isRing then 4 else 0) + (if isMain && s < Sections then 4 else 0) + (if isBrace && s < 30 then 8 else 0)
    requires legs == legs0 + (if s < Sections then 1 else 0) && braced == braced0 + (if s < 30 then 1 else 0)
    ensures below + top == (if isRing then 4 * (s + 1) else 0) + (if isMain then 4 * legs else 0) + (if isBrace then 8 * braced else 0)
  {
  }

  /** Main deck ring r (0, 1, 2): at 0.6 h - 5 + 5 r, radius 15 (1 + 0.1 r). */
  function DeckRingY(b: Building, ring: int): real
  {
    b.H() * 0.6 - 5.0 + ring as real * 5.0
  }

  function DeckRingW(ring: int): real
  {
    50.0 * 0.3 * (1.0 + ring as real * 0.1)
  }

  /** The main deck rings widen as they rise: 15, 16.5, 18, five apart. */
  lemma DeckRingsWiden(b: Building, ring: int)
    ensures DeckRingW(ring + 1) > DeckRingW(ring)
    ensures DeckRingY(b, ring + 1) == DeckRingY(b, ring) + 5.0
    ensures DeckRingW(0) == 15.0 && DeckRingW(2) == 18.0
  {
  }

  /** Support i of the main deck, from radius 15 at 0.6 h - 5 to radius 18
      at 0.6 h + 5. */
  function DeckSupport(b: Building, tr: Trig, i: int): Segment
  {
    var angle := Angle(tr, i, 8, 0.0);
    Segment(Polar(b, tr, angle, 50.0 * 0.3, 50.0 * 0.3, b.H() * 0.6 - 5.0),
            Polar(b, tr, angle, 50.0 * 0.3 * 1.2, 50.0 * 0.3 * 1.2, b.H() * 0.6 + 5.0), Deck)
  }

  /** Every support stands on the lowest deck ring's circle and reaches the
      highest deck ring's circle. */
  lemma SupportsJoinRings(b: Building, tr: Trig, i: int)
    ensures DeckSupport(b, tr, i).a == Polar(b, tr, Angle(tr, i, 8, 0.0), DeckRingW(0), DeckRingW(0), DeckRingY(b, 0))
    ensures DeckSupport(b, tr, i).b == Polar(b, tr, Angle(tr, i, 8, 0.0), DeckRingW(2), DeckRingW(2), DeckRingY(b, 2))
  {
  }

  function DeckSupports(b: Building, tr: Trig, m: nat): (r: seq<Segment>)
    ensures |r| == m && forall i :: 0 <= i < m ==> r[i] == DeckSupport(b, tr, i)
  {
    seq(m, i requires 0 <= i < m => DeckSupport(b, tr, i))
  }

  /** Special deck ring r (0, 1): ten sides of radius 7.5 at 0.85 h + 4 r. */
  function SpecialRingY(b: Building, ring: int): real
  {
    b.H() * 0.85 + ring as real * 4.0
  }

  function MainDeckRing(b: Building, tr: Trig, ring: int): seq<Segment>
  {
    Polygon(b, tr, 12, 0.0, DeckRingW(ring), DeckRingW(ring), DeckRingY(b, ring), Deck)
  }

  function SpecialDeckRing(b: Building, tr: Trig, ring: int): seq<Segment>
  {
    Polygon(b, tr, 10, 0.0, 50.0 * 0.15, 50.0 * 0.15, SpecialRingY(b, ring), Deck)
  }

  /** Main deck rings 0 .. n - 1. */
  function MainDeckRings(b: Building, tr: Trig, n: nat): (r: seq<Segment>)
    ensures |r| == 12 * n && forall k :: 0 <= k < |r| ==> r[k].hint == Deck
  {
    if n == 0 then [] else MainDeckRings(b, tr, n - 1) + MainDeckRing(b, tr, n - 1)
  }

  /** Special deck rings 0 .. n - 1. */
  function SpecialDeckRings(b: Building, tr: Trig, n: nat): (r: seq<Segment>)
    ensures |r| == 10 * n && forall k :: 0 <= k < |r| ==> r[k].hint == Deck
  {
    if n == 0 then [] else SpecialDeckRings(b, tr, n - 1) + SpecialDeckRing(b, tr, n - 1)
  }

  /** Both observation decks: three 12-sided rings, eight supports, two
      10-sided rings. */
  function Decks(b: Building, tr: Trig): seq<Segment>
  {
    MainDeckRings(b, tr, 3) + DeckSupports(b, tr, 8) + SpecialDeckRings(b, tr, 2)
  }

  /** The special deck is as wide as the lattice just below it (the band
      0.6 <= t < 0.85, where the lattice is 7.5 wide), and sits above the main
      deck. */
  lemma SpecialDeckFitsLattice(b: Building)
    ensures 50.0 * 0.15 == LatticeWidth(0.85 - 0.1)
    ensures b.h > 20 ==> DeckRingY(b, 2) < SpecialRingY(b, 0)
  {
  }

  method AddSupports(lines: seq<Segment>, b: Building, tr: Trig) returns (r: seq<Segment>)
    ensures r == lines + DeckSupports(b, tr, 8)
  {
    r := lines;
    for i := 0 to 8
      invariant r == lines + DeckSupports(b, tr, i)
    {
      assert DeckSupports(b, tr, i + 1) == DeckSupports(b, tr, i) + [DeckSupport(b, tr, i)];
      r := r + [DeckSupport(b, tr, i)];
    }
  }

  method AddMainDeckRing(lines: seq<Segment>, b: Building, tr: Trig, ring: int) returns (r: seq<Segment>)
    ensures r == lines + MainDeckRing(b, tr, ring)
  {
    r := AddPolygon(lines, b, tr, 12, 0.0, DeckRingW(ring), DeckRingW(ring), DeckRingY(b, ring), Deck);
  }

  method AddSpecialDeckRing(lines: seq<Segment>, b: Building, tr: Trig, ring: int) returns (r: seq<Segment>)
    ensures r == lines + SpecialDeckRing(b, tr, ring)
  {
    r := AddPolygon(lines, b, tr, 10, 0.0, 50.0 * 0.15, 50.0 * 0.15, SpecialRingY(b, ring), Deck);
  }

  /** The `ring` loops and the support loop of the two decks. */
  method AddDecks(lines: seq<Segment>, b: Building, tr: Trig) returns (r: seq<Segment>)
    ensures r == lines + Decks(b, tr)
  {
    r := lines;
    for ring := 0 to 3
      invariant r == lines + MainDeckRings(b, tr, ring)
    {
      r := AddMainDeckRing(r, b, tr, ring);
      AppendAssoc(lines, MainDeckRings(b, tr, ring), MainDeckRing(b, tr, ring));
    }
    r := AddSupports(r, b, tr);
    ghost var middle := r;
    for ring := 0 to 2
      invariant r == middle + SpecialDeckRings(b, tr, ring)
    {
      r := AddSpecialDeckRing(r, b, tr, ring);
      AppendAssoc(middle, SpecialDeckRings(b, tr, ring), SpecialDeckRing(b, tr, ring));
    }
    ghost var main, supports, special := MainDeckRings(b, tr, 3), DeckSupports(b, tr, 8), SpecialDeckRings(b, tr, 2);
    AppendAssoc(lines, main, supports);
    AppendAssoc(lines, main + supports, special);
  }

  /** Antenna crossbar ab: level, centred on the axis, half-width 3 - 0.5 ab
      at h + 5 + 12 ab. */
  function Crossbar(b: Building, ab: int): Segment
  {
    var y := b.H() + 5.0 + ab as real * 12.0;
    var w := 3.0 - ab as real * 0.5;
    Segment(Point(b.x - w, y, b.z), Point(b.x + w, y, b.z), Antenna)
  }

  /** The mast in two pieces (h to h + 20 to h + 40), then three crossbars. */
  function TokyoAntenna(b: Building): (r: seq<Segment>)
    ensures |r| == 5 && forall k :: 0 <= k < 5 ==> r[k].hint == Antenna
  {
    [Segment(Axis(b, b.H()), Axis(b, b.H() + 20.0), Antenna),
     Segment(Axis(b, b.H() + 20.0), Axis(b, b.H() + 40.0), Antenna),
     Crossbar(b, 0), Crossbar(b, 1), Crossbar(b, 2)]
  }

  /** The crossbars are level, centred on the mast, narrower as they rise,
      and all strictly between the roof and the antenna top. */
  lemma CrossbarsOnMast(b: Building, ab: int)
    requires 0 <= ab < 3
    ensures Crossbar(b, ab).a.y == Crossbar(b, ab).b.y
    ensures (Crossbar(b, ab).a.x + Crossbar(b, ab).b.x) / 2.0 == b.x && Crossbar(b, ab).a.z == Crossbar(b, ab).b.z == b.z
    ensures b.H() < Crossbar(b, ab).a.y < b.H() + 40.0
    ensures ab < 2 ==> Crossbar(b, ab + 1).b.x - Crossbar(b, ab + 1).a.x < Crossbar(b, ab).b.x - Crossbar(b, ab).a.x
  {
  }

  method AddAntenna(lines: seq<Segment>, b: Building) returns (r: seq<Segment>)
    ensures r == lines + TokyoAntenna(b)
  {
    r := lines + [Segment(Axis(b, b.H()), Axis(b, b.H() + 20.0), Antenna),
                  Segment(Axis(b, b.H() + 20.0), Axis(b, b.H() + 40.0), Antenna)];
    ghost var mast := r;
    for ab := 0 to 3
      invariant r == mast + TokyoAntenna(b)[2..2 + ab]
    {
      assert TokyoAntenna(b)[2..3 + ab] == TokyoAntenna(b)[2..2 + ab] + [Crossbar(b, ab)];
      r := r + [Crossbar(b, ab)];
    }
    assert TokyoAntenna(b) == TokyoAntenna(b)[..2] + TokyoAntenna(b)[2..5];
  }

  /** Tokyo Tower: 204 ring sides, 200 legs, 240 braces, 64 deck lines and
      5 antenna lines, 713 in all. */
  method TokyoTower(b: Building, tr: Trig) returns (lines: seq<Segment>)
    ensures lines == LatticeSections(b, Sections + 1) + Decks(b, tr) + TokyoAntenna(b)
    ensures |lines| == 713
    ensures Count(lines, Ring) == 204 && Count(lines, Main) == 200 && Count(lines, Brace) == 240
    ensures Count(lines, Deck) == 64 && Count(lines, Antenna) == 5
  {
    lines := AddLattice([], b);
    lines := AddDecks(lines, b, tr);
    lines := AddAntenna(lines, b);
    TokyoTowerCount(b, tr, Ring);
    TokyoTowerCount(b, tr, Main);
    TokyoTowerCount(b, tr, Brace);
    TokyoTowerCount(b, tr, Deck);
    TokyoTowerCount(b, tr, Antenna);
  }

  lemma DecksCount(b: Building, tr: Trig, h: Hint)
    ensures |Decks(b, tr)| == 64
    ensures Count(Decks(b, tr), h) == if h == Deck then 64 else 0
  {
    var main, sp, special := MainDeckRings(b, tr, 3), DeckSupports(b, tr, 8), SpecialDeckRings(b, tr, 2);
    CountUniform(main, h);
    CountUniform(sp, h);
    CountUniform(special, h);
    CountAppend(main, sp, h);
    CountAppend(main + sp, special, h);
  }

  lemma TokyoTowerCount(b: Building, tr: Trig, h: Hint)
    ensures |LatticeSections(b, Sections + 1) + Decks(b, tr) + TokyoAntenna(b)| == 713
    ensures Count(LatticeSections(b, Sections + 1) + Decks(b, tr) + TokyoAntenna(b), h) ==
      (if h == Ring then 204 else 0) + (if h == Main then 200 else 0) + (if h == Brace then 240 else 0) +
      (if h == Deck then 64 else 0) + (if h == Antenna then 5 else 0)
  {
    var lat := LatticeSections(b, Sections + 1);
    LatticeSectionsCount(b, Sections + 1, h);
    LatticeSectionsSize(b, Sections + 1);
    DecksCount(b, tr, h);
    CountUniform(TokyoAntenna(b), h);
    CountAppend(lat, Decks(b, tr), h);
    CountAppend(lat + Decks(b, tr), TokyoAntenna(b), h);
  }
}
