/** Towers built of a straight shaft topped by a crown, deck or statue:
    Central Plaza (HongKong.jsx), Sydney Tower and Chifley Tower (Sydney.jsx),
    City Hall (Philadelphia.jsx) and Marina City's corncob towers
    (chicago.jsx). Math.sin and Math.cos enter through the `Trig` parameter. */
module Crowned {
  import opened Geometry
  import opened Tapered

  // ---------------------------------------------------------------- Central Plaza

  /** The triangular plan: the back apex (x, z - d/2) and the front corners
      (x +- w/2, z + 0.7 d/2), corner i taken mod 3. */
  function PlazaCorner(b: Building, i: int, y: real): Point
  {
    if i % 3 == 0 then Point(b.x, y, b.z - b.HalfD())
    else if i % 3 == 1 then Point(b.x + b.HalfW(), y, b.z + b.HalfD() * 0.7)
    else Point(b.x - b.HalfW(), y, b.z + b.HalfD() * 0.7)
  }

  /** The shaft: the three corners from the ground to the crown base 0.85 h. */
  function PlazaShaft(b: Building): (r: seq<Segment>)
    ensures |r| == 3 && forall i :: 0 <= i < 3 ==> r[i] == Segment(PlazaCorner(b, i, 0.0), PlazaCorner(b, i, b.H() * 0.85), Plain)
  {
    seq(3, i requires 0 <= i < 3 => Segment(PlazaCorner(b, i, 0.0), PlazaCorner(b, i, b.H() * 0.85), Plain))
  }

  /** `y` of floor f: (f / 18) * h * 0.85. */
  function PlazaFloorY(b: Building, f: int): real
  {
    (f as real / 18.0) * b.H() * 0.85
  }

  /** The triangle of floor f: corner i to corner (i + 1) % 3. */
  function PlazaFloor(b: Building, f: int): (r: seq<Segment>)
    ensures |r| == 3 && forall i :: 0 <= i < 3 ==>
      r[i] == Segment(PlazaCorner(b, i, PlazaFloorY(b, f)), PlazaCorner(b, i + 1, PlazaFloorY(b, f)), Floor)
  {
    seq(3, i requires 0 <= i < 3 => Segment(PlazaCorner(b, i, PlazaFloorY(b, f)), PlazaCorner(b, i + 1, PlazaFloorY(b, f)), Floor))
  }

  function PlazaFloors(b: Building, n: nat): (r: seq<Segment>)
    ensures |r| == 3 * n && forall k :: 0 <= k < |r| ==> r[k].hint == Floor
  {
    if n == 0 then [] else PlazaFloors(b, n - 1) + PlazaFloor(b, n - 1)
  }

  /** The neon pyramid: each corner at the crown base to the roof centre. */
  function PlazaCrown(b: Building): (r: seq<Segment>)
    ensures |r| == 3 && forall i :: 0 <= i < 3 ==> r[i] == Segment(PlazaCorner(b, i, b.H() * 0.85), Axis(b, b.H()), NeonCrown)
  {
    seq(3, i requires 0 <= i < 3 => Segment(PlazaCorner(b, i, b.H() * 0.85), Axis(b, b.H()), NeonCrown))
  }

  function PlazaAntenna(b: Building): Segment
  {
    Segment(Axis(b, b.H()), Axis(b, b.H() + 25.0), Thin)
  }

  /** Each floor triangle closes, lies below the crown base, the pyramid
      starts on top of the shaft, and its three edges meet at the foot of the
      antenna. */
  lemma PlazaShape(b: Building, f: int, i: int)
    requires 0 <= i < 3
    ensures PlazaFloor(b, f)[2].b == PlazaFloor(b, f)[0].a
    ensures b.h > 0 && 0 <= f < 18 ==> 0.0 <= PlazaFloorY(b, f) < b.H() * 0.85
    ensures PlazaCrown(b)[i].a == PlazaShaft(b)[i].b && PlazaCrown(b)[i].b == PlazaAntenna(b).a
  {
    if b.h > 0 && 0 <= f < 18 {
      assert 0.0 <= f as real / 18.0 < 1.0 && b.H() > 0.0;
      MulBelow(f as real / 18.0, b.H());
    }
  }

  method AddPlazaFloors(lines: seq<Segment>, b: Building) returns (r: seq<Segment>)
    ensures r == lines + PlazaFloors(b, 18)
  {
    r := lines;
    for f := 0 to 18
      invariant r == lines + PlazaFloors(b, f)
    {
      r := AddAll(r, PlazaFloor(b, f));
    }
  }

  /** Central Plaza (`b.centralPlaza`): 3 shaft edges, 18 floor triangles, the
      3-edge neon pyramid and the antenna: 61 lines. */
  method CentralPlaza(b: Building) returns (lines: seq<Segment>)
    ensures lines == PlazaShaft(b) + PlazaFloors(b, 18) + PlazaCrown(b) + [PlazaAntenna(b)]
    ensures |lines| == 61
    ensures Count(lines, Plain) == 3 && Count(lines, Floor) == 54 && Count(lines, NeonCrown) == 3 && Count(lines, Thin) == 1
  {
    lines := AddAll([], PlazaShaft(b));
    lines := AddPlazaFloors(lines, b);
    lines := AddAll(lines, PlazaCrown(b));
    lines := lines + [PlazaAntenna(b)];
    PlazaCount(b, Plain);
    PlazaCount(b, Floor);
    PlazaCount(b, NeonCrown);
    PlazaCount(b, Thin);
  }

  lemma PlazaCount(b: Building, h: Hint)
    ensures Count(PlazaShaft(b) + PlazaFloors(b, 18) + PlazaCrown(b) + [PlazaAntenna(b)], h) ==
      (if h == Plain then 3 else 0) + (if h == Floor then 54 else 0) + (if h == NeonCrown then 3 else 0) + (if h == Thin then 1 else 0)
  {
    var shaft, floors, crown, ant := PlazaShaft(b), PlazaFloors(b, 18), PlazaCrown(b), [PlazaAntenna(b)];
    CountUniformIs(shaft, Plain, h);
    CountUniformIs(floors, Floor, h);
    CountUniformIs(crown, NeonCrown, h);
    CountUniformIs(ant, Thin, h);
    CountAppend(shaft, floors, h);
    CountAppend(shaft + floors, crown, h);
    CountAppend(shaft + floors + crown, ant, h);
  }

  // ---------------------------------------------------------------- City Hall

  /** Heights of the parts: the base to 0.45 h, the tower to 0.85 h, the dome
      to 0.95 h, William Penn to h + 18. */
  lemma CityHallRises(b: Building)
    requires b.h > 0
    ensures 0.0 < b.H() * 0.45 < b.H() * 0.85 < b.H() * 0.95 < b.H() + 18.0
  {
  }

  /** Rib i of the dome: from radius 0.21 w/2 at 0.85 h in to a fifth of that
      at 0.95 h. */
  function DomeRib(b: Building, tr: Trig, i: int): Segment
  {
    var r := b.HalfW() * 0.3 * 0.7;
    Segment(Polar(b, tr, Angle(tr, i, 8, 0.0), r, r, b.H() * 0.85),
            Polar(b, tr, Angle(tr, i, 8, 0.0), r * 0.2, r * 0.2, b.H() * 0.95), Plain)
  }

  function DomeRibs(b: Building, tr: Trig): (r: seq<Segment>)
    ensures |r| == 8 && forall i :: 0 <= i < 8 ==> r[i] == DomeRib(b, tr, i)
  {
    seq(8, i requires 0 <= i < 8 => DomeRib(b, tr, i))
  }

  function Statue(b: Building): Segment
  {
    Segment(Axis(b, b.H() * 0.95), Axis(b, b.H() + 18.0), Geometry.Statue)
  }

  /** The base frame: four posts to 0.45 h and the ground and roof rims. */
  function CityHallBase(b: Building): seq<Segment>
  {
    Uprights(b, 1.0, 1.0, 0.0, b.H() * 0.45, Plain) + Rims(b, 1.0, 1.0, 0.0, b.H() * 0.45, 4)
  }

  /** The tower (scale 0.3) with its top ring, the dome and the statue. */
  function CityHallTower(b: Building, tr: Trig): seq<Segment>
  {
    Uprights(b, 0.3, 0.3, b.H() * 0.45, b.H() * 0.85, Plain) + Outline(b, 0.3, b.H() * 0.85, Plain) +
    DomeRibs(b, tr) + [Statue(b)]
  }

  function CityHallLines(b: Building, tr: Trig): seq<Segment>
  {
    CityHallBase(b) + CityHallTower(b, tr)
  }

  /** The tower stands on the base's roof, its top ring is where the dome
      ribs start, the ribs lean inward, and the statue stands where they end. */
  lemma CityHallStacks(b: Building, tr: Trig, i: int)
    requires 0 <= i < 4
    ensures Uprights(b, 0.3, 0.3, b.H() * 0.45, b.H() * 0.85, Plain)[i].a.y == Uprights(b, 1.0, 1.0, 0.0, b.H() * 0.45, Plain)[i].b.y
    ensures DomeRib(b, tr, i).a.y == Outline(b, 0.3, b.H() * 0.85, Plain)[i].a.y
    ensures DomeRib(b, tr, i).b.y == Statue(b).a.y
    ensures b.w > 0.0 ==> 0.0 < b.HalfW() * 0.3 * 0.7 * 0.2 < b.HalfW() * 0.3 * 0.7 < b.HalfW() * 0.3
  {
  }

  /** City Hall (`b.cityHall`): 28 plain lines and the statue. */
  method CityHall(b: Building, tr: Trig) returns (lines: seq<Segment>)
    ensures lines == CityHallLines(b, tr)
    ensures |lines| == 29 && Count(lines, Plain) == 28 && Count(lines, Geometry.Statue) == 1
  {
    lines := AddUprights([], b, 1.0, 1.0, 0.0, b.H() * 0.45, Plain);
    lines := AddRims(lines, b, 1.0, 1.0, 0.0, b.H() * 0.45);
    ghost var base := lines;
    assert base == CityHallBase(b);
    lines := AddUprights(lines, b, 0.3, 0.3, b.H() * 0.45, b.H() * 0.85, Plain);
    lines := AddOutline(lines, b, 0.3, b.H() * 0.85, Plain);
    lines := AddAll(lines, DomeRibs(b, tr));
    lines := lines + [Statue(b)];
    assert lines[|base|..] == CityHallTower(b, tr);
    assert lines == base + lines[|base|..];
    CityHallCount(b, tr, Plain);
    CityHallCount(b, tr, Geometry.Statue);
  }

  lemma CityHallCount(b: Building, tr: Trig, h: Hint)
    ensures Count(CityHallLines(b, tr), h) == (if h == Plain then 28 else 0) + (if h == Geometry.Statue then 1 else 0)
  {
    CityHallBaseCount(b, h);
    CityHallTowerCount(b, tr, h);
    CountAppend(CityHallBase(b), CityHallTower(b, tr), h);
  }

  lemma CityHallBaseCount(b: Building, h: Hint)
    ensures Count(CityHallBase(b), h) == if h == Plain then 12 else 0
  {
    var base := Uprights(b, 1.0, 1.0, 0.0, b.H() * 0.45, Plain);
    var rims := Rims(b, 1.0, 1.0, 0.0, b.H() * 0.45, 4);
    CountUniformIs(base, Plain, h);
    CountUniformIs(rims, Plain, h);
    CountAppend(base, rims, h);
  }

  lemma CityHallTowerCount(b: Building, tr: Trig, h: Hint)
    ensures Count(CityHallTower(b, tr), h) == (if h == Plain then 16 else 0) + (if h == Geometry.Statue then 1 else 0)
  {
    var tower := Uprights(b, 0.3, 0.3, b.H() * 0.45, b.H() * 0.85, Plain);
    var top := Outline(b, 0.3, b.H() * 0.85, Plain);
    var dome := DomeRibs(b, tr);
    var statue := [Statue(b)];
    CountUniformIs(tower, Plain, h);
    CountUniformIs(top, Plain, h);
    CountUniformIs(dome, Plain, h);
    CountUniformIs(statue, Geometry.Statue, h);
    CountAppend(tower, top, h);
    CountAppend(tower + top, dome, h);
    CountAppend(tower + top + dome, statue, h);
  }

  // ---------------------------------------------------------------- Sydney Tower

  /** `deckY`: the turret starts at 0.65 h and is 35 high. */
  function TurretY(b: Building): real
  {
    b.H() * 0.65
  }

  function Abs(x: real): real
  {
    if x < 0.0 then -x else x
  }

  /** `ringY` of turret ring `ring`: deckY + (ring / 5) * 35. */
  function TurretRingY(b: Building, ring: int): real
  {
    TurretY(b) + (ring as real / 5.0) * 35.0
  }

  /** `ringR` of turret ring `ring`: 18 (1 - |ring - 2.5| / 5). */
  function TurretRingR(ring: int): real
  {
    18.0 * (1.0 - Abs(ring as real - 2.5) / 5.0)
  }

  /** The turret bulges symmetrically: ring r and ring 5 - r have the same
      radius, 9 at the end rings and 16.2 at the middle two, and the radius
      grows towards the middle. */
  lemma TurretBulges(ring: int)
    ensures TurretRingR(ring) == TurretRingR(5 - ring)
    ensures TurretRingR(0) == 9.0 && TurretRingR(2) == 16.2 && TurretRingR(3) == 16.2 && TurretRingR(5) == 9.0
    ensures ring < 2 ==> TurretRingR(ring) < TurretRingR(ring + 1)
    ensures TurretRingR(ring) <= 16.2
  {
  }

  function TurretRing(b: Building, tr: Trig, ring: int): seq<Segment>
  {
    Polygon(b, tr, 12, 0.0, TurretRingR(ring), TurretRingR(ring), TurretRingY(b, ring), Deck)
  }

  function TurretRings(b: Building, tr: Trig, n: nat): (r: seq<Segment>)
    ensures |r| == 12 * n && forall k :: 0 <= k < |r| ==> r[k].hint == Deck
  {
    if n == 0 then [] else TurretRings(b, tr, n - 1) + TurretRing(b, tr, n - 1)
  }

  /** The four shaft posts at radius 4 from the ground to 0.7 h. */
  function TowerShaft(b: Building, tr: Trig): (r: seq<Segment>)
    ensures |r| == 4 && forall i :: 0 <= i < 4 ==>
      r[i] == Segment(Polar(b, tr, Angle(tr, i, 4, 0.0), 4.0, 4.0, 0.0), Polar(b, tr, Angle(tr, i, 4, 0.0), 4.0, 4.0, b.H() * 0.7), Shaft)
  {
    seq(4, i requires 0 <= i < 4 =>
      Segment(Polar(b, tr, Angle(tr, i, 4, 0.0), 4.0, 4.0, 0.0), Polar(b, tr, Angle(tr, i, 4, 0.0), 4.0, 4.0, b.H() * 0.7), Shaft))
  }

  /** The eight turret ribs at radius 18 * 0.9 over the turret's height. */
  function TurretRibs(b: Building, tr: Trig): (r: seq<Segment>)
    ensures |r| == 8 && forall i :: 0 <= i < 8 ==>
      r[i] == Segment(Polar(b, tr, Angle(tr, i, 8, 0.0), 18.0 * 0.9, 18.0 * 0.9, TurretY(b)),
                      Polar(b, tr, Angle(tr, i, 8, 0.0), 18.0 * 0.9, 18.0 * 0.9, TurretY(b) + 35.0), Deck)
  {
    seq(8, i requires 0 <= i < 8 =>
      Segment(Polar(b, tr, Angle(tr, i, 8, 0.0), 18.0 * 0.9, 18.0 * 0.9, TurretY(b)),
              Polar(b, tr, Angle(tr, i, 8, 0.0), 18.0 * 0.9, 18.0 * 0.9, TurretY(b) + 35.0), Deck))
  }

  /** The ribs run from the lowest ring's height to the highest ring's at the
      radius of the widest rings; the spire starts on top of the turret. */
  lemma RibsSpanTurret(b: Building, tr: Trig)
    ensures TurretRibs(b, tr)[0].a.y == TurretRingY(b, 0) && TurretRibs(b, tr)[0].b.y == TurretRingY(b, 5)
    ensures 18.0 * 0.9 == TurretRingR(2)
    ensures SydneySpire(b).a.y == TurretRingY(b, 5)
  {
  }

  function SydneySpire(b: Building): Segment
  {
    Segment(Axis(b, TurretY(b) + 35.0), Axis(b, b.H()), Spire)
  }

  function SydneyTowerLines(b: Building, tr: Trig): seq<Segment>
  {
    TowerShaft(b, tr) + TurretRings(b, tr, 6) + TurretRibs(b, tr) +
    [SydneySpire(b), Segment(Axis(b, b.H()), Axis(b, b.H() + 20.0), Thin)]
  }

  method AddTurretRings(lines: seq<Segment>, b: Building, tr: Trig) returns (r: seq<Segment>)
    ensures r == lines + TurretRings(b, tr, 6)
  {
    r := lines;
    for ring := 0 to 6
      invariant r == lines + TurretRings(b, tr, ring)
    {
      r := AddTurretRing(r, b, tr, ring);
    }
  }

  method AddTurretRing(lines: seq<Segment>, b: Building, tr: Trig, ring: int) returns (r: seq<Segment>)
    ensures r == lines + TurretRing(b, tr, ring)
  {
    r := AddPolygon(lines, b, tr, 12, 0.0, TurretRingR(ring), TurretRingR(ring), TurretRingY(b, ring), Deck);
  }

  /** Sydney Tower (`b.sydneyTower`): 4 shaft posts, 6 turret rings of 12,
      8 ribs, the spire and the antenna: 86 lines. */
  method SydneyTower(b: Building, tr: Trig) returns (lines: seq<Segment>)
    ensures lines == SydneyTowerLines(b, tr)
    ensures |lines| == 86
    ensures Count(lines, Shaft) == 4 && Count(lines, Deck) == 80 && Count(lines, Spire) == 1 && Count(lines, Thin) == 1
  {
    lines := AddAll([], TowerShaft(b, tr));
    lines := AddTurretRings(lines, b, tr);
    lines := AddAll(lines, TurretRibs(b, tr));
    lines := lines + [SydneySpire(b), Segment(Axis(b, b.H()), Axis(b, b.H() + 20.0), Thin)];
    SydneyCount(b, tr, Shaft);
    SydneyCount(b, tr, Deck);
    SydneyCount(b, tr, Spire);
    SydneyCount(b, tr, Thin);
  }

  lemma SydneyCount(b: Building, tr: Trig, h: Hint)
    ensures Count(SydneyTowerLines(b, tr), h) ==
      (if h == Shaft then 4 else 0) + (if h == Deck then 80 else 0) + (if h == Spire then 1 else 0) + (if h == Thin then 1 else 0)
  {
    var shaft, rings, ribs := TowerShaft(b, tr), TurretRings(b, tr, 6), TurretRibs(b, tr);
    var spire, mast := SydneySpire(b), Segment(Axis(b, b.H()), Axis(b, b.H() + 20.0), Thin);
    CountUniformIs(shaft, Shaft, h);
    CountUniformIs(rings, Deck, h);
    CountUniformIs(ribs, Deck, h);
    CountPair(spire, mast, h);
    CountAppend(shaft, rings, h);
    CountAppend(shaft + rings, ribs, h);
    CountAppend(shaft + rings + ribs, [spire, mast], h);
    assert SydneyTowerLines(b, tr) == shaft + rings + ribs + [spire, mast];
  }

  // ---------------------------------------------------------------- Chifley Tower

  /** `y` of floor f: (f / 18) * h * 0.85. */
  function ChifleyFloorY(b: Building, f: int): real
  {
    (f as real / 18.0) * b.H() * 0.85
  }

  /** `t` of crown ring i: i / 7. */
  function CrownT(i: int): real
  {
    i as real / 7.0
  }

  /** `scale` of crown ring i: 1 - t * 0.4. */
  function CrownScale(i: int): real
  {
    1.0 - CrownT(i) * 0.4
  }

  /** sin(t * pi / 2) of crown ring i: the crown rises on a quarter sine. */
  function CrownSin(tr: Trig, i: int): real
  {
    tr.sin(CrownT(i) * tr.pi / 2.0)
  }

  /** `y` of crown ring i: crownBase + (h - crownBase) * sin(t * pi / 2). */
  function CrownY(b: Building, tr: Trig, i: int): real
  {
    b.H() * 0.85 + (b.H() - b.H() * 0.85) * CrownSin(tr, i)
  }

  /** The crown narrows from the full footprint to 0.6 of it, strictly with
      each ring; where the sine lies in [0, 1] (a quarter turn) its rings lie
      between the crown base and the roof. */
  lemma CrownNarrows(b: Building, tr: Trig, i: int, j: int)
    ensures CrownScale(0) == 1.0 && CrownScale(7) == 0.6
    ensures i < j ==> CrownScale(j) < CrownScale(i)
    ensures b.h >= 0 && 0.0 <= CrownSin(tr, i) <= 1.0 ==> b.H() * 0.85 <= CrownY(b, tr, i) <= b.H()
  {
    var sn := CrownSin(tr, i);
    var rise := b.H() - b.H() * 0.85;
    assert CrownY(b, tr, i) == b.H() * 0.85 + rise * sn;
    if b.h >= 0 && 0.0 <= sn <= 1.0 {
      assert rise >= 0.0 && rise == b.H() * 0.15;
      MulLe(rise, sn, 1.0);
      MulLe(rise, 0.0, sn);
    }
  }

  /** a x <= a y for a >= 0 and x <= y. */
  lemma MulLe(a: real, x: real, y: real)
    requires a >= 0.0 && x <= y
    ensures a * x <= a * y
  {
  }

  function ChifleyFloors(b: Building, n: nat): (r: seq<Segment>)
    ensures |r| == 4 * n && forall k :: 0 <= k < |r| ==> r[k].hint == Floor
  {
    if n == 0 then [] else ChifleyFloors(b, n - 1) + Outline(b, 1.0, ChifleyFloorY(b, n - 1), Floor)
  }

  function ChifleyCrown(b: Building, tr: Trig, n: nat): (r: seq<Segment>)
    ensures |r| == 4 * n && forall k :: 0 <= k < |r| ==> r[k].hint == Crown
  {
    if n == 0 then [] else ChifleyCrown(b, tr, n - 1) + Outline(b, CrownScale(n - 1), CrownY(b, tr, n - 1), Crown)
  }

  function ChifleyLines(b: Building, tr: Trig): seq<Segment>
  {
    Uprights(b, 1.0, 1.0, 0.0, b.H() * 0.85, Plain) + ChifleyFloors(b, 18) + ChifleyCrown(b, tr, 8)
  }

  /** Chifley Tower (`b.chifley`): 4 shaft edges, 18 floor rings and 8 crown
      rings: 108 lines. */
  method Chifley(b: Building, tr: Trig) returns (lines: seq<Segment>)
    ensures lines == ChifleyLines(b, tr)
    ensures |lines| == 108 && Count(lines, Plain) == 4 && Count(lines, Floor) == 72 && Count(lines, Crown) == 32
  {
    lines := AddUprights([], b, 1.0, 1.0, 0.0, b.H() * 0.85, Plain);
    ghost var shaft := lines;
    for f := 0 to 18
      invariant lines == shaft + ChifleyFloors(b, f)
    {
      lines := AddOutline(lines, b, 1.0, ChifleyFloorY(b, f), Floor);
    }
    ghost var floors := lines;
    for i := 0 to 8
      invariant lines == floors + ChifleyCrown(b, tr, i)
    {
      lines := AddOutline(lines, b, CrownScale(i), CrownY(b, tr, i), Crown);
    }
    ChifleyCount(b, tr, Plain);
    ChifleyCount(b, tr, Floor);
    ChifleyCount(b, tr, Crown);
  }

  lemma ChifleyCount(b: Building, tr: Trig, h: Hint)
    ensures Count(ChifleyLines(b, tr), h) == (if h == Plain then 4 else 0) + (if h == Floor then 72 else 0) + (if h == Crown then 32 else 0)
  {
    var shaft, floors, crown := Uprights(b, 1.0, 1.0, 0.0, b.H() * 0.85, Plain), ChifleyFloors(b, 18), ChifleyCrown(b, tr, 8);
    CountUniformIs(shaft, Plain, h);
    CountUniformIs(floors, Floor, h);
    CountUniformIs(crown, Crown, h);
    CountAppend(shaft, floors, h);
    CountAppend(shaft + floors, crown, h);
  }

  // ---------------------------------------------------------------- Marina City

  /** Vertex i of the 12-gon on the footprint ellipse at height y. */
  function PodiumPoint(b: Building, tr: Trig, i: int, y: real): Point
  {
    Polar(b, tr, Angle(tr, i, 12, 0.0), b.HalfW(), b.HalfD(), y)
  }

  /** Podium pass i: the post of vertex i to the podium top (40), the ground
      edge and the podium-top edge to vertex i + 1. */
  function PodiumBay(b: Building, tr: Trig, i: int): seq<Segment>
  {
    [Segment(PodiumPoint(b, tr, i, 0.0), PodiumPoint(b, tr, i, 40.0), Plain),
     Segment(PodiumPoint(b, tr, i, 0.0), PodiumPoint(b, tr, i + 1, 0.0), Plain),
     Segment(PodiumPoint(b, tr, i, 40.0), PodiumPoint(b, tr, i + 1, 40.0), Plain)]
  }

  function Podium(b: Building, tr: Trig, n: nat): (r: seq<Segment>)
    ensures |r| == 3 * n && forall k :: 0 <= k < |r| ==> r[k].hint == Plain
  {
    if n == 0 then [] else Podium(b, tr, n - 1) + PodiumBay(b, tr, n - 1)
  }

  /** `y` of balcony floor f: 40 + (f / 20) * (h - 40). */
  function BalconyY(b: Building, f: int): real
  {
    40.0 + (f as real / 20.0) * (b.H() - 40.0)
  }

  /** Petal i of floor f: the spoke from radius 0.85 w/2 out to the petal tip
      (w/2 + 8 + 2 sin(f / 2)), then the outer edge to the next tip. */
  function Petal(b: Building, tr: Trig, f: int, i: int): seq<Segment>
  {
    var inner := b.HalfW() * 0.85;
    var outer := b.HalfW() + (8.0 + tr.sin(f as real * 0.5) * 2.0);
    var y := BalconyY(b, f);
    [Segment(Polar(b, tr, Angle(tr, i, 16, 0.0), inner, inner, y), Polar(b, tr, Angle(tr, i, 16, 0.0), outer, outer, y), Balcony),
     Segment(Polar(b, tr, Angle(tr, i, 16, 0.0), outer, outer, y), Polar(b, tr, Angle(tr, i + 1, 16, 0.0), outer, outer, y), Balcony)]
  }

  function Petals(b: Building, tr: Trig, f: int, m: nat): (r: seq<Segment>)
    ensures |r| == 2 * m && forall k :: 0 <= k < |r| ==> r[k].hint == Balcony
  {
    if m == 0 then [] else Petals(b, tr, f, m - 1) + Petal(b, tr, f, m - 1)
  }

  function BalconyFloors(b: Building, tr: Trig, n: nat): (r: seq<Segment>)
    ensures |r| == 32 * n && forall k :: 0 <= k < |r| ==> r[k].hint == Balcony
  {
    if n == 0 then [] else BalconyFloors(b, tr, n - 1) + Petals(b, tr, n - 1, 16)
  }

  function MarinaRoof(b: Building, tr: Trig): (r: seq<Segment>)
    ensures |r| == 12 && forall i :: 0 <= i < 12 ==>
      r[i] == Segment(PodiumPoint(b, tr, i, b.H()), PodiumPoint(b, tr, i + 1, b.H()), Plain)
  {
    seq(12, i requires 0 <= i < 12 => Segment(PodiumPoint(b, tr, i, b.H()), PodiumPoint(b, tr, i + 1, b.H()), Plain))
  }

  /** The balcony floors climb strictly from the podium top (40) and stay
      below the roof. */
  lemma BalconiesAbovePodium(b: Building, f: int)
    requires b.h > 40 && 0 <= f < 20
    ensures 40.0 <= BalconyY(b, f) < b.H()
    ensures BalconyY(b, f) < BalconyY(b, f + 1)
  {
    var t, u, y := f as real / 20.0, (f + 1) as real / 20.0, b.H() - 40.0;
    assert 0.0 <= t < 1.0 && y > 0.0;
    assert u == t + 0.05;
    assert BalconyY(b, f) == 40.0 + t * y && BalconyY(b, f + 1) == 40.0 + u * y;
    MulBelow(t, y);
    MulStep(t, 0.05, y);
  }

  /** The petal outlines close up: each petal's outer edge ends on the next
      petal's tip. */
  lemma PetalsJoin(b: Building, tr: Trig, f: int, i: int)
    ensures Petal(b, tr, f, i)[1].b == Petal(b, tr, f, i + 1)[0].b
  {
  }

  /** (t + d) y > t y for d > 0 and y > 0. */
  lemma MulStep(t: real, d: real, y: real)
    requires d > 0.0 && y > 0.0
    ensures (t + d) * y > t * y
  {
    assert (t + d) * y == t * y + d * y;
  }

  method AddPetals(lines: seq<Segment>, b: Building, tr: Trig, f: int) returns (r: seq<Segment>)
    ensures r == lines + Petals(b, tr, f, 16)
  {
    r := lines;
    for i := 0 to 16
      invariant r == lines + Petals(b, tr, f, i)
    {
      r := r + Petal(b, tr, f, i);
    }
  }

  function MarinaLines(b: Building, tr: Trig): seq<Segment>
  {
    Podium(b, tr, 12) + BalconyFloors(b, tr, 20) + MarinaRoof(b, tr)
  }

  /** Marina City (`b.corncob`): a 36-line podium, 20 floors of 16 petals
      (640 balcony lines) and the 12-edge roof: 688 lines. */
  method MarinaCity(b: Building, tr: Trig) returns (lines: seq<Segment>)
    ensures lines == MarinaLines(b, tr)
    ensures |lines| == 688 && Count(lines, Plain) == 48 && Count(lines, Balcony) == 640
  {
    lines := [];
    for i := 0 to 12
      invariant lines == Podium(b, tr, i)
    {
      lines := lines + PodiumBay(b, tr, i);
    }
    ghost var podium := lines;
    for f := 0 to 20
      invariant lines == podium + BalconyFloors(b, tr, f)
    {
      lines := AddPetals(lines, b, tr, f);
      AppendAssoc(podium, BalconyFloors(b, tr, f), Petals(b, tr, f, 16));
    }
    ghost var floors := BalconyFloors(b, tr, 20);
    var roof := MarinaRoof(b, tr);
    lines := AddAll(lines, roof);
    assert lines == podium + floors + roof;
    assert |podium| == 36 && |floors| == 640 && |roof| == 12;
    MarinaCount(b, tr, Plain);
    MarinaCount(b, tr, Balcony);
  }

  lemma MarinaCount(b: Building, tr: Trig, h: Hint)
    ensures Count(MarinaLines(b, tr), h) == (if h == Plain then 48 else 0) + (if h == Balcony then 640 else 0)
  {
    var podium, floors, roof := Podium(b, tr, 12), BalconyFloors(b, tr, 20), MarinaRoof(b, tr);
    CountUniformIs(podium, Plain, h);
    CountUniformIs(floors, Balcony, h);
    CountUniformIs(roof, Plain, h);
    CountAppend(podium, floors, h);
    CountAppend(podium + floors, roof, h);
  }
}
