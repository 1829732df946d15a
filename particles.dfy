/** The wrap-around formulas of the animated particles: JavaScript's `%` on
    reals (the remainder of division truncated toward zero), the snow and
    rain positions, the highway car lights and the sailboat lanes. */
module Particles {

  /** Division truncated toward zero, as `%` uses it. */
  function Trunc(q: real): (n: int)
    ensures q >= 0.0 ==> n as real <= q < n as real + 1.0
    ensures q < 0.0 ==> n as real - 1.0 < q <= n as real
  {
    if q >= 0.0 then q.Floor else -((-q).Floor)
  }

  /** JavaScript `a % m` for m > 0: the sign follows the dividend. */
  function JsRem(a: real, m: real): real
    requires m > 0.0
  {
    a - m * Trunc(a / m) as real
  }

  /** The wrap widths the particle formulas use: the 600-high sky, the
      900-wide road and the 1000-wide rain field. */
  predicate WrapWidth(m: real)
  {
    m == 600.0 || m == 900.0 || m == 1000.0
  }

  /** A non-negative dividend leaves a remainder in [0, m), a negative one a
      remainder in (-m, 0]. */
  lemma JsRemRange(a: real, m: real)
    requires WrapWidth(m)
    ensures a >= 0.0 ==> 0.0 <= JsRem(a, m) < m
    ensures a < 0.0 ==> -m < JsRem(a, m) <= 0.0
  {
  }

  /** Adding a whole period to a non-negative dividend does not move it. */
  lemma JsRemPeriodic(a: real, m: real)
    requires WrapWidth(m) && a >= 0.0
    ensures JsRem(a + m, m) == JsRem(a, m)
  {
    FloorShifts(a / m);
    assert (a + m) / m == a / m + 1.0;
  }

  /** Math.floor commutes with adding one. */
  lemma FloorShifts(q: real)
    ensures (q + 1.0).Floor == q.Floor + 1
  {
    var f := q.Floor;
    assert (f + 1) as real <= q + 1.0 < (f + 1) as real + 1.0;
  }

  /** A product of non-negative reals is non-negative. */
  lemma ProductNonNegative(a: real, b: real, c: real)
    requires a >= 0.0 && b >= 0.0 && c >= 0.0
    ensures a * b * c >= 0.0
  {
    assert a * b >= 0.0;
  }

  /** Moscow.jsx snowflake height `(flake.y + time * flake.speed * 25) % 600`. */
  function SnowY(y0: real, time: real, speed: real): (y: real)
    requires y0 >= 0.0 && time >= 0.0 && speed >= 0.0
    ensures 0.0 <= y < 600.0
  {
    ProductNonNegative(time, speed, 25.0);
    JsRemRange(y0 + time * speed * 25.0, 600.0);
    JsRem(y0 + time * speed * 25.0, 600.0)
  }

  /** Moscow.jsx snowflake x `(flake.x + wobbleX + time * 20 * windSpeed) % 1000`,
      where wobbleX is `Math.sin(time * 2 + flake.wobble) * 20 * windSpeed`
      and `sine` stands for that Math.sin value. Wind and wobble can make the
      sum negative, so the result lies in (-1000, 1000), and in [0, 1000)
      whenever the sum is non-negative. */
  function SnowX(x0: real, time: real, sine: real, wind: real): (x: real)
    ensures -1000.0 < x < 1000.0
    ensures x0 + sine * 20.0 * wind + time * 20.0 * wind >= 0.0 ==> 0.0 <= x
  {
    JsRemRange(x0 + sine * 20.0 * wind + time * 20.0 * wind, 1000.0);
    JsRem(x0 + sine * 20.0 * wind + time * 20.0 * wind, 1000.0)
  }

  /** chicago.jsx raindrop height `(drop.y + time * drop.speed * 50) % 600`. */
  function RainY(y0: real, time: real, speed: real): (y: real)
    requires y0 >= 0.0 && time >= 0.0 && speed >= 0.0
    ensures 0.0 <= y < 600.0
  {
    ProductNonNegative(time, speed, 50.0);
    JsRemRange(y0 + time * speed * 50.0, 600.0);
    JsRem(y0 + time * speed * 50.0, 600.0)
  }

  /** chicago.jsx raindrop x `(drop.x + time * (drop.speed * 10) * windSpeed + windSpeed * 100) % 1000`.
      A drop starts at x in [-50, 950), so the sum can be negative, and then
      so is the remainder; it stays within (-1000, 1000), and in [0, 1000)
      whenever the sum is non-negative. */
  function RainX(x0: real, time: real, speed: real, wind: real): (x: real)
    ensures -1000.0 < x < 1000.0
    ensures x0 + time * (speed * 10.0) * wind + wind * 100.0 >= 0.0 ==> 0.0 <= x
  {
    JsRemRange(x0 + time * (speed * 10.0) * wind + wind * 100.0, 1000.0);
    JsRem(x0 + time * (speed * 10.0) * wind + wind * 100.0, 1000.0)
  }

  /** Philadelphia.jsx car light i: `((i * 120 + time * 40) % 900) - 450`. */
  function CarX(i: nat, time: real): (x: real)
    requires time >= 0.0
    ensures -450.0 <= x < 450.0
  {
    JsRemRange(i as real * 120.0 + time * 40.0, 900.0);
    JsRem(i as real * 120.0 + time * 40.0, 900.0) - 450.0
  }

  /** A car reappears at the left end exactly one crossing (22.5 time units,
      900 / 40) later. */
  lemma CarWraps(i: nat, time: real)
    requires time >= 0.0
    ensures CarX(i, time + 22.5) == CarX(i, time)
  {
    var a := i as real * 120.0 + time * 40.0;
    assert i as real * 120.0 + (time + 22.5) * 40.0 == a + 900.0;
    JsRemPeriodic(a, 900.0);
  }

  /** Sydney.jsx sailboat lane `-220 + (i % 4) * 40`: one of four lanes. */
  function BoatLane(i: nat): (z: real)
    ensures z == -220.0 || z == -180.0 || z == -140.0 || z == -100.0
  {
    -220.0 + (i % 4) as real * 40.0
  }

  /** Boats four apart share a lane; neighbours never do. */
  lemma BoatLanesCycle(i: nat)
    ensures BoatLane(i + 4) == BoatLane(i)
    ensures BoatLane(i + 1) != BoatLane(i)
  {
  }
}
