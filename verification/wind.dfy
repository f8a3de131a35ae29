/** The wind snapshot: the speed category and the cardinal direction. */
module Wind {
  import opened Wrappers

  datatype Category = Calm | Breezy | Windy | Strong {
    /** The text stored in `wind_speed_category`. */
    function Label(): string {
      match this
      case Calm => "Calm"
      case Breezy => "Breezy"
      case Windy => "Windy"
      case Strong => "Strong"
    }

    function Rank(): nat {
      match this
      case Calm => 0
      case Breezy => 1
      case Windy => 2
      case Strong => 3
    }
  }

  /** The eight compass points, clockwise from north. */
  datatype Point = N | NE | E | SE | S | SW | W | NW

  /** The compass points in the order the direction index selects them. */
  const Points: seq<Point> := [N, NE, E, SE, S, SW, W, NW]

  /**
   * The speed category of a wind speed in m/s. A missing speed has no
   * category (it is never "Calm").
   */
  function CategoryOf(speed: Option<real>): (c: Option<Category>)
    ensures c.None? <==> speed.None?
    ensures c == Some(Calm) <==> speed.Some? && speed.value < 2.0
    ensures c == Some(Breezy) <==> speed.Some? && 2.0 <= speed.value < 5.0
    ensures c == Some(Windy) <==> speed.Some? && 5.0 <= speed.value < 10.0
    ensures c == Some(Strong) <==> speed.Some? && speed.value >= 10.0
  {
    match speed
    case None => None
    case Some(v) =>
      if v < 2.0 then Some(Calm)
      else if v < 5.0 then Some(Breezy)
      else if v < 10.0 then Some(Windy)
      else Some(Strong)
  }

  /** A stronger wind never gets a calmer category. */
  lemma CategoryMonotone(v1: real, v2: real)
    requires v1 <= v2
    ensures CategoryOf(Some(v1)).value.Rank() <= CategoryOf(Some(v2)).value.Rank()
  {
  }

  /** The bucket edges: 1.9 Calm, 2 and 4.9 Breezy, 5 and 9.9 Windy, 10 Strong. */
  lemma CategoryBoundaries()
    ensures CategoryOf(Some(1.9)) == Some(Calm) && CategoryOf(Some(2.0)) == Some(Breezy)
    ensures CategoryOf(Some(4.9)) == Some(Breezy) && CategoryOf(Some(5.0)) == Some(Windy)
    ensures CategoryOf(Some(9.9)) == Some(Windy) && CategoryOf(Some(10.0)) == Some(Strong)
  {
  }

  /** Python's `x % m` for a positive float modulus: the remainder has the sign of `m`. */
  function FloorMod(x: real, m: real): (r: real)
    requires m > 0.0
    ensures 0.0 <= r < m
    ensures ((x - r) / m).Floor as real == (x - r) / m
  {
    var q := (x / m).Floor;
    assert (x - (x - q as real * m)) / m == q as real by {
      assert x - (x - q as real * m) == q as real * m;
    }
    FloorScaled(x, m);
    x - q as real * m
  }

  /** `floor(x / m) * m <= x < floor(x / m) * m + m`, scaled step by step from the bounds on the floor. */
  lemma FloorScaled(x: real, m: real)
    requires m > 0.0
    ensures (x / m).Floor as real * m <= x < (x / m).Floor as real * m + m
  {
    var y := x / m;
    var q := y.Floor as real;
    assert q <= y < q + 1.0;
    DivTimes(x, m);
    ScaleBelow(q, y, m);
    assert q * m <= x;
    ScaleStrictlyBelow(y, q + 1.0, m);
    assert (q + 1.0) * m == q * m + m;
    assert x < q * m + m;
  }

  lemma DivTimes(x: real, m: real)
    requires m > 0.0
    ensures (x / m) * m == x
  {
  }

  lemma ScaleBelow(a: real, b: real, m: real)
    requires a <= b && m > 0.0
    ensures a * m <= b * m
  {
  }

  lemma ScaleStrictlyBelow(a: real, b: real, m: real)
    requires a < b && m > 0.0
    ensures a * m < b * m
  {
  }

  /** The remainder ignores whole multiples of the modulus added to the dividend. */
  lemma FloorModPeriodic(x: real, k: int)
    ensures FloorMod(x + k as real * 360.0, 360.0) == FloorMod(x, 360.0)
  {
    var y := x + k as real * 360.0;
    assert y / 360.0 == x / 360.0 + k as real;
    assert (y / 360.0).Floor == (x / 360.0).Floor + k;
  }

  /** Python's `int(x)`: truncation toward zero. */
  function Truncate(x: real): int {
    if x >= 0.0 then x.Floor else -((-x).Floor)
  }

  /** The index `int((deg % 360) / 45)` of a present direction, always a valid position in `Points`. */
  function PointIndex(deg: real): (i: int)
    ensures 0 <= i < |Points|
    ensures 45.0 * i as real <= FloorMod(deg, 360.0) < 45.0 * i as real + 45.0
  {
    var y := FloorMod(deg, 360.0) / 45.0;
    assert 0.0 <= y < 8.0;
    Truncate(y)
  }

  /** The cardinal direction of a wind direction in degrees; a missing direction has none. */
  function CardinalOf(deg: Option<real>): (p: Option<Point>)
    ensures p.None? <==> deg.None?
  {
    match deg
    case None => None
    case Some(d) => Some(Points[PointIndex(d)])
  }

  /**
   * Reference reading: point `k` is the one whose 45-degree sector, counted
   * clockwise from north, holds the direction reduced into [0, 360).
   */
  lemma CardinalSector(d: real, k: int)
    requires 0 <= k < 8
    ensures CardinalOf(Some(d)) == Some(Points[k]) <==>
      45.0 * k as real <= FloorMod(d, 360.0) < 45.0 * k as real + 45.0
  {
  }

  /** Adding whole turns to the reading, forwards or backwards, does not change the point. */
  lemma CardinalPeriodic(d: real, turns: int)
    ensures CardinalOf(Some(d + turns as real * 360.0)) == CardinalOf(Some(d))
  {
    FloorModPeriodic(d, turns);
  }

  /** A negative reading points the same way as its positive equivalent: -90 degrees is west, -1 is north-west. */
  lemma CardinalNegativeExamples()
    ensures CardinalOf(Some(-90.0)) == Some(W)
    ensures CardinalOf(Some(-1.0)) == Some(NW)
    ensures CardinalOf(Some(360.0)) == Some(N)
  {
  }
}
