/**
 * Degree arithmetic of backend/src/utils/astro_calculator.py: Python's
 * floating `%` (whose result takes the divisor's sign), the shorter arc
 * between two longitudes, the split of a longitude into a sign and degrees
 * within it, and equal-house cusps. Degrees are exact reals.
 */
module Degrees {
  import opened Zodiac

  function Abs(x: real): real {
    if x < 0.0 then -x else x
  }

  lemma ScaleStrict(a: real, b: real, m: real)
    requires a < b && m > 0.0
    ensures a * m < b * m
  {
    assert (b - a) * m > 0.0;
  }

  lemma ScaleBack(a: real, b: real, m: real)
    requires a * m < b * m && m > 0.0
    ensures a < b
  {
  }

  /** Python's `x % m` for `m > 0`: `x - m * floor(x / m)`. */
  function FloorMod(x: real, m: real): (r: real)
    requires m > 0.0
    ensures 0.0 <= r < m
  {
    var q := (x / m).Floor;
    FloorBounds(x, m);
    x - m * q as real
  }

  /** `m * floor(x / m) <= x < m * floor(x / m) + m`. */
  lemma FloorBounds(x: real, m: real)
    requires m > 0.0
    ensures m * (x / m).Floor as real <= x < m * (x / m).Floor as real + m
  {
    var q := (x / m).Floor;
    assert (x / m) * m == x;
    if q as real < x / m {
      ScaleStrict(q as real, x / m, m);
    }
    ScaleStrict(x / m, q as real + 1.0, m);
    assert x < (q as real + 1.0) * m;
    assert (q as real + 1.0) * m == m * q as real + m;
  }

  /** The remainder is the unique value in `[0, m)` that differs from `x` by a multiple of `m`. */
  lemma FloorModUnique(x: real, m: real, q: int, y: real)
    requires m > 0.0 && 0.0 <= y < m && x == m * q as real + y
    ensures FloorMod(x, m) == y
  {
    assert x / m == q as real + y / m;
    assert (y / m) * m == y;
    ScaleBack(y / m, 1.0, m);
    if 0.0 < y {
      ScaleBack(0.0, y / m, m);
    }
    assert (x / m).Floor == q;
  }

  function Mod360(x: real): (r: real)
    ensures 0.0 <= r < 360.0
  {
    FloorMod(x, 360.0)
  }

  /** Normalising is idempotent and ignores whole turns. */
  lemma Mod360Turns(x: real, k: int)
    ensures Mod360(Mod360(x)) == Mod360(x)
    ensures Mod360(x + 360.0 * k as real) == Mod360(x)
  {
    var q := (x / 360.0).Floor;
    FloorModUnique(Mod360(x), 360.0, 0, Mod360(x));
    FloorModUnique(x + 360.0 * k as real, 360.0, q + k, Mod360(x));
  }

  /** `diff = abs(a - b); min(diff, 360 - diff)`: the shorter of the two arcs, never above 180. */
  function ShortArc(lon1: real, lon2: real): (d: real)
    ensures d == Abs(lon1 - lon2) || d == 360.0 - Abs(lon1 - lon2)
    ensures d <= Abs(lon1 - lon2) && d <= 360.0 - Abs(lon1 - lon2)
    ensures d <= 180.0
  {
    var diff := Abs(lon1 - lon2);
    if diff <= 360.0 - diff then diff else 360.0 - diff
  }

  /** For longitudes in `[0, 360)` the shorter arc lies in `[0, 180]`, and it is symmetric. */
  lemma ShortArcRange(lon1: real, lon2: real)
    requires 0.0 <= lon1 < 360.0 && 0.0 <= lon2 < 360.0
    ensures 0.0 <= ShortArc(lon1, lon2) <= 180.0
    ensures ShortArc(lon1, lon2) == ShortArc(lon2, lon1)
  {
  }

  /** `get_zodiac_and_degrees`: the sign and the degrees within it. */
  datatype Position = Position(sign: Sign, degrees: real)

  /** `int(degrees / 30)` of the normalised longitude. */
  function SignIndexOf(lon: real): (k: nat)
    ensures k < 12
  {
    var d := Mod360(lon);
    assert 0.0 <= d / 30.0 < 12.0;
    (d / 30.0).Floor
  }

  function ZodiacOf(lon: real): (p: Position)
    ensures 0.0 <= p.degrees < 30.0
    ensures 30.0 * Index(p.sign) as real + p.degrees == Mod360(lon)
  {
    var d := Mod360(lon);
    var k := SignIndexOf(lon);
    FloorModUnique(d, 30.0, k, d - 30.0 * k as real);
    Position(SignAt(k), FloorMod(d, 30.0))
  }

  /** The sign and degrees are the only split of the normalised longitude into 30-degree signs. */
  lemma ZodiacOfUnique(lon: real, z: Sign, inSign: real)
    requires 0.0 <= inSign < 30.0 && 30.0 * Index(z) as real + inSign == Mod360(lon)
    ensures ZodiacOf(lon) == Position(z, inSign)
  {
    var p := ZodiacOf(lon);
    assert Index(p.sign) == Index(z);
    SignAtIndex(p.sign);
    SignAtIndex(z);
  }

  lemma SignAtIndex(z: Sign)
    ensures SignAt(Index(z)) == z
  {
  }

  /** `calculate_house_cusps`: twelve equal houses from the ascendant `(st - 90) % 360`. */
  function HouseCusps(siderealDeg: real): (cusps: seq<real>)
    ensures |cusps| == 12
    ensures forall i :: 0 <= i < 12 ==> 0.0 <= cusps[i] < 360.0
  {
    var ascendant := Mod360(siderealDeg - 90.0);
    seq(12, i requires 0 <= i < 12 => Mod360(ascendant + i as real * 30.0))
  }

  /** Normalising before a shift changes nothing after normalising again. */
  lemma Mod360Shift(x: real, d: real)
    ensures Mod360(Mod360(x) + d) == Mod360(x + d)
  {
    var q := (x / 360.0).Floor;
    assert Mod360(x) + d + 360.0 * q as real == x + d;
    Mod360Turns(Mod360(x) + d, q);
  }

  /** A normalised longitude `30 m + r` with `r` in `[0, 30)` lies in sign `m`. */
  lemma SignIndexOfSplit(lon: real, m: nat, r: real)
    requires m < 12 && 0.0 <= r < 30.0 && lon == 30.0 * m as real + r
    ensures SignIndexOf(lon) == m
  {
    FloorModUnique(lon, 360.0, 0, lon);
    assert lon / 30.0 == m as real + r / 30.0;
  }

  /** The first cusp is the ascendant `(st - 90) % 360`. */
  lemma FirstCuspIsAscendant(siderealDeg: real)
    ensures HouseCusps(siderealDeg)[0] == Mod360(siderealDeg - 90.0)
  {
    var asc := Mod360(siderealDeg - 90.0);
    Mod360Turns(siderealDeg - 90.0, 0);
    assert HouseCusps(siderealDeg)[0] == Mod360(asc + 0 as real * 30.0);
  }

  /** Each cusp lies 30 degrees past the one before it; the last wraps round to the first. */
  lemma CuspsThirtyApart(siderealDeg: real, i: nat)
    requires i < 12
    ensures HouseCusps(siderealDeg)[(i + 1) % 12] == Mod360(HouseCusps(siderealDeg)[i] + 30.0)
  {
    var cusps := HouseCusps(siderealDeg);
    var asc := Mod360(siderealDeg - 90.0);
    assert cusps[i] == Mod360(asc + i as real * 30.0);
    Mod360Shift(asc + i as real * 30.0, 30.0);
    if i < 11 {
      assert cusps[i + 1] == Mod360(asc + (i + 1) as real * 30.0);
      assert asc + (i + 1) as real * 30.0 == asc + i as real * 30.0 + 30.0;
    } else {
      FirstCuspIsAscendant(siderealDeg);
      assert asc + i as real * 30.0 + 30.0 == asc + 360.0 * 1 as real;
      Mod360Turns(asc, 1);
      Mod360Turns(siderealDeg - 90.0, 0);
    }
  }

  /** House `i` starts `i` signs after the ascendant's sign, counting round the zodiac. */
  lemma HouseSigns(siderealDeg: real, i: nat)
    requires i < 12
    ensures SignIndexOf(HouseCusps(siderealDeg)[i]) == (SignIndexOf(HouseCusps(siderealDeg)[0]) + i) % 12
  {
    var cusps := HouseCusps(siderealDeg);
    var asc := Mod360(siderealDeg - 90.0);
    FirstCuspIsAscendant(siderealDeg);
    Mod360Turns(siderealDeg - 90.0, 0);
    var k := SignIndexOf(asc);
    var r := asc - 30.0 * k as real;
    assert Index(ZodiacOf(asc).sign) == k;
    SignIndexOfSplit(cusps[0], k, r);
    var t := (k + i) / 12;
    var m := (k + i) % 12;
    assert asc + i as real * 30.0 == 360.0 * t as real + (30.0 * m as real + r);
    FloorModUnique(asc + i as real * 30.0, 360.0, t, 30.0 * m as real + r);
    SignIndexOfSplit(cusps[i], m, r);
  }
}
