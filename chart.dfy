/**
 * The chart assembly of `calculate_astro` in
 * backend/src/utils/astro_calculator.py, with the ephemeris readings
 * (longitudes in degrees, sidereal time in degrees, the phase value) as
 * inputs: the positions loop, the loop over unordered body pairs that
 * collects aspects, the ascendant, midheaven and houses, the moon-phase
 * label, and the error result.
 */
module Chart {
  import opened Wrappers
  import opened Zodiac
  import opened Degrees
  import opened Aspects
  import opened MoonPhases

  datatype Body = Sun | Moon | Mercury | Venus | Mars | Jupiter | Saturn | Uranus | Neptune | Pluto

  /** The `bodies` dict in its insertion order. */
  const Bodies: seq<Body> := [Sun, Moon, Mercury, Venus, Mars, Jupiter, Saturn, Uranus, Neptune, Pluto]

  /** The position of a body in `Bodies`. */
  function BodyIndex(b: Body): (k: nat)
    ensures k < |Bodies| && Bodies[k] == b
  {
    match b
    case Sun => 0 case Moon => 1 case Mercury => 2 case Venus => 3 case Mars => 4
    case Jupiter => 5 case Saturn => 6 case Uranus => 7 case Neptune => 8 case Pluto => 9
  }

  lemma BodiesDistinct()
    ensures forall i, j :: 0 <= i < j < |Bodies| ==> Bodies[i] != Bodies[j]
  {
    forall i, j | 0 <= i < j < |Bodies| ensures Bodies[i] != Bodies[j] {
      assert BodyIndex(Bodies[i]) == i && BodyIndex(Bodies[j]) == j by {
        BodyIndexOf(i);
        BodyIndexOf(j);
      }
    }
  }

  lemma BodyIndexOf(i: nat)
    requires i < |Bodies|
    ensures BodyIndex(Bodies[i]) == i
  {
  }

  // ------------------------------------------------------------ positions

  /** One entry of `planets`: a body, its sign and degrees, and its longitude. */
  datatype Planet = Planet(body: Body, position: Position, longitude: real)

  /** The `for name, body in bodies.items()` loop filling `positions` and `longitudes`. */
  method ComputePositions(longitudes: seq<real>) returns (planets: seq<Planet>)
    requires |longitudes| == |Bodies|
    ensures |planets| == |Bodies|
    ensures forall i :: 0 <= i < |Bodies| ==>
      planets[i] == Planet(Bodies[i], ZodiacOf(longitudes[i]), longitudes[i])
  {
    planets := [];
    var i := 0;
    while i < |Bodies|
      invariant 0 <= i <= |Bodies| && |planets| == i
      invariant forall k :: 0 <= k < i ==> planets[k] == Planet(Bodies[k], ZodiacOf(longitudes[k]), longitudes[k])
    {
      planets := planets + [Planet(Bodies[i], ZodiacOf(longitudes[i]), longitudes[i])];
      i := i + 1;
    }
  }

  // ---------------------------------------------------------------- pairs

  /** One entry of `aspects`: the two bodies, earlier body first, and their aspect. */
  datatype AspectEntry = AspectEntry(first: Body, second: Body, aspect: Aspect)

  /** How a pair of longitudes is classified; `AspectBetween` in the chart. */
  type Detector = (real, real) -> Option<Aspect>

  /** The entry for the pair `(i, j)`, if the two bodies form an aspect. */
  function EntryAt(detect: Detector, longitudes: seq<real>, i: nat, j: nat): seq<AspectEntry>
    requires i < j < |longitudes| == |Bodies|
  {
    match detect(longitudes[i], longitudes[j])
    case Some(a) => [AspectEntry(Bodies[i], Bodies[j], a)]
    case None => []
  }

  /** The entries of row `i` for the partners `i + 1 .. j - 1`, in loop order. */
  function RowUpTo(detect: Detector, longitudes: seq<real>, i: nat, j: nat): seq<AspectEntry>
    requires i < |longitudes| == |Bodies| && j <= |longitudes|
  {
    if j <= i + 1 then [] else RowUpTo(detect, longitudes, i, j - 1) + EntryAt(detect, longitudes, i, j - 1)
  }

  /** The entries of rows `0 .. i - 1`, in loop order. */
  function RowsBefore(detect: Detector, longitudes: seq<real>, i: nat): seq<AspectEntry>
    requires i <= |longitudes| == |Bodies|
  {
    if i == 0 then [] else RowsBefore(detect, longitudes, i - 1) + RowUpTo(detect, longitudes, i - 1, |longitudes|)
  }

  /** The `aspects` list of `calculate_astro`: in pair order with no pair twice, and at most 45 entries. */
  function AspectList(longitudes: seq<real>): (aspects: seq<AspectEntry>)
    requires |longitudes| == |Bodies|
    ensures StrictlyOrdered(aspects)
    ensures |aspects| <= 45
  {
    RowsBeforeOrdered(AspectBetween, longitudes, |longitudes|);
    RowsBeforeLength(AspectBetween, longitudes, |longitudes|);
    assert PairsBefore(10) == 45;
    RowsBefore(AspectBetween, longitudes, |longitudes|)
  }

  /** The inner loop: the bodies after `Bodies[i]`, appending the aspects they form with it. */
  method FindRowAspects(longitudes: seq<real>, i: nat) returns (row: seq<AspectEntry>)
    requires i < |longitudes| == |Bodies|
    ensures row == RowUpTo(AspectBetween, longitudes, i, |longitudes|)
  {
    row := [];
    var j := i + 1;
    while j < |Bodies|
      invariant i + 1 <= j <= |Bodies|
      invariant row == RowUpTo(AspectBetween, longitudes, i, j)
    {
      var aspect := CalculateAspects(longitudes[i], longitudes[j]);
      if aspect.Some? {
        row := row + [AspectEntry(Bodies[i], Bodies[j], aspect.value)];
      }
      j := j + 1;
    }
  }

  /** The outer loop over `name1` in body order. */
  method FindAspects(longitudes: seq<real>) returns (aspects: seq<AspectEntry>)
    requires |longitudes| == |Bodies|
    ensures aspects == AspectList(longitudes)
  {
    aspects := [];
    var i := 0;
    while i < |Bodies|
      invariant 0 <= i <= |Bodies|
      invariant aspects == RowsBefore(AspectBetween, longitudes, i)
    {
      var row := FindRowAspects(longitudes, i);
      aspects := aspects + row;
      i := i + 1;
    }
  }

  /** Where an entry sits in the enumeration order of pairs. */
  function PairRank(e: AspectEntry): nat {
    10 * BodyIndex(e.first) + BodyIndex(e.second)
  }

  /** An entry of row `i` up to `j` is exactly an aspected pair `(i, k)` with `i < k < j`. */
  lemma {:induction false} RowUpToMembers(detect: Detector, longitudes: seq<real>, i: nat, j: nat, e: AspectEntry)
    requires i < |longitudes| == |Bodies| && j <= |longitudes|
    ensures e in RowUpTo(detect, longitudes, i, j) <==>
      BodyIndex(e.first) == i && i < BodyIndex(e.second) < j &&
      detect(longitudes[i], longitudes[BodyIndex(e.second)]) == Some(e.aspect)
  {
    if j > i + 1 {
      RowUpToMembers(detect, longitudes, i, j - 1, e);
      BodyIndexOf(i);
      BodyIndexOf(j - 1);
    }
  }

  /** The rows before `i` hold exactly the aspected pairs whose first body comes before `i`. */
  lemma {:induction false} RowsBeforeMembers(detect: Detector, longitudes: seq<real>, i: nat, e: AspectEntry)
    requires i <= |longitudes| == |Bodies|
    ensures e in RowsBefore(detect, longitudes, i) <==>
      BodyIndex(e.first) < i && BodyIndex(e.first) < BodyIndex(e.second) &&
      detect(longitudes[BodyIndex(e.first)], longitudes[BodyIndex(e.second)]) == Some(e.aspect)
  {
    if i > 0 {
      RowsBeforeMembers(detect, longitudes, i - 1, e);
      RowUpToMembers(detect, longitudes, i - 1, |longitudes|, e);
    }
  }

  /**
   * The list holds an entry for a pair exactly when the pair forms that
   * aspect, the earlier body first; each pair is examined once.
   */
  lemma AspectListMembers(longitudes: seq<real>, e: AspectEntry)
    requires |longitudes| == |Bodies|
    ensures e in AspectList(longitudes) <==>
      BodyIndex(e.first) < BodyIndex(e.second) &&
      AspectBetween(longitudes[BodyIndex(e.first)], longitudes[BodyIndex(e.second)]) == Some(e.aspect)
  {
    RowsBeforeMembers(AspectBetween, longitudes, |longitudes|, e);
  }

  predicate StrictlyOrdered(entries: seq<AspectEntry>) {
    forall p, q :: 0 <= p < q < |entries| ==> PairRank(entries[p]) < PairRank(entries[q])
  }

  lemma OrderedAppend(a: seq<AspectEntry>, b: seq<AspectEntry>)
    requires StrictlyOrdered(a) && StrictlyOrdered(b)
    requires forall x, y :: x in a && y in b ==> PairRank(x) < PairRank(y)
    ensures StrictlyOrdered(a + b)
  {
    forall p, q | 0 <= p < q < |a + b| ensures PairRank((a + b)[p]) < PairRank((a + b)[q]) {
      if q >= |a| && p < |a| {
        assert (a + b)[p] in a && (a + b)[q] in b;
      }
    }
  }

  /** Row `i` only holds ranks inside `(10 i + i, 10 i + 10)`. */
  lemma RowUpToRanks(detect: Detector, longitudes: seq<real>, i: nat, j: nat)
    requires i < |longitudes| == |Bodies| && j <= |longitudes|
    ensures forall e :: e in RowUpTo(detect, longitudes, i, j) ==> 10 * i + i < PairRank(e) < 10 * i + 10
  {
    forall e | e in RowUpTo(detect, longitudes, i, j) ensures 10 * i + i < PairRank(e) < 10 * i + 10 {
      RowUpToMembers(detect, longitudes, i, j, e);
    }
  }

  /** Row `i` is ordered by partner. */
  lemma {:induction false} RowUpToOrdered(detect: Detector, longitudes: seq<real>, i: nat, j: nat)
    requires i < |longitudes| == |Bodies| && j <= |longitudes|
    ensures StrictlyOrdered(RowUpTo(detect, longitudes, i, j))
  {
    if j > i + 1 {
      RowUpToOrdered(detect, longitudes, i, j - 1);
      var last := EntryAt(detect, longitudes, i, j - 1);
      forall x, y | x in RowUpTo(detect, longitudes, i, j - 1) && y in last ensures PairRank(x) < PairRank(y) {
        RowUpToMembers(detect, longitudes, i, j - 1, x);
        BodyIndexOf(i);
        BodyIndexOf(j - 1);
      }
      OrderedAppend(RowUpTo(detect, longitudes, i, j - 1), last);
    }
  }

  /** The rows before `i` are ordered, with every rank below `10 i`. */
  lemma {:induction false} RowsBeforeOrdered(detect: Detector, longitudes: seq<real>, i: nat)
    requires i <= |longitudes| == |Bodies|
    ensures StrictlyOrdered(RowsBefore(detect, longitudes, i))
    ensures forall e :: e in RowsBefore(detect, longitudes, i) ==> PairRank(e) < 10 * i
  {
    if i > 0 {
      RowsBeforeOrdered(detect, longitudes, i - 1);
      RowUpToOrdered(detect, longitudes, i - 1, |longitudes|);
      RowUpToRanks(detect, longitudes, i - 1, |longitudes|);
      OrderedAppend(RowsBefore(detect, longitudes, i - 1), RowUpTo(detect, longitudes, i - 1, |longitudes|));
    }
  }

  lemma {:induction false} RowUpToLength(detect: Detector, longitudes: seq<real>, i: nat, j: nat)
    requires i < |longitudes| == |Bodies| && j <= |longitudes|
    ensures |RowUpTo(detect, longitudes, i, j)| <= if j <= i + 1 then 0 else j - i - 1
  {
    if j > i + 1 {
      RowUpToLength(detect, longitudes, i, j - 1);
    }
  }

  /** The number of pairs in rows `0 .. i - 1`: `9 + 8 + ... + (10 - i)`. */
  function PairsBefore(i: nat): nat
    requires i <= 10
  {
    if i == 0 then 0 else PairsBefore(i - 1) + (10 - i)
  }

  /** Rows `0 .. i - 1` hold at most one entry per pair. */
  lemma {:induction false} RowsBeforeLength(detect: Detector, longitudes: seq<real>, i: nat)
    requires i <= |longitudes| == |Bodies|
    ensures |RowsBefore(detect, longitudes, i)| <= PairsBefore(i)
  {
    if i > 0 {
      RowsBeforeLength(detect, longitudes, i - 1);
      RowUpToLength(detect, longitudes, i - 1, |longitudes|);
    }
  }

  // ---------------------------------------------------------------- chart

  /** What the ephemeris reports for the birth moment: ten longitudes in body order, sidereal time and phase, all in degrees or percent. */
  datatype Readings = Readings(longitudes: seq<real>, siderealDeg: real, phase: real)

  /** Either the readings, or the message of the exception raised while parsing the input or computing them. */
  datatype Ephemeris = Computed(readings: Readings) | Raised(message: string)

  datatype MoonReport = MoonReport(percentage: real, phase: MoonPhase)

  datatype Chart = Chart(
    sunSign: Sign, moonSign: Sign, ascendant: Sign, midheaven: Sign,
    planets: seq<Planet>, aspects: seq<AspectEntry>, houses: seq<Position>,
    moonPhase: MoonReport)

  /** The dictionary `calculate_astro` returns: a chart, or `{'error': ..., 'sunSign': 'Unknown'}`. */
  datatype AstroResult = Charted(chart: Chart) | Failed(error: string, sunSign: string)

  predicate WellFormed(input: Ephemeris) {
    input.Computed? ==> |input.readings.longitudes| == |Bodies|
  }

  /**
   * The chart the readings determine: a planet per body in body order with
   * its own longitude, twelve houses, the sun and moon signs of the first
   * two planets, the ascendant and midheaven signs of houses 1 and 10, and
   * the reported phase value.
   */
  function ChartOf(r: Readings): (c: Chart)
    requires |r.longitudes| == |Bodies|
    ensures |c.planets| == |Bodies| && |c.houses| == 12
    ensures forall i :: 0 <= i < |Bodies| ==>
      c.planets[i].body == Bodies[i] && c.planets[i].longitude == r.longitudes[i] &&
      c.planets[i].position == ZodiacOf(r.longitudes[i])
    ensures c.sunSign == c.planets[0].position.sign && c.moonSign == c.planets[1].position.sign
    ensures c.ascendant == c.houses[0].sign && c.midheaven == c.houses[9].sign
    ensures c.moonPhase.percentage == r.phase
  {
    var cusps := HouseCusps(r.siderealDeg);
    Chart(
      ZodiacOf(r.longitudes[0]).sign, ZodiacOf(r.longitudes[1]).sign,
      ZodiacOf(cusps[0]).sign, ZodiacOf(cusps[9]).sign,
      seq(10, i requires 0 <= i < 10 => Planet(Bodies[i], ZodiacOf(r.longitudes[i]), r.longitudes[i])),
      AspectList(r.longitudes),
      seq(12, i requires 0 <= i < 12 => ZodiacOf(cusps[i])),
      MoonReport(r.phase, PhaseOf(r.phase)))
  }

  /** Any exception yields the error dictionary with sun sign "Unknown" and no chart; otherwise the chart. */
  function AstroOf(input: Ephemeris): (a: AstroResult)
    requires WellFormed(input)
    ensures a.Failed? <==> input.Raised?
    ensures a.Failed? ==> a.sunSign == "Unknown" && a.error == input.message
    ensures a.Charted? ==> a.chart == ChartOf(input.readings)
  {
    match input
    case Computed(r) => Charted(ChartOf(r))
    case Raised(message) => Failed(message, "Unknown")
  }

  /** `calculate_astro` after the ephemeris calls. */
  method CalculateAstro(input: Ephemeris) returns (result: AstroResult)
    requires WellFormed(input)
    ensures result == AstroOf(input)
  {
    if input.Raised? {
      return Failed(input.message, "Unknown");
    }
    var r := input.readings;
    var planets := ComputePositions(r.longitudes);
    var aspects := FindAspects(r.longitudes);
    var cusps := HouseCusps(r.siderealDeg);
    var ascendant := ZodiacOf(cusps[0]);
    var midheaven := ZodiacOf(cusps[9]);
    var houses := seq(12, i requires 0 <= i < 12 => ZodiacOf(cusps[i]));
    var moon := MoonReport(r.phase, PhaseOf(r.phase));
    result := Charted(Chart(planets[0].position.sign, planets[1].position.sign,
                            ascendant.sign, midheaven.sign, planets, aspects, houses, moon));
  }

  /**
   * The sun and moon signs are the signs of the first two planets; the
   * ascendant is the sign of the first house and the midheaven that of the
   * tenth, which lies nine signs further round the zodiac.
   */
  lemma ChartAngles(r: Readings)
    requires |r.longitudes| == |Bodies|
    ensures ChartOf(r).sunSign == ChartOf(r).planets[0].position.sign && ChartOf(r).planets[0].body == Sun
    ensures ChartOf(r).moonSign == ChartOf(r).planets[1].position.sign && ChartOf(r).planets[1].body == Moon
    ensures ChartOf(r).ascendant == ChartOf(r).houses[0].sign
    ensures ChartOf(r).midheaven == ChartOf(r).houses[9].sign
    ensures Index(ChartOf(r).midheaven) == (Index(ChartOf(r).ascendant) + 9) % 12
  {
    HouseSigns(r.siderealDeg, 9);
  }

  /** The twelve houses start a sign apart, in zodiac order from the ascendant's sign. */
  lemma ChartHouses(r: Readings, i: nat)
    requires |r.longitudes| == |Bodies| && i < 12
    ensures |ChartOf(r).houses| == 12
    ensures Index(ChartOf(r).houses[i].sign) == (Index(ChartOf(r).ascendant) + i) % 12
  {
    HouseSigns(r.siderealDeg, i);
  }

  /** The chart's aspects are exactly the aspected pairs, each once, in body order, at most 45. */
  lemma ChartAspects(r: Readings, e: AspectEntry)
    requires |r.longitudes| == |Bodies|
    ensures e in ChartOf(r).aspects <==>
      BodyIndex(e.first) < BodyIndex(e.second) &&
      AspectBetween(r.longitudes[BodyIndex(e.first)], r.longitudes[BodyIndex(e.second)]) == Some(e.aspect)
    ensures StrictlyOrdered(ChartOf(r).aspects) && |ChartOf(r).aspects| <= 45
  {
    AspectListMembers(r.longitudes, e);
  }
}
