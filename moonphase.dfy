/**
 * The moon-phase label of `calculate_astro` in
 * backend/src/utils/astro_calculator.py: a chain of thresholds every 25
 * units applied to the phase value that the ephemeris reports.
 */
module MoonPhases {
  /**
   * The labels "New", "Waxing Crescent", "First Quarter", "Waxing Gibbous",
   * "Full", "Waning Gibbous", "Last Quarter" and "Waning Crescent".
   */
  datatype MoonPhase =
    New | WaxingCrescent | FirstQuarter | WaxingGibbous |
    Full | WaningGibbous | LastQuarter | WaningCrescent

  /** The position of a label in the chain. */
  function Rank(p: MoonPhase): (k: nat)
    ensures k < 8
  {
    match p
    case New => 0
    case WaxingCrescent => 1
    case FirstQuarter => 2
    case WaxingGibbous => 3
    case Full => 4
    case WaningGibbous => 5
    case LastQuarter => 6
    case WaningCrescent => 7
  }

  /**
   * The conditional-expression chain on `moon.phase`: the label of rank `k`
   * covers `[25 k, 25 (k + 1))`, the first one also every value below and
   * the last one every value above.
   */
  function PhaseOf(phase: real): (p: MoonPhase)
    ensures Rank(p) > 0 ==> 25.0 * Rank(p) as real <= phase
    ensures Rank(p) < 7 ==> phase < 25.0 * (Rank(p) + 1) as real
  {
    if phase < 25.0 then New
    else if phase < 50.0 then WaxingCrescent
    else if phase < 75.0 then FirstQuarter
    else if phase < 100.0 then WaxingGibbous
    else if phase < 125.0 then Full
    else if phase < 150.0 then WaningGibbous
    else if phase < 175.0 then LastQuarter
    else WaningCrescent
  }

  /** A larger phase value never gets an earlier label. */
  lemma PhaseOfMonotone(p: real, q: real)
    requires p <= q
    ensures Rank(PhaseOf(p)) <= Rank(PhaseOf(q))
  {
  }

  /**
   * "New" exactly below 25, "Waning Crescent" exactly from 175, and in
   * between one label per band of 25: for a non-negative value the label's
   * rank is `min(7, floor(phase / 25))`.
   */
  lemma PhaseBands(phase: real)
    ensures PhaseOf(phase) == New <==> phase < 25.0
    ensures PhaseOf(phase) == WaningCrescent <==> phase >= 175.0
    ensures phase >= 0.0 ==> Rank(PhaseOf(phase)) == if (phase / 25.0).Floor < 7 then (phase / 25.0).Floor else 7
  {
  }

  /**
   * The ephemeris reports the illuminated percentage, in `[0, 100]`; the
   * chain then only ever reaches its first five labels, "Full" exactly at 100.
   */
  lemma IlluminationLabels(phase: real)
    requires 0.0 <= phase <= 100.0
    ensures Rank(PhaseOf(phase)) <= 4
    ensures PhaseOf(phase) == Full <==> phase == 100.0
  {
  }
}
