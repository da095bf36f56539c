/**
 * Aspect detection (`calculate_aspects` in
 * backend/src/utils/astro_calculator.py): the shorter arc between two
 * longitudes is matched against five target angles, each with an orb.
 */
module Aspects {
  import opened Wrappers
  import opened Degrees

  /** The keys of the `aspects` dict; each constructor stands for the key of the same name. */
  datatype Aspect = Conjunction | Sextile | Square | Trine | Opposition

  function Angle(a: Aspect): real {
    match a
    case Conjunction => 0.0
    case Sextile => 60.0
    case Square => 90.0
    case Trine => 120.0
    case Opposition => 180.0
  }

  /** The allowed deviation from the exact angle. */
  function Orb(a: Aspect): real {
    match a
    case Conjunction => 10.0
    case Sextile => 6.0
    case Square => 8.0
    case Trine => 8.0
    case Opposition => 10.0
  }

  /** The `aspects` dict in its insertion order, which is the order it is tried in. */
  function AspectOrder(): seq<Aspect> { [Conjunction, Sextile, Square, Trine, Opposition] }

  /** `abs(diff - angle) <= orb`. */
  predicate WithinOrb(diff: real, a: Aspect) {
    Abs(diff - Angle(a)) <= Orb(a)
  }

  /** The first aspect of `order` whose window holds `diff`. */
  function FirstWithin(diff: real, order: seq<Aspect>): (r: Option<Aspect>)
    ensures r.Some? ==> r.value in order && WithinOrb(diff, r.value)
    ensures r.None? <==> forall a :: a in order ==> !WithinOrb(diff, a)
  {
    if order == [] then None
    else if WithinOrb(diff, order[0]) then Some(order[0])
    else
      var r := FirstWithin(diff, order[1..]);
      assert forall a :: a in order ==> a == order[0] || a in order[1..];
      r
  }

  function AspectOf(diff: real): Option<Aspect> {
    FirstWithin(diff, AspectOrder())
  }

  /**
   * What `calculate_aspects` returns for two longitudes: an aspect whose
   * window holds their shorter arc, or None exactly when no window does.
   */
  function AspectBetween(lon1: real, lon2: real): (r: Option<Aspect>)
    ensures r.Some? ==> WithinOrb(ShortArc(lon1, lon2), r.value)
    ensures r.None? <==> forall a :: !WithinOrb(ShortArc(lon1, lon2), a)
  {
    forall a ensures a in AspectOrder() {
      EveryAspectTried(a);
    }
    AspectOf(ShortArc(lon1, lon2))
  }

  /**
   * The windows `[0,10]`, `[54,66]`, `[82,98]`, `[112,128]` and `[170,190]`
   * are pairwise disjoint, so at most one aspect holds at any distance.
   */
  lemma WindowsDisjoint(diff: real, a: Aspect, b: Aspect)
    requires WithinOrb(diff, a) && WithinOrb(diff, b)
    ensures a == b
  {
  }

  /** Every aspect is in the table. */
  lemma EveryAspectTried(b: Aspect)
    ensures b in AspectOrder()
  {
    match b
    case Conjunction => assert AspectOrder()[0] == b;
    case Sextile => assert AspectOrder()[1] == b;
    case Square => assert AspectOrder()[2] == b;
    case Trine => assert AspectOrder()[3] == b;
    case Opposition => assert AspectOrder()[4] == b;
  }

  /** The aspect found is the unique one whose window holds the distance; None when none does. */
  lemma AspectOfIsWindow(diff: real, a: Aspect)
    ensures AspectOf(diff) == Some(a) <==> WithinOrb(diff, a)
    ensures AspectOf(diff) == None <==> forall b :: !WithinOrb(diff, b)
  {
    forall b {
      EveryAspectTried(b);
    }
    if AspectOf(diff).Some? {
      if WithinOrb(diff, a) {
        WindowsDisjoint(diff, a, AspectOf(diff).value);
      }
    }
  }

  /** The order of the two bodies does not matter. */
  lemma AspectBetweenSymmetric(lon1: real, lon2: real)
    ensures AspectBetween(lon1, lon2) == AspectBetween(lon2, lon1)
  {
  }

  /** `calculate_aspects`: the loop over the dict with an early return. */
  method CalculateAspects(lon1: real, lon2: real) returns (aspect: Option<Aspect>)
    ensures aspect == AspectBetween(lon1, lon2)
  {
    var diff := Abs(lon1 - lon2);
    diff := if diff <= 360.0 - diff then diff else 360.0 - diff;
    var i := 0;
    while i < |AspectOrder()|
      invariant 0 <= i <= |AspectOrder()|
      invariant FirstWithin(diff, AspectOrder()) == FirstWithin(diff, AspectOrder()[i..])
    {
      var a := AspectOrder()[i];
      if Abs(diff - Angle(a)) <= Orb(a) {
        return Some(a);
      }
      assert AspectOrder()[i..][1..] == AspectOrder()[i + 1..];
      i := i + 1;
    }
    return None;
  }
}
