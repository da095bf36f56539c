/**
 * `calculate_human_design` of backend/src/utils/human_design.py: the type,
 * authority, profile and definition chosen by integer remainders, the gate
 * count drawn from the seed, the activated gates and centers, and the error
 * fallback. The seed and the date fields arrive as integers; the shuffled
 * list of gates and the stream of `random()` draws arrive as inputs.
 */
module HumanDesign {
  import Profile

  function Types(): seq<string> {
    ["Generator", "Projector", "Manifestor", "Reflector", "Manifesting Generator"]
  }

  function Authorities(): seq<string> {
    ["Sacral", "Emotional", "Splenic", "Ego", "Self", "Mental Projector", "Lunar"]
  }

  function Profiles(): seq<string> {
    ["1/3", "1/4", "2/4", "2/5", "3/5", "3/6", "4/6", "4/1", "5/1", "5/2", "6/2", "6/3"]
  }

  function Definitions(): seq<string> {
    ["Single", "Split", "Triple Split", "Quad Split"]
  }

  function Centers(): seq<string> {
    ["Head", "Ajna", "Throat", "G", "Heart", "Solar Plexus", "Sacral", "Spleen", "Root"]
  }

  /** The fields of the parsed birth moment, and the integer seed built from it and the location. */
  datatype Birth = Birth(seed: int, minute: int, day: int, month: int, year: int)

  /** The parsed input, or the message of the exception `strptime` raised. */
  datatype Parse = Parsed(birth: Birth) | Unparsable(message: string)

  datatype DesignResult =
    | Designed(hdType: string, authority: string, profile: string, definition: string,
               gates: seq<int>, centers: seq<string>)
    | Undetermined(error: string, hdType: string, authority: string)

  // ------------------------------------------------------------ selection

  /** `k` is the residue of `x` modulo `n`: they differ by a multiple of `n`. */
  ghost predicate Congruent(x: int, k: int, n: int) {
    exists q: int :: x == q * n + k
  }

  /**
   * Python's `x % n` for a positive `n`: the residue of `x` in `[0, n)`,
   * also for a negative `x` (Dafny's `%` agrees with Python's here).
   */
  function Residue(x: int, n: nat): (k: nat)
    requires n > 0
    ensures k < n && Congruent(x, k, n)
  {
    assert x == (x / n) * n + x % n;
    x % n
  }

  /** `types[seed % len(types)]`: the type listed at the position congruent to the seed. */
  function TypeOf(seed: int): (t: string)
    ensures exists k :: 0 <= k < |Types()| && Congruent(seed, k, |Types()|) && t == Types()[k]
  {
    Types()[Residue(seed, |Types()|)]
  }

  /**
   * Authority depends on type: Sacral for the two Generator types, Lunar for
   * Reflector, and for every other type the authority among the first five
   * at the position congruent to the minute.
   */
  function AuthorityOf(hdType: string, minute: int): (a: string)
    ensures hdType == "Generator" || hdType == "Manifesting Generator" ==> a == "Sacral"
    ensures hdType == "Reflector" ==> a == "Lunar"
    ensures hdType !in {"Generator", "Manifesting Generator", "Reflector"} ==>
      exists k :: 0 <= k < 5 && Congruent(minute, k, 5) && a == Authorities()[k]
  {
    if hdType == "Generator" || hdType == "Manifesting Generator" then "Sacral"
    else if hdType == "Reflector" then "Lunar"
    else Authorities()[Residue(minute, |Authorities()| - 2)]
  }

  /** `profiles[(day + month) % 12]`. */
  function ProfileOf(day: int, month: int): (p: string)
    ensures exists k :: 0 <= k < |Profiles()| && Congruent(day + month, k, |Profiles()|) && p == Profiles()[k]
  {
    Profiles()[Residue(day + month, |Profiles()|)]
  }

  /** `definitions[year % 4]`. */
  function DefinitionOf(year: int): (d: string)
    ensures exists k :: 0 <= k < |Definitions()| && Congruent(year, k, |Definitions()|) && d == Definitions()[k]
  {
    Definitions()[Residue(year, |Definitions()|)]
  }

  /** `15 + seed % 10`: a count in `[15, 24]` congruent to `15 + seed` modulo 10. */
  function GateCount(seed: int): (n: nat)
    ensures 15 <= n <= 24 && Congruent(seed, n - 15, 10)
  {
    15 + Residue(seed, 10)
  }

  /** The residue picks out a single position: whatever is congruent and in range is the residue. */
  lemma ResidueUnique(x: int, n: nat, k: int)
    requires n > 0 && 0 <= k < n && Congruent(x, k, n)
    ensures k == Residue(x, n)
  {
    var q :| x == q * n + k;
    var r := Residue(x, n);
    var p :| x == p * n + r;
    assert (q - p) * n == q * n - p * n;
    NoSmallMultiple(q - p, n);
  }

  /** The only multiple of `n` strictly between `-n` and `n` is zero. */
  lemma NoSmallMultiple(d: int, n: int)
    requires n > 0 && -n < d * n < n
    ensures d == 0
  {
  }

  /** The seed's type is always one of the five design types, whatever its sign. */
  lemma TypeIsListed(seed: int)
    ensures TypeOf(seed) in Types()
    ensures Profile.IsDesignType(TypeOf(seed))
  {
    var k := Residue(seed, 5);
    assert k == 0 || k == 1 || k == 2 || k == 3 || k == 4;
  }

  /** Projectors and Manifestors never get "Mental Projector" or "Lunar". */
  lemma AuthorityByType(hdType: string, minute: int)
    ensures hdType == "Projector" || hdType == "Manifestor" ==>
      AuthorityOf(hdType, minute) in Authorities()[..5] &&
      AuthorityOf(hdType, minute) != "Mental Projector" && AuthorityOf(hdType, minute) != "Lunar"
  {
    var k := Residue(minute, 5);
    assert k == 0 || k == 1 || k == 2 || k == 3 || k == 4;
    assert Authorities()[k] in Authorities()[..5];
  }

  // ---------------------------------------------------------------- gates

  predicate Ascending(s: seq<int>) {
    forall i, j :: 0 <= i < j < |s| ==> s[i] <= s[j]
  }

  predicate Increasing(s: seq<int>) {
    forall i, j :: 0 <= i < j < |s| ==> s[i] < s[j]
  }

  predicate Distinct<T(==)>(s: seq<T>) {
    forall i, j :: 0 <= i < j < |s| ==> s[i] != s[j]
  }

  /** Every element of `s` is at least `b`. */
  predicate LowerBound(b: int, s: seq<int>) {
    forall i :: 0 <= i < |s| ==> b <= s[i]
  }

  /** A bound of `t` and of `x` bounds every list with the elements of `t` plus `x`. */
  lemma LowerBoundOfInsert(b: int, x: int, t: seq<int>, r: seq<int>)
    requires LowerBound(b, t) && b <= x && multiset(r) == multiset(t) + multiset{x}
    ensures LowerBound(b, r)
  {
    forall i | 0 <= i < |r| ensures b <= r[i] {
      assert r[i] in multiset(r);
      if r[i] != x {
        assert r[i] in multiset(t);
        var j :| 0 <= j < |t| && t[j] == r[i];
      }
    }
  }

  lemma AscendingCons(h: int, t: seq<int>)
    requires Ascending(t) && LowerBound(h, t)
    ensures Ascending([h] + t)
  {
    var r := [h] + t;
    forall i, j | 0 <= i < j < |r| ensures r[i] <= r[j] {
      assert r[j] == t[j - 1];
      if i > 0 {
        assert r[i] == t[i - 1];
      }
    }
  }

  /** `x` placed before the first element of `s` that is not smaller. */
  function Insert(x: int, s: seq<int>): (r: seq<int>)
    requires Ascending(s)
    ensures Ascending(r)
    ensures multiset(r) == multiset(s) + multiset{x}
  {
    if s == [] || x <= s[0] then
      assert LowerBound(x, s);
      AscendingCons(x, s);
      [x] + s
    else
      var t := s[1..];
      var rest := Insert(x, t);
      assert s == [s[0]] + t;
      assert LowerBound(s[0], t);
      LowerBoundOfInsert(s[0], x, t, rest);
      AscendingCons(s[0], rest);
      [s[0]] + rest
  }

  lemma IncreasingCons(h: int, t: seq<int>)
    requires Increasing(t) && LowerBound(h + 1, t)
    ensures Increasing([h] + t)
  {
    var r := [h] + t;
    forall i, j | 0 <= i < j < |r| ensures r[i] < r[j] {
      assert r[j] == t[j - 1];
      if i > 0 {
        assert r[i] == t[i - 1];
      }
    }
  }

  /** Inserting a new element into a strictly increasing list keeps it strictly increasing. */
  lemma {:induction false} InsertIncreasing(x: int, s: seq<int>)
    requires Increasing(s) && x !in s
    ensures Increasing(Insert(x, s))
  {
    if s == [] || x <= s[0] {
      assert LowerBound(x + 1, s);
      IncreasingCons(x, s);
    } else {
      var t := s[1..];
      assert s == [s[0]] + t;
      InsertIncreasing(x, t);
      var rest := Insert(x, t);
      assert LowerBound(s[0] + 1, t);
      LowerBoundOfInsert(s[0] + 1, x, t, rest);
      IncreasingCons(s[0], rest);
    }
  }

  /** Python's `sorted` on a list of integers. */
  function Sort(s: seq<int>): (r: seq<int>)
    ensures Ascending(r)
    ensures multiset(r) == multiset(s)
  {
    if s == [] then [] else
      assert s == [s[0]] + s[1..];
      Insert(s[0], Sort(s[1..]))
  }

  /** Sorting a list without repeats gives a strictly increasing list. */
  lemma {:induction false} SortDistinct(s: seq<int>)
    requires Distinct(s)
    ensures Increasing(Sort(s))
  {
    if s != [] {
      assert s == [s[0]] + s[1..];
      SortDistinct(s[1..]);
      assert s[0] !in multiset(Sort(s[1..]));
      InsertIncreasing(s[0], Sort(s[1..]));
    }
  }

  /** The list `random.shuffle` leaves behind: every gate 1..64 exactly once. */
  predicate IsGatePermutation(shuffled: seq<int>) {
    |shuffled| == 64 && Distinct(shuffled) && forall i :: 0 <= i < |shuffled| ==> 1 <= shuffled[i] <= 64
  }

  /** `sorted(all_gates[:num_gates])`; a slice past the end stops at the end. */
  function GatesOf(shuffled: seq<int>, count: nat): (gates: seq<int>)
    ensures var n := if count <= |shuffled| then count else |shuffled|;
      |gates| == n && Ascending(gates) && multiset(gates) == multiset(shuffled[..n])
  {
    var prefix := shuffled[..if count <= |shuffled| then count else |shuffled|];
    var gates := Sort(prefix);
    assert |gates| == |multiset(gates)| == |multiset(prefix)| == |prefix|;
    gates
  }

  /**
   * The gates are strictly increasing, within 1..64, as many as the gate
   * count, and exactly the first `count` gates of the shuffled list.
   */
  lemma GatesShape(shuffled: seq<int>, count: nat)
    requires IsGatePermutation(shuffled) && count <= 64
    ensures Increasing(GatesOf(shuffled, count))
    ensures |GatesOf(shuffled, count)| == count
    ensures forall i :: 0 <= i < count ==> 1 <= GatesOf(shuffled, count)[i] <= 64
    ensures forall g :: g in GatesOf(shuffled, count) <==> g in shuffled[..count]
  {
    var prefix := shuffled[..count];
    assert Distinct(prefix);
    SortDistinct(prefix);
    var r := GatesOf(shuffled, count);
    assert |r| == |multiset(r)| == |multiset(prefix)| == count;
    forall g ensures g in r <==> g in prefix {
      assert g in r <==> g in multiset(r);
      assert g in prefix <==> g in multiset(prefix);
    }
    forall i | 0 <= i < count ensures 1 <= r[i] <= 64 {
      assert r[i] in prefix;
    }
  }

  // -------------------------------------------------------------- centers

  /** The centers among the first `n` of `centers` whose draw came out below one half, in order. */
  function ActiveAmong(centers: seq<string>, draw: nat -> real, n: nat): seq<string>
    requires n <= |centers|
  {
    if n == 0 then [] else
      ActiveAmong(centers, draw, n - 1) + if draw(n - 1) < 0.5 then [centers[n - 1]] else []
  }

  /** The indices of those centers, in the same order. */
  function ActiveIndices(draw: nat -> real, n: nat): seq<nat> {
    if n == 0 then [] else
      ActiveIndices(draw, n - 1) + if draw(n - 1) < 0.5 then [n - 1] else []
  }

  /** The `for center in centers` loop; `draw(k)` is the `k`-th `random()` value. */
  method ActivateCenters(draw: nat -> real) returns (active: seq<string>)
    ensures active == ActiveAmong(Centers(), draw, |Centers()|)
  {
    var centers := Centers();
    active := [];
    var k := 0;
    while k < |centers|
      invariant 0 <= k <= |centers|
      invariant active == ActiveAmong(centers, draw, k)
    {
      if draw(k) < 0.5 {
        active := active + [centers[k]];
      }
      k := k + 1;
    }
  }

  /** The active centers are the centers at the active indices, all below `n`. */
  lemma {:induction false} ActiveIndicesMatch(centers: seq<string>, draw: nat -> real, n: nat)
    requires n <= |centers|
    ensures |ActiveIndices(draw, n)| == |ActiveAmong(centers, draw, n)|
    ensures forall p :: 0 <= p < |ActiveIndices(draw, n)| ==>
      ActiveIndices(draw, n)[p] < n && ActiveAmong(centers, draw, n)[p] == centers[ActiveIndices(draw, n)[p]]
  {
    if n > 0 {
      ActiveIndicesMatch(centers, draw, n - 1);
    }
  }

  /** The active indices strictly increase and stay below `n`. */
  lemma {:induction false} ActiveIndicesIncreasing(draw: nat -> real, n: nat)
    ensures forall p :: 0 <= p < |ActiveIndices(draw, n)| ==> ActiveIndices(draw, n)[p] < n
    ensures forall p, q :: 0 <= p < q < |ActiveIndices(draw, n)| ==> ActiveIndices(draw, n)[p] < ActiveIndices(draw, n)[q]
  {
    if n > 0 {
      ActiveIndicesIncreasing(draw, n - 1);
    }
  }

  /** An index is active exactly when it is below `n` and its draw is below one half. */
  lemma {:induction false} ActiveIndicesMembers(draw: nat -> real, n: nat)
    ensures forall k: nat :: k in ActiveIndices(draw, n) <==> k < n && draw(k) < 0.5
  {
    if n > 0 {
      ActiveIndicesMembers(draw, n - 1);
    }
  }

  /**
   * The active centers are the centers at a strictly increasing run of
   * indices below `n`, exactly the indices whose draw is below one half.
   */
  lemma ActiveAmongIsSubsequence(centers: seq<string>, draw: nat -> real, n: nat)
    requires n <= |centers|
    ensures |ActiveIndices(draw, n)| == |ActiveAmong(centers, draw, n)|
    ensures forall p :: 0 <= p < |ActiveIndices(draw, n)| ==>
      ActiveIndices(draw, n)[p] < n && ActiveAmong(centers, draw, n)[p] == centers[ActiveIndices(draw, n)[p]]
    ensures forall p, q :: 0 <= p < q < |ActiveIndices(draw, n)| ==> ActiveIndices(draw, n)[p] < ActiveIndices(draw, n)[q]
    ensures forall k: nat :: k in ActiveIndices(draw, n) <==> k < n && draw(k) < 0.5
  {
    ActiveIndicesMatch(centers, draw, n);
    ActiveIndicesIncreasing(draw, n);
    ActiveIndicesMembers(draw, n);
  }

  lemma CentersDistinct()
    ensures Distinct(Centers())
  {
  }

  /**
   * With distinct centers, no center is activated twice, and a center is
   * active exactly when its draw is below one half.
   */
  lemma ActiveCentersDistinct(centers: seq<string>, draw: nat -> real)
    requires Distinct(centers)
    ensures Distinct(ActiveAmong(centers, draw, |centers|))
    ensures forall k :: 0 <= k < |centers| ==> (centers[k] in ActiveAmong(centers, draw, |centers|) <==> draw(k) < 0.5)
  {
    var n := |centers|;
    ActiveAmongIsSubsequence(centers, draw, n);
    var idx := ActiveIndices(draw, n);
    var act := ActiveAmong(centers, draw, n);
    forall k | 0 <= k < n ensures centers[k] in act <==> draw(k) < 0.5 {
      if centers[k] in act {
        var p :| 0 <= p < |act| && act[p] == centers[k];
        assert idx[p] == k;
        assert idx[p] in idx;
      }
      if draw(k) < 0.5 {
        assert k in idx;
        var p :| 0 <= p < |idx| && idx[p] == k;
        assert act[p] == centers[k];
      }
    }
  }

  // --------------------------------------------------------------- result

  /** The dictionary `calculate_human_design` returns. */
  function DesignOf(input: Parse, shuffled: seq<int>, draw: nat -> real): (d: DesignResult)
    ensures d.Undetermined? <==> input.Unparsable?
    ensures input.Unparsable? ==> d == Undetermined(input.message, "Unknown", "Unknown")
    ensures input.Parsed? ==>
      d.authority == AuthorityOf(d.hdType, input.birth.minute) &&
      d.profile in Profiles() && d.definition in Definitions() && Ascending(d.gates)
  {
    match input
    case Unparsable(message) => Undetermined(message, "Unknown", "Unknown")
    case Parsed(b) =>
      var hdType := TypeOf(b.seed);
      Designed(hdType, AuthorityOf(hdType, b.minute), ProfileOf(b.day, b.month), DefinitionOf(b.year),
               GatesOf(shuffled, GateCount(b.seed)), ActiveAmong(Centers(), draw, |Centers()|))
  }

  method CalculateHumanDesign(input: Parse, shuffled: seq<int>, draw: nat -> real) returns (d: DesignResult)
    ensures d == DesignOf(input, shuffled, draw)
  {
    if input.Unparsable? {
      return Undetermined(input.message, "Unknown", "Unknown");
    }
    var b := input.birth;
    var types := Types();
    var hdType := types[b.seed % |types|];
    assert hdType == TypeOf(b.seed);
    var authority: string;
    if hdType == "Generator" || hdType == "Manifesting Generator" {
      authority := "Sacral";
    } else if hdType == "Reflector" {
      authority := "Lunar";
    } else {
      var authorities := Authorities();
      authority := authorities[b.minute % (|authorities| - 2)];
    }
    assert authority == AuthorityOf(hdType, b.minute);
    var profiles := Profiles();
    var profile := profiles[(b.day + b.month) % |profiles|];
    assert profile == ProfileOf(b.day, b.month);
    var definitions := Definitions();
    var definition := definitions[b.year % |definitions|];
    assert definition == DefinitionOf(b.year);
    var count := 15 + b.seed % 10;
    var n := if count <= |shuffled| then count else |shuffled|;
    var gates := Sort(shuffled[..n]);
    assert gates == GatesOf(shuffled, GateCount(b.seed));
    var centers := ActivateCenters(draw);
    d := Designed(hdType, authority, profile, definition, gates, centers);
  }

  /**
   * For a shuffle of all 64 gates, a parsed birth always yields a listed
   * type, a real authority, 15 to 24 strictly increasing gates and no
   * center twice.
   */
  lemma DesignFields(input: Parse, shuffled: seq<int>, draw: nat -> real)
    requires IsGatePermutation(shuffled)
    ensures input.Parsed? ==>
      var d := DesignOf(input, shuffled, draw);
      Profile.IsDesignType(d.hdType) && d.authority != "Unknown" &&
      Increasing(d.gates) && 15 <= |d.gates| <= 24 && Distinct(d.centers)
  {
    if input.Parsed? {
      var b := input.birth;
      TypeIsListed(b.seed);
      AuthorityByType(TypeOf(b.seed), b.minute);
      GatesShape(shuffled, GateCount(b.seed));
      CentersDistinct();
      ActiveCentersDistinct(Centers(), draw);
    }
  }
}
