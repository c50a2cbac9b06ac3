/** What a comparison of two arms reports (eval/compare.go), and what becomes of it when the arms are
    swapped. */
module Comparison {
  import opened EvalResults
  import opened Ordering
  import opened Compare

  // ---- paired differences ----

  datatype DeltaStats = DeltaStats(delta: real, n: nat)

  /** The cases both arms have, in order. */
  ghost function Shared<T>(b: map<PairKey, seq<T>>, e: map<PairKey, seq<T>>): (cases: seq<PairKey>)
    ensures forall k :: k in cases <==> k in b && k in e
  {
    var cases := SortedCases(b.Keys * e.Keys);
    assert forall k :: k in cases <==> k in Elements(cases);
    cases
  }

  lemma SharedIsSymmetric<T>(b: map<PairKey, seq<T>>, e: map<PairKey, seq<T>>)
    ensures Shared(b, e) == Shared(e, b)
  {
    assert b.Keys * e.Keys == e.Keys * b.Keys;
  }

  function Diffs(cases: seq<PairKey>, b: map<PairKey, seq<real>>, e: map<PairKey, seq<real>>): (diffs: seq<real>)
    ensures |diffs| == |cases| && forall i | 0 <= i < |cases| :: diffs[i] == Mean(At(e, cases[i])) - Mean(At(b, cases[i]))
  {
    seq(|cases|, i requires 0 <= i < |cases| => Mean(At(e, cases[i])) - Mean(At(b, cases[i])))
  }

  /** The mean over the shared cases of the difference of their means, one difference a case. */
  ghost function PairedDeltaOf(b: map<PairKey, seq<real>>, e: map<PairKey, seq<real>>): Option<DeltaStats> {
    var cases := Shared(b, e);
    if cases == [] then None else Some(DeltaStats(Mean(Diffs(cases, b, e)), |cases|))
  }

  lemma DeltaSwaps(b: map<PairKey, seq<real>>, e: map<PairKey, seq<real>>)
    ensures PairedDeltaOf(e, b).Some? <==> PairedDeltaOf(b, e).Some?
    ensures PairedDeltaOf(b, e).Some? ==> PairedDeltaOf(e, b).value == DeltaStats(-PairedDeltaOf(b, e).value.delta, PairedDeltaOf(b, e).value.n)
  {
    SharedIsSymmetric(b, e);
    var cases := Shared(b, e);
    MeanNegated(Diffs(cases, b, e), Diffs(cases, e, b));
  }

  method SharedCases<T>(b: map<PairKey, seq<T>>, e: map<PairKey, seq<T>>) returns (cases: seq<PairKey>)
    ensures cases == Shared(b, e)
  {
    PairsAreOrdered();
    var keys := set k | k in e && k in b;
    assert keys == b.Keys * e.Keys;
    cases := Sort(keys, PairLess);
  }

  method PairedDelta(base: seq<ObservationResult>, exp: seq<ObservationResult>, keyer: Keyer, metric: string, ghost b: map<PairKey, seq<real>>, ghost e: map<PairKey, seq<real>>)
    returns (stats: Option<DeltaStats>)
    requires IsTable(b, base, keyer, ValuePick(metric)) && IsTable(e, exp, keyer, ValuePick(metric))
    ensures stats == PairedDeltaOf(b, e)
  {
    hide IsTable, Mean;
    var baseVals := SuccessfulScores(base, keyer, metric);
    var expVals := SuccessfulScores(exp, keyer, metric);
    TableIsUnique(baseVals, b, base, keyer, ValuePick(metric));
    TableIsUnique(expVals, e, exp, keyer, ValuePick(metric));
    var keys := SharedCases(baseVals, expVals);
    if |keys| == 0 {
      return None;
    }
    var diffs: seq<real> := [];
    var i := 0;
    while i < |keys|
      invariant i <= |keys| && |diffs| == i
      invariant forall j | 0 <= j < i :: diffs[j] == Mean(At(e, keys[j])) - Mean(At(b, keys[j]))
    {
      diffs := diffs + [Mean(At(expVals, keys[i])) - Mean(At(baseVals, keys[i]))];
      i := i + 1;
    }
    assert diffs == Diffs(keys, b, e);
    stats := Some(DeltaStats(Mean(diffs), |diffs|));
  }

  lemma TableIsUnique<T>(x: map<PairKey, seq<T>>, y: map<PairKey, seq<T>>, results: seq<ObservationResult>, keyer: Keyer, pick: Score -> Option<T>)
    requires IsTable(x, results, keyer, pick) && IsTable(y, results, keyer, pick)
    ensures x == y
  {
    assert forall k :: k in x <==> k in y;
    assert forall k | k in x :: At(x, k) == At(y, k);
  }

  // ---- paired verdicts ----

  datatype Pairs = Pairs(both: nat, onlyA: nat, onlyB: nat, neither: nat) {
    function N(): nat {
      both + onlyA + onlyB + neither
    }

    function Swapped(): Pairs {
      Pairs(both, onlyB, onlyA, neither)
    }

    /** One more case, with a verdict on each arm. */
    function With(b: bool, e: bool): Pairs {
      if b && e then this.(both := both + 1) else if b then this.(onlyA := onlyA + 1) else if e then this.(onlyB := onlyB + 1) else this.(neither := neither + 1)
    }
  }

  /** Verdicts of one sample a case are counted in pairs, and others as pass rates by case. */
  datatype PassStats = PassStats(pairs: Option<Pairs>, base: real, exp: real, diff: real)

  function Share(n: int, total: nat): real {
    if total == 0 then 0.0 else (n as real) / (total as real)
  }

  function CountTrue(vs: seq<bool>): nat {
    if vs == [] then 0 else CountTrue(vs[..|vs| - 1]) + (if vs[|vs| - 1] then 1 else 0)
  }

  function Rate(vs: seq<bool>): real {
    Share(CountTrue(vs), |vs|)
  }

  type VerdictTable = map<PairKey, seq<bool>>

  predicate Single(cases: seq<PairKey>, bv: VerdictTable, ev: VerdictTable) {
    forall k | k in cases :: |At(bv, k)| == 1 && |At(ev, k)| == 1
  }

  function PairsOf(cases: seq<PairKey>, bv: VerdictTable, ev: VerdictTable): Pairs
    requires Single(cases, bv, ev)
  {
    if cases == [] then Pairs(0, 0, 0, 0) else
      var n := |cases| - 1;
      PairsOf(cases[..n], bv, ev).With(At(bv, cases[n])[0], At(ev, cases[n])[0])
  }

  lemma {:induction false} PairsSwap(cases: seq<PairKey>, bv: VerdictTable, ev: VerdictTable)
    requires Single(cases, bv, ev)
    ensures PairsOf(cases, ev, bv) == PairsOf(cases, bv, ev).Swapped()
  {
    if cases != [] {
      PairsSwap(cases[..|cases| - 1], bv, ev);
    }
  }

  /** Every case is in one pair. */
  lemma {:induction false} PairsCountCases(cases: seq<PairKey>, bv: VerdictTable, ev: VerdictTable)
    requires Single(cases, bv, ev)
    ensures PairsOf(cases, bv, ev).N() == |cases|
  {
    if cases != [] {
      PairsCountCases(cases[..|cases| - 1], bv, ev);
    }
  }

  lemma FromPairsSwap(p: Pairs)
    ensures PassesSwapped(FromPairs(p), FromPairs(p.Swapped()))
  {
    assert p.onlyA - p.onlyB == -(p.onlyB - p.onlyA);
    ShareNegated(p.onlyB - p.onlyA, p.N());
    hide Share;
  }

  function FromPairs(p: Pairs): PassStats {
    PassStats(Some(p), Share(p.both + p.onlyA, p.N()), Share(p.both + p.onlyB, p.N()), Share(p.onlyB - p.onlyA, p.N()))
  }

  function Rates(cases: seq<PairKey>, v: VerdictTable): (rates: seq<real>)
    ensures |rates| == |cases| && forall i | 0 <= i < |cases| :: rates[i] == Rate(At(v, cases[i]))
  {
    seq(|cases|, i requires 0 <= i < |cases| => Rate(At(v, cases[i])))
  }

  function RateDiffs(cases: seq<PairKey>, bv: VerdictTable, ev: VerdictTable): (diffs: seq<real>)
    ensures |diffs| == |cases| && forall i | 0 <= i < |cases| :: diffs[i] == Rate(At(ev, cases[i])) - Rate(At(bv, cases[i]))
  {
    seq(|cases|, i requires 0 <= i < |cases| => Rate(At(ev, cases[i])) - Rate(At(bv, cases[i])))
  }

  function FromRates(cases: seq<PairKey>, bv: VerdictTable, ev: VerdictTable): PassStats {
    PassStats(None, Mean(Rates(cases, bv)), Mean(Rates(cases, ev)), Mean(RateDiffs(cases, bv, ev)))
  }

  ghost function PassesOf(bv: VerdictTable, ev: VerdictTable): Option<PassStats> {
    var cases := Shared(bv, ev);
    if cases == [] then None
    else if Single(cases, bv, ev) then Some(FromPairs(PairsOf(cases, bv, ev)))
    else Some(FromRates(cases, bv, ev))
  }

  /** Swapping the arms swaps their rates and the discordant counts, and negates the difference. */
  ghost predicate PassesSwapped(x: PassStats, y: PassStats) {
    && y.base == x.exp && y.exp == x.base && y.diff == -x.diff
    && (x.pairs.Some? <==> y.pairs.Some?) && (x.pairs.Some? ==> y.pairs.value == x.pairs.value.Swapped())
  }

  lemma PassesSwap(bv: VerdictTable, ev: VerdictTable)
    ensures PassesOf(bv, ev).Some? <==> PassesOf(ev, bv).Some?
    ensures PassesOf(bv, ev).Some? ==> PassesSwapped(PassesOf(bv, ev).value, PassesOf(ev, bv).value)
  {
    hide Rate, FromPairs, PairsOf, Mean;
    SharedIsSymmetric(bv, ev);
    var cases := Shared(bv, ev);
    if Single(cases, bv, ev) {
      PairsSwap(cases, bv, ev);
      FromPairsSwap(PairsOf(cases, bv, ev));
    } else {
      MeanNegated(RateDiffs(cases, bv, ev), RateDiffs(cases, ev, bv));
    }
  }

  lemma ShareNegated(n: int, total: nat)
    ensures Share(-n, total) == -Share(n, total)
  {}

  method PairedPasses(bv: VerdictTable, ev: VerdictTable) returns (stats: Option<PassStats>)
    ensures stats == PassesOf(bv, ev)
  {
    hide Mean, Rate, PairsOf, Shared;
    var cases := SharedCases(bv, ev);
    if |cases| == 0 {
      return None;
    }
    var single, i := true, 0;
    while i < |cases| && single
      invariant i <= |cases|
      invariant single <==> forall j | 0 <= j < i :: |At(bv, cases[j])| == 1 && |At(ev, cases[j])| == 1
    {
      single := |At(bv, cases[i])| == 1 && |At(ev, cases[i])| == 1;
      i := i + 1;
    }
    assert single <==> Single(cases, bv, ev) by {
      assert forall j | 0 <= j < |cases| :: cases[j] in cases;
    }
    if single {
      var p := McNemarPairs(cases, bv, ev);
      return Some(FromPairs(p));
    }
    var r := CaseRatePasses(cases, bv, ev);
    return Some(r);
  }

  method CaseRatePasses(cases: seq<PairKey>, bv: VerdictTable, ev: VerdictTable) returns (stats: PassStats)
    ensures stats == FromRates(cases, bv, ev)
  {
    hide Mean, Rate;
    var baseRates: seq<real>, expRates: seq<real>, diffs: seq<real> := [], [], [];
    var i := 0;
    while i < |cases|
      invariant i <= |cases| && |baseRates| == |expRates| == |diffs| == i
      invariant forall j | 0 <= j < i :: baseRates[j] == Rate(At(bv, cases[j])) && expRates[j] == Rate(At(ev, cases[j])) && diffs[j] == expRates[j] - baseRates[j]
    {
      baseRates, expRates := baseRates + [Rate(At(bv, cases[i]))], expRates + [Rate(At(ev, cases[i]))];
      diffs := diffs + [expRates[i] - baseRates[i]];
      i := i + 1;
    }
    assert baseRates == Rates(cases, bv) && expRates == Rates(cases, ev) && diffs == RateDiffs(cases, bv, ev);
    stats := PassStats(None, Mean(baseRates), Mean(expRates), Mean(diffs));
  }

  method McNemarPairs(cases: seq<PairKey>, bv: VerdictTable, ev: VerdictTable) returns (p: Pairs)
    requires Single(cases, bv, ev)
    ensures p == PairsOf(cases, bv, ev)
  {
    hide PairsOf, Single, At;
    p := Pairs(0, 0, 0, 0);
    var i := 0;
    NoPairs(cases, bv, ev);
    while i < |cases|
      invariant i <= |cases| && Single(cases[..i], bv, ev) && p == PairsOf(cases[..i], bv, ev)
    {
      PairsStep(cases, i, bv, ev);
      p := p.With(At(bv, cases[i])[0], At(ev, cases[i])[0]);
      i := i + 1;
    }
    assert cases[..i] == cases;
  }

  lemma NoPairs(cases: seq<PairKey>, bv: VerdictTable, ev: VerdictTable)
    ensures Single(cases[..0], bv, ev) && PairsOf(cases[..0], bv, ev) == Pairs(0, 0, 0, 0)
  {}

  lemma PairsStep(cases: seq<PairKey>, i: nat, bv: VerdictTable, ev: VerdictTable)
    requires i < |cases| && Single(cases, bv, ev)
    ensures Single(cases[..i], bv, ev) && Single(cases[..i + 1], bv, ev) && |At(bv, cases[i])| == 1 && |At(ev, cases[i])| == 1
    ensures PairsOf(cases[..i + 1], bv, ev) == PairsOf(cases[..i], bv, ev).With(At(bv, cases[i])[0], At(ev, cases[i])[0])
  {
    assert cases[..i + 1][..i] == cases[..i];
    assert cases[i] in cases;
  }

  // ---- what the counts and rates say ----

  /** The places of the cases with these verdicts on the two arms. */
  ghost function Agreeing(cases: seq<PairKey>, bv: VerdictTable, ev: VerdictTable, b: bool, e: bool): set<nat> {
    set i: nat | i < |cases| && At(bv, cases[i]) == [b] && At(ev, cases[i]) == [e]
  }

  /** The places of the cases an arm passes. */
  ghost function PassedBy(cases: seq<PairKey>, v: VerdictTable): set<nat> {
    set i: nat | i < |cases| && At(v, cases[i]) == [true]
  }

  lemma OneMore(after: set<nat>, before: set<nat>, n: nat, last: bool)
    requires n !in before && forall i :: i in after <==> i in before || (last && i == n)
    ensures |after| == |before| + (if last then 1 else 0)
  {
    assert after == if last then before + {n} else before;
  }

  lemma AgreeingMore(cases: seq<PairKey>, bv: VerdictTable, ev: VerdictTable, b: bool, e: bool)
    requires cases != []
    ensures var n := |cases| - 1; var last := At(bv, cases[n]) == [b] && At(ev, cases[n]) == [e];
      |Agreeing(cases, bv, ev, b, e)| == |Agreeing(cases[..n], bv, ev, b, e)| + (if last then 1 else 0)
  {
    hide At;
    var n := |cases| - 1;
    var before := Agreeing(cases[..n], bv, ev, b, e);
    assert forall i: nat | i < n :: cases[..n][i] == cases[i];
    OneMore(Agreeing(cases, bv, ev, b, e), before, n, At(bv, cases[n]) == [b] && At(ev, cases[n]) == [e]);
  }

  /** Each count is the number of cases with those two verdicts. */
  lemma {:induction false} PairsCountVerdicts(cases: seq<PairKey>, bv: VerdictTable, ev: VerdictTable)
    requires Single(cases, bv, ev)
    ensures var p := PairsOf(cases, bv, ev);
      && p.both == |Agreeing(cases, bv, ev, true, true)| && p.onlyA == |Agreeing(cases, bv, ev, true, false)|
      && p.onlyB == |Agreeing(cases, bv, ev, false, true)| && p.neither == |Agreeing(cases, bv, ev, false, false)|
  {
    if cases != [] {
      var n := |cases| - 1;
      PairsCountVerdicts(cases[..n], bv, ev);
      AgreeingMore(cases, bv, ev, true, true);
      AgreeingMore(cases, bv, ev, true, false);
      AgreeingMore(cases, bv, ev, false, true);
      AgreeingMore(cases, bv, ev, false, false);
      assert cases[n] in cases;
      var b, e := At(bv, cases[n])[0], At(ev, cases[n])[0];
      assert At(bv, cases[n]) == [b] && At(ev, cases[n]) == [e];
      hide Agreeing, At, Single;
    }
  }

  lemma PassedIsPaired(cases: seq<PairKey>, bv: VerdictTable, ev: VerdictTable)
    requires Single(cases, bv, ev)
    ensures |PassedBy(cases, bv)| == |Agreeing(cases, bv, ev, true, true)| + |Agreeing(cases, bv, ev, true, false)|
    ensures |PassedBy(cases, ev)| == |Agreeing(cases, bv, ev, true, true)| + |Agreeing(cases, bv, ev, false, true)|
  {
    forall i: nat | i < |cases|
      ensures At(bv, cases[i]) == [true] || At(bv, cases[i]) == [false]
      ensures At(ev, cases[i]) == [true] || At(ev, cases[i]) == [false]
    {
      assert cases[i] in cases;
      OneVerdict(At(bv, cases[i]));
      OneVerdict(At(ev, cases[i]));
    }
    hide At, Single;
    TwoParts(PassedBy(cases, bv), Agreeing(cases, bv, ev, true, true), Agreeing(cases, bv, ev, true, false));
    TwoParts(PassedBy(cases, ev), Agreeing(cases, bv, ev, true, true), Agreeing(cases, bv, ev, false, true));
  }

  lemma OneVerdict(vs: seq<bool>)
    requires |vs| == 1
    ensures vs == [true] || vs == [false]
  {
    assert vs == if vs[0] then [true] else [false];
  }

  lemma TwoParts(whole: set<nat>, a: set<nat>, b: set<nat>)
    requires a !! b && forall i :: i in whole <==> i in a || i in b
    ensures |whole| == |a| + |b|
  {
    assert whole == a + b;
  }

  /** The places of the verdicts that pass. */
  ghost function Passing(vs: seq<bool>): set<nat> {
    set i: nat | i < |vs| && vs[i]
  }

  /** A rate is the share of the verdicts that pass. */
  lemma {:induction false} RateIsShare(vs: seq<bool>)
    ensures CountTrue(vs) == |Passing(vs)|
    ensures vs != [] ==> Rate(vs) * (|vs| as real) == |Passing(vs)| as real
  {
    if vs != [] {
      var n := |vs| - 1;
      RateIsShare(vs[..n]);
      PassingMore(vs);
      hide Passing;
      ShareOf(CountTrue(vs), |vs|);
      hide Share;
    }
  }

  lemma PassingMore(vs: seq<bool>)
    requires vs != []
    ensures var n := |vs| - 1; |Passing(vs)| == |Passing(vs[..n])| + (if vs[n] then 1 else 0)
  {
    var n := |vs| - 1;
    OneMore(Passing(vs), Passing(vs[..n]), n, vs[n]);
  }

  /** With one verdict a case, the rates of an arm add up to the cases it passes. */
  lemma {:induction false} RatesOfSingles(cases: seq<PairKey>, v: VerdictTable)
    requires forall k | k in cases :: |At(v, k)| == 1
    ensures Sum(Rates(cases, v)) == |PassedBy(cases, v)| as real
  {
    if cases != [] {
      var n := |cases| - 1;
      RatesOfSingles(cases[..n], v);
      assert Rates(cases, v)[..n] == Rates(cases[..n], v);
      assert cases[n] in cases;
      RateOfOne(At(v, cases[n]));
      PassedMore(cases, v);
      hide PassedBy, Rate, At;
    }
  }

  lemma RateOfOne(vs: seq<bool>)
    requires |vs| == 1
    ensures Rate(vs) == if vs == [true] then 1.0 else 0.0
  {
    assert vs == [vs[0]] && vs[..0] == [];
    assert CountTrue(vs[..0]) == 0;
  }

  lemma PassedMore(cases: seq<PairKey>, v: VerdictTable)
    requires cases != []
    ensures var n := |cases| - 1; |PassedBy(cases, v)| == |PassedBy(cases[..n], v)| + (if At(v, cases[n]) == [true] then 1 else 0)
  {
    hide At;
    var n := |cases| - 1;
    var before := PassedBy(cases[..n], v);
    assert forall i: nat | i < n :: cases[..n][i] == cases[i];
    OneMore(PassedBy(cases, v), before, n, At(v, cases[n]) == [true]);
  }

  lemma {:induction false} SumOfDiffs(xs: seq<real>, ys: seq<real>, diffs: seq<real>)
    requires |xs| == |ys| == |diffs| && forall i | 0 <= i < |xs| :: diffs[i] == ys[i] - xs[i]
    ensures Sum(diffs) == Sum(ys) - Sum(xs)
  {
    if xs != [] {
      var n := |xs| - 1;
      SumOfDiffs(xs[..n], ys[..n], diffs[..n]);
    }
  }

  lemma ShareOf(n: int, total: nat)
    requires total > 0
    ensures Share(n, total) * (total as real) == n as real
  {}

  /** The base's rate is the mean over the shared cases of its share of passed verdicts there, the
      other arm's likewise, and the difference is the other arm's rate less the base's. With one
      verdict a case on each arm the rates count the cases passed, and the pairs are given. */
  lemma PassesAreShares(bv: VerdictTable, ev: VerdictTable)
    requires Shared(bv, ev) != []
    ensures var cases := Shared(bv, ev); PassesOf(bv, ev).Some? && (PassesOf(bv, ev).value.pairs.Some? <==> Single(cases, bv, ev))
    ensures var cases, s := Shared(bv, ev), PassesOf(bv, ev).value;
      && s.base * (|cases| as real) == Sum(Rates(cases, bv)) && s.exp * (|cases| as real) == Sum(Rates(cases, ev))
      && s.diff == s.exp - s.base
      && (s.pairs.Some? ==>
          && s.base * (|cases| as real) == |PassedBy(cases, bv)| as real && s.exp * (|cases| as real) == |PassedBy(cases, ev)| as real
          && s.pairs.value.onlyA == |Agreeing(cases, bv, ev, true, false)| && s.pairs.value.onlyB == |Agreeing(cases, bv, ev, false, true)|)
  {
    hide Shared, Rate, Agreeing, PassedBy, Sum, PairsOf, At;
    var cases := Shared(bv, ev);
    var n := |cases|;
    if Single(cases, bv, ev) {
      var p := PairsOf(cases, bv, ev);
      PairsCountCases(cases, bv, ev);
      PairsCountVerdicts(cases, bv, ev);
      PassedIsPaired(cases, bv, ev);
      RatesOfSingles(cases, bv);
      RatesOfSingles(cases, ev);
      SharesOfPairs(p, n);
      hide FromPairs;
    } else {
      MeanTimes(Rates(cases, bv));
      MeanTimes(Rates(cases, ev));
      MeanOfDiffs(Rates(cases, bv), Rates(cases, ev), RateDiffs(cases, bv, ev));
      hide Mean;
    }
  }

  lemma MeanOfDiffs(xs: seq<real>, ys: seq<real>, diffs: seq<real>)
    requires |xs| == |ys| == |diffs| && forall i | 0 <= i < |xs| :: diffs[i] == ys[i] - xs[i]
    ensures Mean(diffs) == Mean(ys) - Mean(xs)
  {
    SumOfDiffs(xs, ys, diffs);
    if xs != [] {
      QuotientLess(Sum(ys), Sum(xs), |xs| as real);
    }
    hide Sum;
  }

  lemma QuotientLess(x: real, y: real, n: real)
    requires n > 0.0
    ensures (x - y) / n == x / n - y / n
  {}

  lemma SharesOfPairs(p: Pairs, n: nat)
    requires p.N() == n > 0
    ensures var s := FromPairs(p); s.pairs == Some(p) && s.diff == s.exp - s.base
    ensures var s := FromPairs(p); s.base * (n as real) == (p.both + p.onlyA) as real && s.exp * (n as real) == (p.both + p.onlyB) as real
  {
    ShareOf(p.both + p.onlyA, n);
    ShareOf(p.both + p.onlyB, n);
    ShareLess(p.both + p.onlyB, p.both + p.onlyA, n);
    hide Share;
    assert p.both + p.onlyB - (p.both + p.onlyA) == p.onlyB - p.onlyA;
  }

  lemma ShareLess(x: int, y: int, total: nat)
    requires total > 0
    ensures Share(x - y, total) == Share(x, total) - Share(y, total)
  {}

  lemma MeanTimes(xs: seq<real>)
    requires xs != []
    ensures Mean(xs) * (|xs| as real) == Sum(xs)
  {}

  /** An arm's mean of each case. */
  function Means(cases: seq<PairKey>, table: map<PairKey, seq<real>>): seq<real> {
    seq(|cases|, i requires 0 <= i < |cases| => Mean(At(table, cases[i])))
  }

  /** The paired difference is what the other arm has over the base, as a mean over the shared cases. */
  lemma DeltaIsGain(b: map<PairKey, seq<real>>, e: map<PairKey, seq<real>>)
    ensures PairedDeltaOf(b, e).Some? <==> Shared(b, e) != []
    ensures PairedDeltaOf(b, e).Some? ==> var cases, stats := Shared(b, e), PairedDeltaOf(b, e).value;
      stats.n == |cases| && stats.delta == Mean(Means(cases, e)) - Mean(Means(cases, b))
  {
    hide Shared;
    var cases := Shared(b, e);
    MeanOfDiffs(Means(cases, b), Means(cases, e), Diffs(cases, b, e));
    hide Mean;
  }
}
