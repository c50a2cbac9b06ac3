/** The per-case part of a comparison (eval/compare.go): samples rolled up by metric and case, and how
    each case changed. */
module CaseDiffs {
  import opened EvalResults
  import opened Ordering
  import opened Compare
  import opened Comparison

  datatype DiffKey = DiffKey(metric: string, id: string, turn: int, variant: string)

  function CaseIn(k: DiffKey): PairKey {
    PairKey(k.id, k.turn, 0, k.variant)
  }

  function DiffKeyOf(keyer: Keyer, obs: Observation, metric: string): DiffKey {
    var pk := KeyOf(keyer, obs);
    DiffKey(metric, pk.id, pk.turn, pk.variant)
  }

  lemma SameCase(keyer: Keyer, obs: Observation, k: DiffKey)
    ensures DiffKeyOf(keyer, obs, k.metric) == k <==> CaseOf(keyer, obs) == CaseIn(k)
  {}

  predicate DiffLess(a: DiffKey, b: DiffKey) {
    if a.metric != b.metric then StringLess(a.metric, b.metric)
    else if a.id != b.id then StringLess(a.id, b.id)
    else if a.turn != b.turn then a.turn < b.turn
    else StringLess(a.variant, b.variant)
  }

  lemma DiffsAreOrdered()
    ensures StrictTotal(DiffLess)
  {
    StringsAreOrdered();
    hide StringLess;
  }

  ghost function SortedKeys(s: set<DiffKey>): seq<DiffKey> {
    DiffsAreOrdered();
    SortedOf(s, DiffLess)
  }

  method SortKeys(s: set<DiffKey>) returns (keys: seq<DiffKey>)
    ensures keys == SortedKeys(s)
  {
    DiffsAreOrdered();
    keys := Sort(s, DiffLess);
  }

  // ---- rolling up ----

  /** One arm's samples of one case. */
  datatype Rollup = Rollup(values: seq<real>, gated: nat, pass: nat, inconclusive: bool) {
    function Mean(): Option<real> {
      if |values| == 0 then None else Some(EvalResults.Mean(values))
    }

    function PassRate(): Option<real> {
      if gated == 0 then None else Some(Share(pass, gated))
    }

    function With(s: Score): Rollup {
      Rollup(
        if s.error == "" then values + [s.value] else values,
        if s.passed.Some? then gated + 1 else gated,
        if s.passed == Some(true) then pass + 1 else pass,
        inconclusive || s.inconclusive)
    }
  }

  const EMPTY := Rollup([], 0, 0, false)

  function RollOf(out: map<DiffKey, Rollup>, k: DiffKey): Rollup {
    if k in out then out[k] else EMPTY
  }

  function AnyPick(metric: string): Score -> Option<bool> {
    (s: Score) => if s.name == metric then Some(true) else None
  }

  function UnsurePick(metric: string): Score -> Option<bool> {
    (s: Score) => if s.name == metric && s.inconclusive then Some(true) else None
  }

  /** What a rollup says of the scores that were seen. */
  ghost predicate Fits(r: Rollup, values: seq<real>, verdicts: seq<bool>, unsure: seq<bool>) {
    r.values == values && r.gated == |verdicts| && r.pass == CountTrue(verdicts) && (r.inconclusive <==> unsure != [])
  }

  /** Every named metric of a case is rolled up, and nothing else. */
  ghost predicate IsRollup(out: map<DiffKey, Rollup>, results: seq<ObservationResult>, keyer: Keyer) {
    && (forall k | k in out :: k.metric != "")
    && forall k: DiffKey | k.metric != "" ::
      && (k in out <==> Picked(results, keyer, CaseIn(k), AnyPick(k.metric)) != [])
      && Fits(RollOf(out, k), Picked(results, keyer, CaseIn(k), ValuePick(k.metric)),
              Picked(results, keyer, CaseIn(k), VerdictPick(k.metric)), Picked(results, keyer, CaseIn(k), UnsurePick(k.metric)))
  }

  ghost predicate FitsSoFar(out: map<DiffKey, Rollup>, k: DiffKey, results: seq<ObservationResult>, keyer: Keyer, obs: Observation, scores: seq<Score>) {
    && (k in out <==> PickedSoFar(results, keyer, obs, scores, CaseIn(k), AnyPick(k.metric)) != [])
    && Fits(RollOf(out, k), PickedSoFar(results, keyer, obs, scores, CaseIn(k), ValuePick(k.metric)),
            PickedSoFar(results, keyer, obs, scores, CaseIn(k), VerdictPick(k.metric)), PickedSoFar(results, keyer, obs, scores, CaseIn(k), UnsurePick(k.metric)))
  }

  ghost predicate IsRollupSoFar(out: map<DiffKey, Rollup>, results: seq<ObservationResult>, keyer: Keyer, obs: Observation, scores: seq<Score>) {
    && (forall k | k in out :: k.metric != "")
    && forall k: DiffKey | k.metric != "" :: FitsSoFar(out, k, results, keyer, obs, scores)
  }

  lemma CountTrueMore(vs: seq<bool>, v: bool)
    ensures CountTrue(vs + [v]) == CountTrue(vs) + (if v then 1 else 0)
  {
    assert (vs + [v])[..|vs|] == vs;
  }

  /** Rolling up one more score extends what was seen by what is picked of it. */
  lemma FitsWith(r: Rollup, s: Score, values: seq<real>, verdicts: seq<bool>, unsure: seq<bool>)
    requires Fits(r, values, verdicts, unsure)
    ensures Fits(r.With(s), if s.error == "" then values + [s.value] else values,
      if s.passed.Some? then verdicts + [s.passed.value] else verdicts, if s.inconclusive then unsure + [true] else unsure)
  {
    if s.passed.Some? {
      CountTrueMore(verdicts, s.passed.value);
    }
    hide CountTrue;
  }

  /** What the four picks take of one more score. */
  lemma PicksOneMore(k: DiffKey, results: seq<ObservationResult>, keyer: Keyer, obs: Observation, scores: seq<Score>, j: nat)
    requires j < |scores|
    ensures var s := scores[j]; var here := DiffKeyOf(keyer, obs, s.name) == k; var c := CaseIn(k);
      var any := PickedSoFar(results, keyer, obs, scores[..j], c, AnyPick(k.metric));
      var values := PickedSoFar(results, keyer, obs, scores[..j], c, ValuePick(k.metric));
      var verdicts := PickedSoFar(results, keyer, obs, scores[..j], c, VerdictPick(k.metric));
      var unsure := PickedSoFar(results, keyer, obs, scores[..j], c, UnsurePick(k.metric));
      && PickedSoFar(results, keyer, obs, scores[..j + 1], c, AnyPick(k.metric)) == (if here then any + [true] else any)
      && PickedSoFar(results, keyer, obs, scores[..j + 1], c, ValuePick(k.metric)) == (if here && s.error == "" then values + [s.value] else values)
      && PickedSoFar(results, keyer, obs, scores[..j + 1], c, VerdictPick(k.metric)) == (if here && s.passed.Some? then verdicts + [s.passed.value] else verdicts)
      && PickedSoFar(results, keyer, obs, scores[..j + 1], c, UnsurePick(k.metric)) == (if here && s.inconclusive then unsure + [true] else unsure)
  {
    SameCase(keyer, obs, k);
    PickedOneMore(results, keyer, obs, scores, j, CaseIn(k), AnyPick(k.metric));
    PickedOneMore(results, keyer, obs, scores, j, CaseIn(k), ValuePick(k.metric));
    PickedOneMore(results, keyer, obs, scores, j, CaseIn(k), VerdictPick(k.metric));
    PickedOneMore(results, keyer, obs, scores, j, CaseIn(k), UnsurePick(k.metric));
    assert DiffKeyOf(keyer, obs, scores[j].name) == k <==> scores[j].name == k.metric && CaseOf(keyer, obs) == CaseIn(k);
    hide PickedSoFar, CaseOf, DiffKeyOf, CaseIn;
  }

  lemma RollOne(out: map<DiffKey, Rollup>, k: DiffKey, results: seq<ObservationResult>, keyer: Keyer, obs: Observation, scores: seq<Score>, j: nat)
    requires j < |scores| && k.metric != "" && FitsSoFar(out, k, results, keyer, obs, scores[..j])
    ensures var s := scores[j]; var here := DiffKeyOf(keyer, obs, s.name);
      FitsSoFar(if s.name == "" then out else out[here := RollOf(out, here).With(s)], k, results, keyer, obs, scores[..j + 1])
  {
    hide PickedSoFar, CaseIn, Fits, Rollup.With, AnyPick, ValuePick, VerdictPick, UnsurePick, KeyOf;
    PicksOneMore(k, results, keyer, obs, scores, j);
    if DiffKeyOf(keyer, obs, scores[j].name) == k {
      FitsWith(RollOf(out, k), scores[j], PickedSoFar(results, keyer, obs, scores[..j], CaseIn(k), ValuePick(k.metric)),
        PickedSoFar(results, keyer, obs, scores[..j], CaseIn(k), VerdictPick(k.metric)), PickedSoFar(results, keyer, obs, scores[..j], CaseIn(k), UnsurePick(k.metric)));
    }
  }

  method RollUp(results: seq<ObservationResult>, keyer: Keyer) returns (out: map<DiffKey, Rollup>)
    ensures IsRollup(out, results, keyer)
  {
    hide IsRollup, IsRollupSoFar, FitsSoFar;
    out := map[];
    var i := 0;
    NoRollup(keyer);
    assert results[..0] == [];
    while i < |results|
      invariant i <= |results| && IsRollup(out, results[..i], keyer)
    {
      var r := results[i];
      RollupStarts(out, results[..i], keyer, r.observation);
      var j := 0;
      assert r.scores[..0] == [];
      while j < |r.scores|
        invariant j <= |r.scores| && IsRollupSoFar(out, results[..i], keyer, r.observation, r.scores[..j])
      {
        var s := r.scores[j];
        RollupOneMore(out, results[..i], keyer, r.observation, r.scores, j);
        if s.name != "" {
          var k := DiffKeyOf(keyer, r.observation, s.name);
          out := out[k := RollOf(out, k).With(s)];
        }
        j := j + 1;
      }
      assert r.scores[..j] == r.scores;
      RollupEnds(out, results, i, keyer);
      i := i + 1;
    }
    assert results[..i] == results;
  }

  lemma NoRollup(keyer: Keyer)
    ensures IsRollup(map[], [], keyer)
  {}

  lemma RollupOneMore(out: map<DiffKey, Rollup>, results: seq<ObservationResult>, keyer: Keyer, obs: Observation, scores: seq<Score>, j: nat)
    requires j < |scores| && IsRollupSoFar(out, results, keyer, obs, scores[..j])
    ensures var s := scores[j]; var here := DiffKeyOf(keyer, obs, s.name);
      IsRollupSoFar(if s.name == "" then out else out[here := RollOf(out, here).With(s)], results, keyer, obs, scores[..j + 1])
  {
    hide FitsSoFar;
    var s := scores[j];
    var here := DiffKeyOf(keyer, obs, s.name);
    var after := if s.name == "" then out else out[here := RollOf(out, here).With(s)];
    forall k: DiffKey | k.metric != ""
      ensures FitsSoFar(after, k, results, keyer, obs, scores[..j + 1])
    {
      RollOne(out, k, results, keyer, obs, scores, j);
    }
  }

  lemma RollupStarts(out: map<DiffKey, Rollup>, results: seq<ObservationResult>, keyer: Keyer, obs: Observation)
    requires IsRollup(out, results, keyer)
    ensures IsRollupSoFar(out, results, keyer, obs, [])
  {
    var none: seq<Score> := [];
    forall k: DiffKey | k.metric != ""
      ensures FitsSoFar(out, k, results, keyer, obs, none)
    {
      NoneMore(results, keyer, obs, CaseIn(k), AnyPick(k.metric));
      NoneMore(results, keyer, obs, CaseIn(k), ValuePick(k.metric));
      NoneMore(results, keyer, obs, CaseIn(k), VerdictPick(k.metric));
      NoneMore(results, keyer, obs, CaseIn(k), UnsurePick(k.metric));
    }
  }

  lemma NoneMore<T>(results: seq<ObservationResult>, keyer: Keyer, obs: Observation, k: PairKey, pick: Score -> Option<T>)
    ensures PickedSoFar(results, keyer, obs, [], k, pick) == Picked(results, keyer, k, pick)
  {}

  lemma AllMore<T>(results: seq<ObservationResult>, i: nat, keyer: Keyer, k: PairKey, pick: Score -> Option<T>)
    requires i < |results|
    ensures Picked(results[..i + 1], keyer, k, pick) == PickedSoFar(results[..i], keyer, results[i].observation, results[i].scores, k, pick)
  {
    assert results[..i + 1][..i] == results[..i];
  }

  lemma RollupEnds(out: map<DiffKey, Rollup>, results: seq<ObservationResult>, i: nat, keyer: Keyer)
    requires i < |results| && IsRollupSoFar(out, results[..i], keyer, results[i].observation, results[i].scores)
    ensures IsRollup(out, results[..i + 1], keyer)
  {
    var front := results[..i + 1];
    forall k: DiffKey | k.metric != ""
      ensures k in out <==> Picked(front, keyer, CaseIn(k), AnyPick(k.metric)) != []
      ensures Fits(RollOf(out, k), Picked(front, keyer, CaseIn(k), ValuePick(k.metric)),
        Picked(front, keyer, CaseIn(k), VerdictPick(k.metric)), Picked(front, keyer, CaseIn(k), UnsurePick(k.metric)))
    {
      assert FitsSoFar(out, k, results[..i], keyer, results[i].observation, results[i].scores);
      AllMore(results, i, keyer, CaseIn(k), AnyPick(k.metric));
      AllMore(results, i, keyer, CaseIn(k), ValuePick(k.metric));
      AllMore(results, i, keyer, CaseIn(k), VerdictPick(k.metric));
      AllMore(results, i, keyer, CaseIn(k), UnsurePick(k.metric));
    }
    hide Picked, PickedSoFar, Fits;
  }

  // ---- cases whose subject failed on infrastructure ----

  ghost function UnmeasuredIn(results: seq<ObservationResult>, keyer: Keyer): set<PairKey> {
    set r | r in results && r.observation.subject.FailedOnInfra? :: CaseOf(keyer, r.observation)
  }

  method Unmeasured(results: seq<ObservationResult>, keyer: Keyer) returns (out: set<PairKey>)
    ensures out == UnmeasuredIn(results, keyer)
  {
    hide CaseOf;
    out := {};
    var i := 0;
    while i < |results|
      invariant i <= |results| && out == UnmeasuredIn(results[..i], keyer)
    {
      var r := results[i];
      assert results[..i + 1] == results[..i] + [r];
      assert forall x :: x in results[..i + 1] <==> x in results[..i] || x == r;
      if r.observation.subject.FailedOnInfra? {
        out := out + {CaseOf(keyer, r.observation)};
      }
      i := i + 1;
    }
    assert results[..i] == results;
  }

  // ---- how a case changed ----

  datatype Status = Improved | Regressed | Unchanged | OnlyBase | OnlyExp | Inconclusive

  datatype CaseDiff = CaseDiff(key: DiffKey, base: Option<real>, exp: Option<real>, basePass: Option<real>, expPass: Option<real>, change: real, status: Status)

  /** The status of a change towards better, beyond rounding. */
  function Graded(change: real): Status {
    if change > TOLERANCE then Improved else if change < -TOLERANCE then Regressed else Unchanged
  }

  /** The case with its change and status: pass rates decide where both arms have them, values
      otherwise, and a case only one arm has is reported so. */
  function WithStatus(d: CaseDiff, lowerIsBetter: bool, unknown: bool): CaseDiff {
    var rated := d.basePass.Some? && d.expPass.Some?;
    var valued := d.base.Some? && d.exp.Some?;
    var change := if valued then d.exp.value - d.base.value else 0.0;
    d.(change := change,
       status :=
         if rated then Graded(d.expPass.value - d.basePass.value)
         else if valued then Graded(if lowerIsBetter then -change else change)
         else if unknown then Inconclusive
         else if d.base.Some? || d.basePass.Some? then OnlyBase
         else OnlyExp)
  }

  /** One case of the report, if there is anything to say of it. */
  function DiffOf(k: DiffKey, b: Rollup, e: Rollup, lowerIsBetter: bool, unknown: bool): Option<CaseDiff> {
    var d := CaseDiff(k, b.Mean(), e.Mean(), b.PassRate(), e.PassRate(), 0.0, Inconclusive);
    if d.base.None? && d.exp.None? && d.basePass.None? && d.expPass.None? then (if unknown then Some(d) else None)
    else Some(WithStatus(d, lowerIsBetter, unknown))
  }

  function SwappedStatus(s: Status): Status {
    match s
    case Improved => Regressed
    case Regressed => Improved
    case OnlyBase => OnlyExp
    case OnlyExp => OnlyBase
    case _ => s
  }

  function Swapped(d: CaseDiff): CaseDiff {
    CaseDiff(d.key, d.exp, d.base, d.expPass, d.basePass, -d.change, SwappedStatus(d.status))
  }

  /** One arm has only a value of the case, and the other only a verdict. */
  predicate Mismatched(b: Rollup, e: Rollup) {
    || (b.values != [] && b.gated == 0 && e.values == [] && e.gated > 0)
    || (b.values == [] && b.gated > 0 && e.values != [] && e.gated == 0)
  }

  /** Swapping the arms swaps what is said of a case, but for a mismatched one that both arms measured:
      it counts as only the base's either way. */
  lemma DiffSwaps(k: DiffKey, b: Rollup, e: Rollup, lowerIsBetter: bool, unknown: bool)
    ensures DiffOf(k, b, e, lowerIsBetter, unknown).Some? <==> DiffOf(k, e, b, lowerIsBetter, unknown).Some?
    ensures DiffOf(k, b, e, lowerIsBetter, unknown).Some? ==>
      var d, swapped := DiffOf(k, b, e, lowerIsBetter, unknown).value, DiffOf(k, e, b, lowerIsBetter, unknown).value;
      && (swapped == Swapped(d) <==> unknown || !Mismatched(b, e))
      && (!(unknown || !Mismatched(b, e)) ==> d.status == OnlyBase && swapped == Swapped(d).(status := OnlyBase))
  {
    hide EvalResults.Mean, Share;
  }

  /** Such a case: one value on one arm, and one verdict on the other. */
  lemma ValueAgainstVerdict(k: DiffKey, value: real, passes: bool, lowerIsBetter: bool)
    ensures var scored, judged := Rollup([value], 0, 0, false), Rollup([], 1, if passes then 1 else 0, false);
      var d, swapped := DiffOf(k, scored, judged, lowerIsBetter, false), DiffOf(k, judged, scored, lowerIsBetter, false);
      d.Some? && swapped.Some? && d.value.status == OnlyBase == swapped.value.status && swapped.value != Swapped(d.value)
  {
    hide EvalResults.Mean, Share;
  }

  // ---- the report ----

  datatype Arm = Arm(rolled: map<DiffKey, Rollup>, unmeasured: set<PairKey>)

  predicate Unknown(b: Arm, e: Arm, k: DiffKey) {
    RollOf(b.rolled, k).inconclusive || CaseIn(k) in b.unmeasured || RollOf(e.rolled, k).inconclusive || CaseIn(k) in e.unmeasured
  }

  function LowerIsBetter(lower: map<string, bool>, metric: string): bool {
    metric in lower && lower[metric]
  }

  function DiffAt(b: Arm, e: Arm, lower: map<string, bool>, k: DiffKey): Option<CaseDiff> {
    DiffOf(k, RollOf(b.rolled, k), RollOf(e.rolled, k), LowerIsBetter(lower, k.metric), Unknown(b, e, k))
  }

  function DiffsAlong(b: Arm, e: Arm, lower: map<string, bool>, keys: seq<DiffKey>): seq<CaseDiff> {
    if keys == [] then [] else
      var n := |keys| - 1;
      DiffsAlong(b, e, lower, keys[..n]) + (match DiffAt(b, e, lower, keys[n]) case None => [] case Some(d) => [d])
  }

  ghost function CaseDiffsOf(b: Arm, e: Arm, lower: map<string, bool>): seq<CaseDiff> {
    DiffsAlong(b, e, lower, SortedKeys(b.rolled.Keys + e.rolled.Keys))
  }

  /** What the cases of a report become when the arms are swapped. */
  ghost predicate CasesSwapped(ds: seq<CaseDiff>, swapped: seq<CaseDiff>, b: Arm, e: Arm) {
    && |ds| == |swapped|
    && forall i | 0 <= i < |ds| ::
      var k := ds[i].key;
      if Unknown(b, e, k) || !Mismatched(RollOf(b.rolled, k), RollOf(e.rolled, k)) then swapped[i] == Swapped(ds[i])
      else ds[i].status == OnlyBase && swapped[i] == Swapped(ds[i]).(status := OnlyBase)
  }

  lemma {:induction false} DiffsAlongSwap(b: Arm, e: Arm, lower: map<string, bool>, keys: seq<DiffKey>)
    ensures CasesSwapped(DiffsAlong(b, e, lower, keys), DiffsAlong(e, b, lower, keys), b, e)
  {
    hide Swapped, DiffOf, Mismatched;
    if keys != [] {
      var n := |keys| - 1;
      var k := keys[n];
      DiffsAlongSwap(b, e, lower, keys[..n]);
      DiffSwaps(k, RollOf(b.rolled, k), RollOf(e.rolled, k), LowerIsBetter(lower, k.metric), Unknown(b, e, k));
      DiffHasKey(b, e, lower, k);
      assert Unknown(b, e, k) == Unknown(e, b, k);
    }
  }

  lemma DiffHasKey(b: Arm, e: Arm, lower: map<string, bool>, k: DiffKey)
    ensures DiffAt(b, e, lower, k).Some? ==> DiffAt(b, e, lower, k).value.key == k
  {}

  lemma CaseDiffsSwap(b: Arm, e: Arm, lower: map<string, bool>)
    ensures CasesSwapped(CaseDiffsOf(b, e, lower), CaseDiffsOf(e, b, lower), b, e)
  {
    assert b.rolled.Keys + e.rolled.Keys == e.rolled.Keys + b.rolled.Keys;
    DiffsAlongSwap(b, e, lower, SortedKeys(b.rolled.Keys + e.rolled.Keys));
  }

  lemma DiffsStep(b: Arm, e: Arm, lower: map<string, bool>, keys: seq<DiffKey>, i: nat)
    requires i < |keys|
    ensures var d := DiffAt(b, e, lower, keys[i]); var front := DiffsAlong(b, e, lower, keys[..i]);
      DiffsAlong(b, e, lower, keys[..i + 1]) == if d.Some? then front + [d.value] else front
  {
    hide DiffAt;
    assert keys[..i + 1][..i] == keys[..i];
    var front := DiffsAlong(b, e, lower, keys[..i]);
    assert front + [] == front;
  }

  lemma NoDiffs(b: Arm, e: Arm, lower: map<string, bool>, keys: seq<DiffKey>)
    ensures DiffsAlong(b, e, lower, keys[..0]) == []
  {}

  method CollectCaseDiffs(b: Arm, e: Arm, lower: map<string, bool>) returns (out: seq<CaseDiff>)
    ensures out == CaseDiffsOf(b, e, lower)
  {
    hide DiffAt, DiffsAlong, SortedKeys;
    var keys := SortKeys(b.rolled.Keys + e.rolled.Keys);
    out := [];
    var i := 0;
    NoDiffs(b, e, lower, keys);
    while i < |keys|
      invariant i <= |keys| && out == DiffsAlong(b, e, lower, keys[..i])
    {
      DiffsStep(b, e, lower, keys, i);
      var d := DiffAt(b, e, lower, keys[i]);
      if d.Some? {
        out := out + [d.value];
      }
      i := i + 1;
    }
    assert keys[..i] == keys;
  }

  // ---- the comparison of two suites ----

  datatype Report = Report(
    deltas: map<string, real>, stats: map<string, DeltaStats>, missingInBase: seq<string>, missingInExp: seq<string>,
    passes: map<string, PassStats>, cases: seq<CaseDiff>)

  ghost predicate Scored(results: seq<ObservationResult>, name: string) {
    name != "" && AllValues(results, name) != []
  }

  ghost predicate NamesInOrder(names: seq<string>, results: seq<ObservationResult>, without: seq<ObservationResult>) {
    Sorted(names, StringLess) && forall name :: name in names <==> Scored(results, name) && !Scored(without, name)
  }

  /** What a report says of the means: their differences, how they pair, and the metrics one arm lacks. */
  ghost predicate ReportsMeans(deltas: map<string, real>, stats: map<string, DeltaStats>, missingInBase: seq<string>, missingInExp: seq<string>,
    base: seq<ObservationResult>, exp: seq<ObservationResult>, keyer: Keyer)
  {
    && (forall name :: name in deltas <==> Scored(base, name) && Scored(exp, name))
    && (forall name | name in deltas :: deltas[name] == Mean(AllValues(exp, name)) - Mean(AllValues(base, name)))
    && NamesInOrder(missingInBase, exp, base) && NamesInOrder(missingInExp, base, exp)
    && (forall name :: (if name in stats then Some(stats[name]) else None) ==
         if name in deltas then PairedDeltaOf(TableOf(base, keyer, ValuePick(name)), TableOf(exp, keyer, ValuePick(name))) else None)
  }

  /** What a report says, metric by metric and case by case, of the two arms under a way of pairing. */
  ghost predicate Reports(r: Report, base: seq<ObservationResult>, exp: seq<ObservationResult>, keyer: Keyer, lower: map<string, bool>) {
    && ReportsMeans(r.deltas, r.stats, r.missingInBase, r.missingInExp, base, exp, keyer)
    && (forall name :: PassesAt(r, name) == PassesOf(TableOf(base, keyer, VerdictPick(name)), TableOf(exp, keyer, VerdictPick(name))))
    && (forall b: Arm, e: Arm | IsArm(b, base, keyer) && IsArm(e, exp, keyer) :: r.cases == CaseDiffsOf(b, e, lower))
  }

  function StatsAt(r: Report, name: string): Option<DeltaStats> {
    if name in r.stats then Some(r.stats[name]) else None
  }

  function PassesAt(r: Report, name: string): Option<PassStats> {
    if name in r.passes then Some(r.passes[name]) else None
  }

  ghost predicate IsArm(a: Arm, results: seq<ObservationResult>, keyer: Keyer) {
    IsRollup(a.rolled, results, keyer) && a.unmeasured == UnmeasuredIn(results, keyer)
  }

  lemma ArmIsUnique(a: Arm, b: Arm, results: seq<ObservationResult>, keyer: Keyer)
    requires IsArm(a, results, keyer) && IsArm(b, results, keyer)
    ensures a == b
  {
    hide Picked;
    forall k
      ensures k in a.rolled <==> k in b.rolled
      ensures RollOf(a.rolled, k) == RollOf(b.rolled, k)
    {
    }
    assert a.rolled == b.rolled by {
      assert forall k | k in a.rolled :: RollOf(a.rolled, k) == RollOf(b.rolled, k);
    }
  }

  /** The relation between the report of two arms and that of the arms swapped. */
  ghost predicate ReportSwapped(r: Report, t: Report, base: seq<ObservationResult>, exp: seq<ObservationResult>, keyer: Keyer) {
    && r.deltas.Keys == t.deltas.Keys && (forall name | name in r.deltas && name in t.deltas :: t.deltas[name] == -r.deltas[name])
    && t.missingInBase == r.missingInExp && t.missingInExp == r.missingInBase
    && (forall name :: StatsSwapped(StatsAt(r, name), StatsAt(t, name)))
    && (forall name :: PassesAt(r, name).Some? <==> PassesAt(t, name).Some?)
    && (forall name | PassesAt(r, name).Some? && PassesAt(t, name).Some? :: PassesSwapped(PassesAt(r, name).value, PassesAt(t, name).value))
    && (forall b: Arm, e: Arm | IsArm(b, base, keyer) && IsArm(e, exp, keyer) :: CasesSwapped(r.cases, t.cases, b, e))
  }

  ghost predicate StatsSwapped(x: Option<DeltaStats>, y: Option<DeltaStats>) {
    (x.Some? <==> y.Some?) && (x.Some? ==> y.value == DeltaStats(-x.value.delta, x.value.n))
  }

  lemma NamesAreUnique(x: seq<string>, y: seq<string>, results: seq<ObservationResult>, without: seq<ObservationResult>)
    requires NamesInOrder(x, results, without) && NamesInOrder(y, results, without)
    ensures x == y
  {
    StringsAreOrdered();
    hide StringLess;
    assert forall name :: name in x <==> name in Elements(x);
    assert forall name :: name in y <==> name in Elements(y);
    assert Elements(x) == Elements(y);
    SortedIsUnique(x, y, StringLess);
  }

  /** Swapping the arms negates every difference and case change, swaps improved and regressed, only
      base and only exp, the discordant counts and the missing metrics, and keeps the rest, but for
      mismatched cases. */
  lemma SwapArms(r: Report, t: Report, base: seq<ObservationResult>, exp: seq<ObservationResult>, keyer: Keyer, lower: map<string, bool>)
    requires Reports(r, base, exp, keyer, lower) && Reports(t, exp, base, keyer, lower)
    ensures ReportSwapped(r, t, base, exp, keyer)
  {
    hide TableOf, IsArm, PairedDeltaOf, PassesOf, CaseDiffsOf, CasesSwapped, Scored, Mean, NamesInOrder;
    NamesAreUnique(t.missingInBase, r.missingInExp, base, exp);
    NamesAreUnique(t.missingInExp, r.missingInBase, exp, base);
    assert r.deltas.Keys == t.deltas.Keys by {
      assert forall name :: name in r.deltas <==> name in t.deltas;
    }
    forall name
      ensures StatsSwapped(StatsAt(r, name), StatsAt(t, name))
    {
      DeltaSwaps(TableOf(base, keyer, ValuePick(name)), TableOf(exp, keyer, ValuePick(name)));
    }
    forall name
      ensures PassesAt(r, name).Some? <==> PassesAt(t, name).Some?
      ensures PassesAt(r, name).Some? ==> PassesSwapped(PassesAt(r, name).value, PassesAt(t, name).value)
    {
      PassesSwap(TableOf(base, keyer, VerdictPick(name)), TableOf(exp, keyer, VerdictPick(name)));
    }
    forall b: Arm, e: Arm | IsArm(b, base, keyer) && IsArm(e, exp, keyer)
      ensures CasesSwapped(r.cases, t.cases, b, e)
    {
      CaseDiffsSwap(b, e, lower);
    }
  }

  method SortNames(s: set<string>) returns (names: seq<string>)
    ensures Sorted(names, StringLess) && forall name :: name in names <==> name in s
  {
    StringsAreOrdered();
    hide StringLess;
    names := Sort(s, StringLess);
    assert forall name :: name in names <==> name in Elements(names);
  }

  /** The differences of the metrics both arms have, with their paired statistics. */
  method CompareMetrics(base: seq<ObservationResult>, exp: seq<ObservationResult>, keyer: Keyer, b: map<string, real>, e: map<string, real>)
    returns (deltas: map<string, real>, stats: map<string, DeltaStats>)
    ensures deltas.Keys == b.Keys * e.Keys && stats.Keys <= deltas.Keys
    ensures forall name | name in deltas :: deltas[name] == e[name] - b[name]
    ensures forall name | name in deltas ::
      (if name in stats then Some(stats[name]) else None) == PairedDeltaOf(TableOf(base, keyer, ValuePick(name)), TableOf(exp, keyer, ValuePick(name)))
  {
    hide TableOf, IsTable, PairedDeltaOf, ValuePick;
    deltas, stats := map[], map[];
    var rest := e.Keys;
    while rest != {}
      invariant rest <= e.Keys && deltas.Keys == b.Keys * (e.Keys - rest) && stats.Keys <= deltas.Keys
      invariant forall name | name in deltas :: deltas[name] == e[name] - b[name]
      invariant forall name | name in deltas ::
        (if name in stats then Some(stats[name]) else None) == PairedDeltaOf(TableOf(base, keyer, ValuePick(name)), TableOf(exp, keyer, ValuePick(name)))
      decreases |rest|
    {
      var name :| name in rest;
      rest := rest - {name};
      if name in b {
        deltas := deltas[name := e[name] - b[name]];
        TableOfIsTable(base, keyer, ValuePick(name));
        TableOfIsTable(exp, keyer, ValuePick(name));
        var s := PairedDelta(base, exp, keyer, name, TableOf(base, keyer, ValuePick(name)), TableOf(exp, keyer, ValuePick(name)));
        if s.Some? {
          stats := stats[name := s.value];
        }
      }
    }
  }

  /** The verdict statistics of the metrics gated on both arms. */
  method ComparePasses(base: seq<ObservationResult>, exp: seq<ObservationResult>, keyer: Keyer) returns (passes: map<string, PassStats>)
    ensures forall name ::
      (if name in passes then Some(passes[name]) else None) == PassesOf(TableOf(base, keyer, VerdictPick(name)), TableOf(exp, keyer, VerdictPick(name)))
  {
    hide TableOf, IsTable, PassesOf, VerdictPick, AreTables;
    var baseV := Verdicts(base, keyer);
    var expV := Verdicts(exp, keyer);
    passes := map[];
    var rest := expV.Keys;
    while rest != {}
      invariant rest <= expV.Keys && passes.Keys <= expV.Keys - rest
      invariant forall name | name in expV && name !in rest ::
        (if name in passes then Some(passes[name]) else None) == PassesOf(TableFor(baseV, name), TableFor(expV, name))
      decreases |rest|
    {
      var name :| name in rest;
      rest := rest - {name};
      if name in baseV {
        var s := PairedPasses(baseV[name], expV[name]);
        if s.Some? {
          passes := passes[name := s.value];
        }
      } else {
        NothingShared(TableFor(baseV, name), expV[name]);
      }
    }
    forall name
      ensures (if name in passes then Some(passes[name]) else None) == PassesOf(TableOf(base, keyer, VerdictPick(name)), TableOf(exp, keyer, VerdictPick(name)))
    {
      VerdictTableIs(baseV, base, keyer, name);
      VerdictTableIs(expV, exp, keyer, name);
      if name !in expV {
        NothingShared(TableFor(baseV, name), TableFor(expV, name));
      }
    }
  }

  lemma NothingShared(b: VerdictTable, e: VerdictTable)
    requires b == map[] || e == map[]
    ensures PassesOf(b, e).None?
  {
    if Shared(b, e) != [] {
      FirstIsElement(Shared(b, e));
    }
  }

  lemma VerdictTableIs(tables: map<string, VerdictTable>, results: seq<ObservationResult>, keyer: Keyer, name: string)
    requires AreTables(tables, results, keyer)
    ensures TableFor(tables, name) == TableOf(results, keyer, VerdictPick(name))
  {
    hide IsTable;
    TableOfIsTable(results, keyer, VerdictPick(name));
    TableIsUnique(TableFor(tables, name), TableOf(results, keyer, VerdictPick(name)), results, keyer, VerdictPick(name));
  }

  method CompareMeans(base: seq<ObservationResult>, exp: seq<ObservationResult>, keyer: Keyer)
    returns (deltas: map<string, real>, stats: map<string, DeltaStats>, missingInBase: seq<string>, missingInExp: seq<string>)
    ensures ReportsMeans(deltas, stats, missingInBase, missingInExp, base, exp, keyer)
  {
    hide TableOf, PairedDeltaOf, AllValues, Mean, StringLess, Sorted;
    var baseAgg, _ := AggregateCounts(base);
    var expAgg, _ := AggregateCounts(exp);
    AggregatedIsScored(baseAgg, base);
    AggregatedIsScored(expAgg, exp);
    deltas, stats := CompareMetrics(base, exp, keyer, baseAgg, expAgg);
    missingInBase := SortNames(expAgg.Keys - baseAgg.Keys);
    missingInExp := SortNames(baseAgg.Keys - expAgg.Keys);
    hide Scored, ValuePick;
    assert forall name :: name in deltas <==> name in baseAgg && name in expAgg;
  }

  lemma AggregatedIsScored(means: map<string, real>, results: seq<ObservationResult>)
    requires "" !in means && forall name | name != "" :: name in means <==> AllValues(results, name) != []
    ensures forall name :: name in means <==> Scored(results, name)
  {}

  /** The two arms rolled up, and the case differences between them. */
  method CompareCases(base: seq<ObservationResult>, exp: seq<ObservationResult>, keyer: Keyer, lower: map<string, bool>)
    returns (cases: seq<CaseDiff>, ghost b: Arm, ghost e: Arm)
    ensures IsArm(b, base, keyer) && IsArm(e, exp, keyer)
    ensures forall x: Arm, y: Arm | IsArm(x, base, keyer) && IsArm(y, exp, keyer) :: cases == CaseDiffsOf(x, y, lower)
  {
    hide CaseDiffsOf, IsRollup, UnmeasuredIn;
    var baseR := RollUp(base, keyer);
    var expR := RollUp(exp, keyer);
    var baseU := Unmeasured(base, keyer);
    var expU := Unmeasured(exp, keyer);
    b, e := Arm(baseR, baseU), Arm(expR, expU);
    cases := CollectCaseDiffs(Arm(baseR, baseU), Arm(expR, expU), lower);
    forall x: Arm, y: Arm | IsArm(x, base, keyer) && IsArm(y, exp, keyer)
      ensures cases == CaseDiffsOf(x, y, lower)
    {
      ArmIsUnique(x, b, base, keyer);
      ArmIsUnique(y, e, exp, keyer);
    }
  }

  /** Compares two arms, cases paired as their variants say. */
  method CompareSuites(base: seq<ObservationResult>, exp: seq<ObservationResult>, lower: map<string, bool>)
    returns (r: Report, ghost keyer: Keyer, ghost b: Arm, ghost e: Arm)
    ensures keyer == KeyerOf(base, exp) && IsArm(b, base, keyer) && IsArm(e, exp, keyer)
    ensures Reports(r, base, exp, KeyerOf(base, exp), lower)
  {
    hide TableOf, PassesOf, CaseDiffsOf, IsArm, ReportsMeans, VerdictPick;
    var k := CaseKeyer(base, exp);
    keyer := k;
    var deltas, stats, missingInBase, missingInExp := CompareMeans(base, exp, k);
    var passes := ComparePasses(base, exp, k);
    var cases;
    cases, b, e := CompareCases(base, exp, k, lower);
    r := Report(deltas, stats, missingInBase, missingInExp, passes, cases);
  }

  /** Both ways of comparing two arms tell the same story. */
  method CompareBothWays(base: seq<ObservationResult>, exp: seq<ObservationResult>, lower: map<string, bool>)
    returns (r: Report, t: Report, ghost keyer: Keyer, ghost b: Arm, ghost e: Arm)
    ensures keyer == KeyerOf(base, exp) && IsArm(b, base, keyer) && IsArm(e, exp, keyer)
    ensures Reports(r, base, exp, KeyerOf(base, exp), lower) && Reports(t, exp, base, KeyerOf(base, exp), lower)
    ensures ReportSwapped(r, t, base, exp, KeyerOf(base, exp))
    ensures CasesSwapped(r.cases, t.cases, b, e)
  {
    hide Reports, IsArm, CasesSwapped, KeyerOf;
    r, keyer, b, e := CompareSuites(base, exp, lower);
    ghost var keyer', b', e';
    t, keyer', b', e' := CompareSuites(exp, base, lower);
    KeyerIsSymmetric(base, exp);
    SwapArms(r, t, base, exp, keyer, lower);
  }

  // ---- which way a case changed ----

  /** `x` is the share of its verdicts the arm passes in the case. */
  predicate Rated(r: Rollup, x: real) {
    r.gated > 0 && x * (r.gated as real) == r.pass as real
  }

  /** `x` is the mean of the arm's values of the case. */
  predicate Valued(r: Rollup, x: real) {
    r.values != [] && x * (|r.values| as real) == Sum(r.values)
  }

  predicate Measured(r: Rollup) {
    r.gated > 0 || r.values != []
  }

  /** A rise from `x` to `y`, beyond rounding. */
  predicate Rises(x: real, y: real) {
    y - x > 0.000000001
  }

  /** Verdicts on both arms decide which way a case changed: towards more passed ones is an
      improvement. Values decide otherwise, a rise being an improvement unless lower is better. */
  lemma ChangePoints(k: DiffKey, b: Rollup, e: Rollup, lowerIsBetter: bool, unknown: bool, x: real, y: real)
    ensures var d := DiffOf(k, b, e, lowerIsBetter, unknown);
      && (Rated(b, x) && Rated(e, y) ==> d.Some? && (d.value.status == if Rises(x, y) then Improved else if Rises(y, x) then Regressed else Unchanged))
      && (Valued(b, x) && Valued(e, y) ==> d.Some? && d.value.change == y - x)
      && (Valued(b, x) && Valued(e, y) && (b.gated == 0 || e.gated == 0) && !lowerIsBetter ==>
          d.value.status == if Rises(x, y) then Improved else if Rises(y, x) then Regressed else Unchanged)
      && (Valued(b, x) && Valued(e, y) && (b.gated == 0 || e.gated == 0) && lowerIsBetter ==>
          d.value.status == if Rises(x, y) then Regressed else if Rises(y, x) then Improved else Unchanged)
  {
    if Rated(b, x) && Rated(e, y) {
      OneQuotient(x, b.gated as real, b.pass as real);
      OneQuotient(y, e.gated as real, e.pass as real);
    }
    if Valued(b, x) && Valued(e, y) {
      OneQuotient(x, |b.values| as real, Sum(b.values));
      OneQuotient(y, |e.values| as real, Sum(e.values));
    }
    hide Sum;
  }

  lemma OneQuotient(x: real, n: real, total: real)
    requires n > 0.0 && x * n == total
    ensures total / n == x
  {}

  /** A case that neither verdicts nor values compare is inconclusive when an arm could not measure it,
      and otherwise the base's if the base has anything of it. Nothing is said of a case both arms
      tried to measure and got errors for. */
  lemma OneSided(k: DiffKey, b: Rollup, e: Rollup, lowerIsBetter: bool, unknown: bool)
    requires (b.gated == 0 || e.gated == 0) && (b.values == [] || e.values == [])
    ensures var d := DiffOf(k, b, e, lowerIsBetter, unknown);
      && (d.None? <==> !unknown && !Measured(b) && !Measured(e))
      && (d.Some? ==> d.value.change == 0.0 && d.value.key == k)
      && (d.Some? ==> d.value.status == if unknown then Inconclusive else if Measured(b) then OnlyBase else OnlyExp)
  {
    hide EvalResults.Mean, Share;
  }

  /** An arm of one result with one score. */
  ghost predicate IsOne(r: ObservationResult, s: Score) {
    r.scores == [s] && r.observation.subject != FailedOnInfra && s.name != "" && s.error == "" && !s.inconclusive && s.passed.None?
  }

  /** The same case for a way of pairing: same item, same turn, and the same variant unless variants are
      what is compared. The sample does not matter. */
  ghost predicate SameItem(x: Observation, y: Observation, keyer: Keyer) {
    x.id == y.id && x.turn == y.turn && (keyer.WithVariant? ==> VariantOf(x) == VariantOf(y))
  }

  lemma SameItemIsSameCase(keyer: Keyer, x: Observation, y: Observation)
    ensures CaseOf(keyer, x) == CaseOf(keyer, y) <==> SameItem(x, y, keyer)
    ensures forall m: string, n: string :: DiffKeyOf(keyer, x, m) == DiffKeyOf(keyer, y, n) <==> m == n && SameItem(x, y, keyer)
  {}

  ghost function ArmOfOne(r: ObservationResult, s: Score, keyer: Keyer): Arm {
    Arm(map[DiffKeyOf(keyer, r.observation, s.name) := Rollup([s.value], 0, 0, false)], {})
  }

  lemma PickedOfOne<T>(r: ObservationResult, s: Score, keyer: Keyer, k: PairKey, pick: Score -> Option<T>)
    requires r.scores == [s]
    ensures Picked([r], keyer, k, pick) == if CaseOf(keyer, r.observation) == k && pick(s).Some? then [pick(s).value] else []
  {
    assert [r][..0] == [] && [s][..0] == [];
    assert PickedOf([s][..0], pick) == [];
    assert Picked([r][..0], keyer, k, pick) == [];
  }

  lemma IsArmOfOne(r: ObservationResult, s: Score, keyer: Keyer)
    requires IsOne(r, s)
    ensures IsArm(ArmOfOne(r, s, keyer), [r], keyer)
  {
    var a := ArmOfOne(r, s, keyer);
    forall k: DiffKey | k.metric != ""
      ensures k in a.rolled <==> Picked([r], keyer, CaseIn(k), AnyPick(k.metric)) != []
      ensures Fits(RollOf(a.rolled, k), Picked([r], keyer, CaseIn(k), ValuePick(k.metric)),
        Picked([r], keyer, CaseIn(k), VerdictPick(k.metric)), Picked([r], keyer, CaseIn(k), UnsurePick(k.metric)))
    {
      PickedOfOne(r, s, keyer, CaseIn(k), AnyPick(k.metric));
      PickedOfOne(r, s, keyer, CaseIn(k), ValuePick(k.metric));
      PickedOfOne(r, s, keyer, CaseIn(k), VerdictPick(k.metric));
      PickedOfOne(r, s, keyer, CaseIn(k), UnsurePick(k.metric));
      SameCase(keyer, r.observation, k);
    }
    assert UnmeasuredIn([r], keyer) == {};
  }

  /** The order of the cases in a report. */
  ghost predicate Precedes(a: DiffKey, b: DiffKey) {
    && (a.metric != b.metric ==> StringLess(a.metric, b.metric))
    && (a.metric == b.metric && a.id != b.id ==> StringLess(a.id, b.id))
    && (a.metric == b.metric && a.id == b.id && a.turn != b.turn ==> a.turn < b.turn)
    && (a.metric == b.metric && a.id == b.id && a.turn == b.turn ==> StringLess(a.variant, b.variant))
  }

  /** The entries of a report are those of the cases either arm rolled up, each once, in order. */
  ghost predicate Lists(ds: seq<CaseDiff>, b: Arm, e: Arm, lower: map<string, bool>, keys: set<DiffKey>) {
    && (forall i | 0 <= i < |ds| :: ds[i].key in keys && DiffAt(b, e, lower, ds[i].key) == Some(ds[i]))
    && (forall k | k in keys && DiffAt(b, e, lower, k).Some? :: DiffAt(b, e, lower, k).value in ds)
    && (forall i, j | 0 <= i < j < |ds| :: Precedes(ds[i].key, ds[j].key))
  }

  lemma ListsMore(ds: seq<CaseDiff>, b: Arm, e: Arm, lower: map<string, bool>, keys: set<DiffKey>, k: DiffKey)
    requires Lists(ds, b, e, lower, keys) && forall h | h in keys :: Precedes(h, k)
    ensures Lists(match DiffAt(b, e, lower, k) case None => ds case Some(d) => ds + [d], b, e, lower, keys + {k})
  {
    hide Precedes, DiffOf;
    DiffHasKey(b, e, lower, k);
    hide DiffAt;
    var d := DiffAt(b, e, lower, k);
    if d.Some? {
      var more := ds + [d.value];
      assert more[|ds|] == d.value;
      assert forall x | x in ds :: x in more;
    }
  }

  lemma LastPrecedes(keys: seq<DiffKey>, n: nat)
    requires Sorted(keys, DiffLess) && |keys| == n + 1
    ensures Sorted(keys[..n], DiffLess) && Elements(keys) == Elements(keys[..n]) + {keys[n]}
    ensures forall h | h in Elements(keys[..n]) :: Precedes(h, keys[n])
  {
    hide StringLess;
    assert keys == keys[..n] + [keys[n]];
    forall h | h in Elements(keys[..n])
      ensures Precedes(h, keys[n])
    {
      var i :| 0 <= i < n && keys[..n][i] == h;
      assert DiffLess(keys[i], keys[n]);
    }
  }

  lemma {:induction false} DiffsAlongLists(b: Arm, e: Arm, lower: map<string, bool>, keys: seq<DiffKey>)
    requires Sorted(keys, DiffLess)
    ensures Lists(DiffsAlong(b, e, lower, keys), b, e, lower, Elements(keys))
  {
    hide DiffAt, Precedes, DiffLess, Sorted;
    if keys != [] {
      var n := |keys| - 1;
      LastPrecedes(keys, n);
      DiffsAlongLists(b, e, lower, keys[..n]);
      ListsMore(DiffsAlong(b, e, lower, keys[..n]), b, e, lower, Elements(keys[..n]), keys[n]);
      var front := DiffsAlong(b, e, lower, keys[..n]);
      assert front + [] == front;
      hide Lists, Elements;
    }
  }

  lemma CaseDiffsLists(b: Arm, e: Arm, lower: map<string, bool>)
    ensures Lists(CaseDiffsOf(b, e, lower), b, e, lower, b.rolled.Keys + e.rolled.Keys)
  {
    hide DiffsAlong, Lists;
    DiffsAreOrdered();
    DiffsAlongLists(b, e, lower, SortedKeys(b.rolled.Keys + e.rolled.Keys));
  }

  /** Two arms with one score each of one metric. In the same case their values are compared, and
      otherwise each case is one arm's only. */
  lemma OneScoreEach(r: Report, x: ObservationResult, y: ObservationResult, s: Score, t: Score, keyer: Keyer, lower: map<string, bool>)
    requires IsOne(x, s) && IsOne(y, t) && s.name == t.name && Reports(r, [x], [y], keyer, lower)
    ensures var k, m := DiffKeyOf(keyer, x.observation, s.name), DiffKeyOf(keyer, y.observation, t.name);
      if SameItem(x.observation, y.observation, keyer) then
        var from := if LowerIsBetter(lower, s.name) then t.value else s.value;
        var to := if LowerIsBetter(lower, s.name) then s.value else t.value;
        r.cases == [CaseDiff(k, Some(s.value), Some(t.value), None, None, t.value - s.value,
          if Rises(from, to) then Improved else if Rises(to, from) then Regressed else Unchanged)]
      else
        forall d :: d in r.cases <==> d == CaseDiff(k, Some(s.value), None, None, None, 0.0, OnlyBase) || d == CaseDiff(m, None, Some(t.value), None, None, 0.0, OnlyExp)
  {
    hide KeyOf, StringLess, ReportsMeans, PassesOf, IsArm, Lists, Precedes, DiffAt, IsOne;
    var b, e := ArmOfOne(x, s, keyer), ArmOfOne(y, t, keyer);
    IsArmOfOne(x, s, keyer);
    IsArmOfOne(y, t, keyer);
    SameItemIsSameCase(keyer, x.observation, y.observation);
    CaseDiffsLists(b, e, lower);
    assert r.cases == CaseDiffsOf(b, e, lower);
    hide Reports, CaseDiffsOf;
    var k, m := DiffKeyOf(keyer, x.observation, s.name), DiffKeyOf(keyer, y.observation, t.name);
    if k == m {
      BothAt(b, e, lower, k, s.value, t.value);
      ListsOne(r.cases, b, e, lower, k);
    } else {
      BaseAt(b, e, lower, k, s.value);
      ExpAt(b, e, lower, m, t.value);
      ListsTwo(r.cases, b, e, lower, k, m);
    }
  }

  /** Two arms whose only rollup is one value of the same case. */
  lemma BothAt(b: Arm, e: Arm, lower: map<string, bool>, k: DiffKey, v: real, w: real)
    requires b == Arm(map[k := Rollup([v], 0, 0, false)], {}) && e == Arm(map[k := Rollup([w], 0, 0, false)], {})
    ensures var from := if LowerIsBetter(lower, k.metric) then w else v;
      var to := if LowerIsBetter(lower, k.metric) then v else w;
      DiffAt(b, e, lower, k) == Some(CaseDiff(k, Some(v), Some(w), None, None, w - v,
        if Rises(from, to) then Improved else if Rises(to, from) then Regressed else Unchanged))
  {
    MeanOfOne(v);
    MeanOfOne(w);
    hide EvalResults.Mean;
  }

  lemma BaseAt(b: Arm, e: Arm, lower: map<string, bool>, k: DiffKey, v: real)
    requires b == Arm(map[k := Rollup([v], 0, 0, false)], {}) && k !in e.rolled && e.unmeasured == {}
    ensures DiffAt(b, e, lower, k) == Some(CaseDiff(k, Some(v), None, None, None, 0.0, OnlyBase))
  {
    MeanOfOne(v);
    hide EvalResults.Mean;
  }

  lemma ExpAt(b: Arm, e: Arm, lower: map<string, bool>, k: DiffKey, v: real)
    requires e == Arm(map[k := Rollup([v], 0, 0, false)], {}) && k !in b.rolled && b.unmeasured == {}
    ensures DiffAt(b, e, lower, k) == Some(CaseDiff(k, None, Some(v), None, None, 0.0, OnlyExp))
  {
    MeanOfOne(v);
    hide EvalResults.Mean;
  }

  lemma ListsOne(ds: seq<CaseDiff>, b: Arm, e: Arm, lower: map<string, bool>, k: DiffKey)
    requires Lists(ds, b, e, lower, b.rolled.Keys + e.rolled.Keys) && b.rolled.Keys == e.rolled.Keys == {k} && DiffAt(b, e, lower, k).Some?
    ensures ds == [DiffAt(b, e, lower, k).value]
  {
    hide DiffAt;
    StringsAreOrdered();
    hide StringLess;
    var d := DiffAt(b, e, lower, k).value;
    assert d in ds;
    assert |ds| > 1 ==> Precedes(ds[0].key, ds[1].key);
    assert forall i | 0 <= i < |ds| :: ds[i] == d;
  }

  lemma ListsTwo(ds: seq<CaseDiff>, b: Arm, e: Arm, lower: map<string, bool>, k: DiffKey, m: DiffKey)
    requires Lists(ds, b, e, lower, b.rolled.Keys + e.rolled.Keys) && b.rolled.Keys == {k} && e.rolled.Keys == {m}
    requires DiffAt(b, e, lower, k).Some? && DiffAt(b, e, lower, m).Some?
    ensures forall d :: d in ds <==> d == DiffAt(b, e, lower, k).value || d == DiffAt(b, e, lower, m).value
  {
    hide DiffAt, Precedes;
  }
}
