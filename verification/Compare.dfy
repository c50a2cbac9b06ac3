/** The comparison of two arms of an evaluation (eval/compare.go): means and their differences, cases
    paired across the arms, verdicts, and what changed case by case. Intervals and p-values are not
    part of this model. */
module Compare {
  import opened EvalResults
  import opened Ordering

  const VARIANT: string := "variant"
  const TOLERANCE: real := 0.000000001

  // ---- cases ----

  datatype PairKey = PairKey(id: string, turn: int, sample: int, variant: string)

  datatype Keyer = WithVariant | WithoutVariant

  function VariantOf(obs: Observation): string {
    if VARIANT in obs.labels then obs.labels[VARIANT] else ""
  }

  function KeyOf(keyer: Keyer, obs: Observation): PairKey {
    PairKey(obs.id, obs.turn, obs.sample, if keyer.WithVariant? then VariantOf(obs) else "")
  }

  /** Samples of a case are independent draws, so a case drops the sample. */
  function CaseOf(keyer: Keyer, obs: Observation): PairKey {
    KeyOf(keyer, obs).(sample := 0)
  }

  /** The one variant all results share, if they do. */
  ghost predicate AllOf(results: seq<ObservationResult>, v: string) {
    results != [] && forall r | r in results :: VariantOf(r.observation) == v
  }

  method SingleVariant(results: seq<ObservationResult>) returns (v: Option<string>)
    ensures v.Some? ==> AllOf(results, v.value)
    ensures v.None? ==> forall w :: !AllOf(results, w)
  {
    if |results| == 0 {
      return None;
    }
    var first := VariantOf(results[0].observation);
    var i := 1;
    while i < |results|
      invariant 1 <= i <= |results| && forall j | 0 <= j < i :: VariantOf(results[j].observation) == first
    {
      if VariantOf(results[i].observation) != first {
        assert results[0] in results && results[i] in results;
        return None;
      }
      i := i + 1;
    }
    v := Some(first);
  }

  /** Cases pair by variant too, unless each arm holds exactly one and they differ. */
  ghost predicate OneVariantEach(base: seq<ObservationResult>, exp: seq<ObservationResult>) {
    exists b, e :: AllOf(base, b) && AllOf(exp, e) && b != e
  }

  ghost function KeyerOf(base: seq<ObservationResult>, exp: seq<ObservationResult>): Keyer {
    if OneVariantEach(base, exp) then WithoutVariant else WithVariant
  }

  lemma KeyerIsSymmetric(base: seq<ObservationResult>, exp: seq<ObservationResult>)
    ensures KeyerOf(base, exp) == KeyerOf(exp, base)
  {
    hide AllOf;
    if b, e :| AllOf(base, b) && AllOf(exp, e) && b != e {
      assert OneVariantEach(exp, base);
    }
    if e, b :| AllOf(exp, e) && AllOf(base, b) && e != b {
      assert OneVariantEach(base, exp);
    }
  }

  lemma AllOfOne(results: seq<ObservationResult>, v: string, w: string)
    requires AllOf(results, v) && AllOf(results, w)
    ensures v == w
  {
    assert results[0] in results;
  }

  method CaseKeyer(base: seq<ObservationResult>, exp: seq<ObservationResult>) returns (keyer: Keyer)
    ensures keyer == KeyerOf(base, exp)
  {
    hide AllOf;
    var b := SingleVariant(base);
    var e := SingleVariant(exp);
    if b.Some? && e.Some? {
      forall v, w | AllOf(base, v) && AllOf(exp, w)
        ensures v == b.value && w == e.value
      {
        AllOfOne(base, v, b.value);
        AllOfOne(exp, w, e.value);
      }
    }
    keyer := if b.Some? && e.Some? && b.value != e.value then WithoutVariant else WithVariant;
  }

  predicate PairLess(a: PairKey, b: PairKey) {
    if a.id != b.id then StringLess(a.id, b.id)
    else if a.turn != b.turn then a.turn < b.turn
    else if a.sample != b.sample then a.sample < b.sample
    else StringLess(a.variant, b.variant)
  }

  lemma PairsAreOrdered()
    ensures StrictTotal(PairLess)
  {
    StringsAreOrdered();
    hide StringLess;
  }

  ghost function SortedCases(s: set<PairKey>): (cases: seq<PairKey>)
    ensures Sorted(cases, PairLess) && Elements(cases) == s
  {
    PairsAreOrdered();
    SortedOf(s, PairLess)
  }

  // ---- per-case values and verdicts of one metric ----

  /** What a filter `pick` takes from the scores of a case, over the results in order. */
  function PickedOf<T>(scores: seq<Score>, pick: Score -> Option<T>): seq<T> {
    if scores == [] then [] else
      var n := |scores| - 1;
      PickedOf(scores[..n], pick) + (match pick(scores[n]) case None => [] case Some(x) => [x])
  }

  function Picked<T>(results: seq<ObservationResult>, keyer: Keyer, k: PairKey, pick: Score -> Option<T>): seq<T> {
    if results == [] then [] else
      var n := |results| - 1;
      var r := results[n];
      Picked(results[..n], keyer, k, pick) + (if CaseOf(keyer, r.observation) == k then PickedOf(r.scores, pick) else [])
  }

  function ValuePick(metric: string): Score -> Option<real> {
    (s: Score) => if s.name == metric && s.error == "" then Some(s.value) else None
  }

  function VerdictPick(metric: string): Score -> Option<bool> {
    (s: Score) => if s.name == metric then s.passed else None
  }

  /** The same over some results and some scores of the next one. */
  function PickedSoFar<T>(results: seq<ObservationResult>, keyer: Keyer, obs: Observation, scores: seq<Score>, k: PairKey, pick: Score -> Option<T>): seq<T> {
    Picked(results, keyer, k, pick) + (if CaseOf(keyer, obs) == k then PickedOf(scores, pick) else [])
  }

  function At<K, T>(table: map<K, seq<T>>, k: K): seq<T> {
    if k in table then table[k] else []
  }

  /** A table holds what `pick` takes, case by case, and a case only when there is something. */
  ghost predicate IsTable<T>(table: map<PairKey, seq<T>>, results: seq<ObservationResult>, keyer: Keyer, pick: Score -> Option<T>) {
    forall k :: (k in table <==> Picked(results, keyer, k, pick) != []) && At(table, k) == Picked(results, keyer, k, pick)
  }

  ghost predicate IsTableSoFar<T>(table: map<PairKey, seq<T>>, results: seq<ObservationResult>, keyer: Keyer, obs: Observation, scores: seq<Score>, pick: Score -> Option<T>) {
    forall k :: (k in table <==> PickedSoFar(results, keyer, obs, scores, k, pick) != []) && At(table, k) == PickedSoFar(results, keyer, obs, scores, k, pick)
  }

  lemma PickedOneMore<T>(results: seq<ObservationResult>, keyer: Keyer, obs: Observation, scores: seq<Score>, j: nat, k: PairKey, pick: Score -> Option<T>)
    requires j < |scores|
    ensures var before := PickedSoFar(results, keyer, obs, scores[..j], k, pick);
      PickedSoFar(results, keyer, obs, scores[..j + 1], k, pick) ==
      if CaseOf(keyer, obs) == k && pick(scores[j]).Some? then before + [pick(scores[j]).value] else before
  {
    assert scores[..j + 1][..j] == scores[..j];
    var front := PickedOf(scores[..j], pick);
    assert front + [] == front;
  }

  lemma TableOneMore<T>(table: map<PairKey, seq<T>>, results: seq<ObservationResult>, keyer: Keyer, obs: Observation, scores: seq<Score>, j: nat, pick: Score -> Option<T>)
    requires j < |scores| && IsTableSoFar(table, results, keyer, obs, scores[..j], pick)
    ensures var c := CaseOf(keyer, obs); var x := pick(scores[j]);
      IsTableSoFar(if x.Some? then table[c := At(table, c) + [x.value]] else table, results, keyer, obs, scores[..j + 1], pick)
  {
    hide PickedSoFar, CaseOf;
    forall k
      ensures var before := PickedSoFar(results, keyer, obs, scores[..j], k, pick);
        PickedSoFar(results, keyer, obs, scores[..j + 1], k, pick) ==
        if CaseOf(keyer, obs) == k && pick(scores[j]).Some? then before + [pick(scores[j]).value] else before
    {
      PickedOneMore(results, keyer, obs, scores, j, k, pick);
    }
  }

  lemma TableStarts<T>(table: map<PairKey, seq<T>>, results: seq<ObservationResult>, keyer: Keyer, obs: Observation, pick: Score -> Option<T>)
    requires IsTable(table, results, keyer, pick)
    ensures IsTableSoFar(table, results, keyer, obs, [], pick)
  {
    forall k
      ensures PickedSoFar(results, keyer, obs, [], k, pick) == Picked(results, keyer, k, pick)
    {
    }
    hide PickedSoFar, Picked;
  }

  lemma TableEnds<T>(table: map<PairKey, seq<T>>, results: seq<ObservationResult>, i: nat, keyer: Keyer, pick: Score -> Option<T>)
    requires i < |results| && IsTableSoFar(table, results[..i], keyer, results[i].observation, results[i].scores, pick)
    ensures IsTable(table, results[..i + 1], keyer, pick)
  {
    var front := results[..i + 1];
    assert front[..i] == results[..i];
    forall k
      ensures Picked(front, keyer, k, pick) == PickedSoFar(results[..i], keyer, results[i].observation, results[i].scores, k, pick)
    {
    }
    hide PickedSoFar, Picked;
  }

  lemma {:induction false} PickedOnlyInCases<T>(results: seq<ObservationResult>, keyer: Keyer, k: PairKey, pick: Score -> Option<T>)
    requires Picked(results, keyer, k, pick) != []
    ensures exists r :: r in results && CaseOf(keyer, r.observation) == k
  {
    hide CaseOf;
    var n := |results| - 1;
    if CaseOf(keyer, results[n].observation) == k {
      assert results[n] in results;
    } else {
      PickedOnlyInCases(results[..n], keyer, k, pick);
    }
  }

  /** The table of a pick, which the loops below build. */
  ghost function TableOf<T>(results: seq<ObservationResult>, keyer: Keyer, pick: Score -> Option<T>): map<PairKey, seq<T>> {
    var cases := set r | r in results :: CaseOf(keyer, r.observation);
    map k | k in cases && Picked(results, keyer, k, pick) != [] :: Picked(results, keyer, k, pick)
  }

  lemma TableOfIsTable<T>(results: seq<ObservationResult>, keyer: Keyer, pick: Score -> Option<T>)
    ensures IsTable(TableOf(results, keyer, pick), results, keyer, pick)
  {
    hide CaseOf;
    forall k | Picked(results, keyer, k, pick) != []
      ensures k in TableOf(results, keyer, pick)
    {
      PickedOnlyInCases(results, keyer, k, pick);
    }
  }

  lemma NoTable<T>(keyer: Keyer, pick: Score -> Option<T>)
    ensures IsTable(map[], [], keyer, pick)
  {}

  /** The successful values of a metric by case, one a sample. */
  method SuccessfulScores(results: seq<ObservationResult>, keyer: Keyer, metric: string) returns (out: map<PairKey, seq<real>>)
    ensures IsTable(out, results, keyer, ValuePick(metric))
  {
    hide IsTable, IsTableSoFar, CaseOf;
    out := map[];
    var i := 0;
    NoTable(keyer, ValuePick(metric));
    assert results[..0] == [];
    while i < |results|
      invariant i <= |results| && IsTable(out, results[..i], keyer, ValuePick(metric))
    {
      var r := results[i];
      TableStarts(out, results[..i], keyer, r.observation, ValuePick(metric));
      var j := 0;
      assert r.scores[..0] == [];
      while j < |r.scores|
        invariant j <= |r.scores| && IsTableSoFar(out, results[..i], keyer, r.observation, r.scores[..j], ValuePick(metric))
      {
        var s := r.scores[j];
        TableOneMore(out, results[..i], keyer, r.observation, r.scores, j, ValuePick(metric));
        if s.name == metric && s.error == "" {
          var k := CaseOf(keyer, r.observation);
          out := out[k := At(out, k) + [s.value]];
        }
        j := j + 1;
      }
      assert r.scores[..j] == r.scores;
      TableEnds(out, results, i, keyer, ValuePick(metric));
      i := i + 1;
    }
    assert results[..i] == results;
  }

  function TableFor(tables: map<string, map<PairKey, seq<bool>>>, metric: string): map<PairKey, seq<bool>> {
    if metric in tables then tables[metric] else map[]
  }

  ghost predicate AreTables(tables: map<string, map<PairKey, seq<bool>>>, results: seq<ObservationResult>, keyer: Keyer) {
    forall metric :: IsTable(TableFor(tables, metric), results, keyer, VerdictPick(metric)) && (metric in tables ==> tables[metric] != map[])
  }

  ghost predicate AreTablesSoFar(tables: map<string, map<PairKey, seq<bool>>>, results: seq<ObservationResult>, keyer: Keyer, obs: Observation, scores: seq<Score>) {
    forall metric :: IsTableSoFar(TableFor(tables, metric), results, keyer, obs, scores, VerdictPick(metric)) && (metric in tables ==> tables[metric] != map[])
  }

  lemma TablesOneMore(tables: map<string, map<PairKey, seq<bool>>>, results: seq<ObservationResult>, keyer: Keyer, obs: Observation, scores: seq<Score>, j: nat)
    requires j < |scores| && AreTablesSoFar(tables, results, keyer, obs, scores[..j])
    ensures var s := scores[j]; var k := CaseOf(keyer, obs); var t := TableFor(tables, s.name);
      AreTablesSoFar(if s.passed.Some? then tables[s.name := t[k := At(t, k) + [s.passed.value]]] else tables, results, keyer, obs, scores[..j + 1])
  {
    hide IsTableSoFar, CaseOf;
    var s := scores[j];
    forall metric
      ensures var t := TableFor(tables, metric); var k := CaseOf(keyer, obs);
        IsTableSoFar(if metric == s.name && s.passed.Some? then t[k := At(t, k) + [s.passed.value]] else t, results, keyer, obs, scores[..j + 1], VerdictPick(metric))
    {
      assert IsTableSoFar(TableFor(tables, metric), results, keyer, obs, scores[..j], VerdictPick(metric));
      TableOneMore(TableFor(tables, metric), results, keyer, obs, scores, j, VerdictPick(metric));
    }
  }

  /** The gate verdicts of every metric by case, one a sample. */
  method Verdicts(results: seq<ObservationResult>, keyer: Keyer) returns (out: map<string, map<PairKey, seq<bool>>>)
    ensures AreTables(out, results, keyer)
  {
    hide AreTables, AreTablesSoFar, CaseOf;
    out := map[];
    var i := 0;
    NoTables(keyer);
    assert results[..0] == [];
    while i < |results|
      invariant i <= |results| && AreTables(out, results[..i], keyer)
    {
      var r := results[i];
      TablesStart(out, results[..i], keyer, r.observation);
      var j := 0;
      assert r.scores[..0] == [];
      while j < |r.scores|
        invariant j <= |r.scores| && AreTablesSoFar(out, results[..i], keyer, r.observation, r.scores[..j])
      {
        var s := r.scores[j];
        TablesOneMore(out, results[..i], keyer, r.observation, r.scores, j);
        if s.passed.Some? {
          var m := TableFor(out, s.name);
          var k := CaseOf(keyer, r.observation);
          out := out[s.name := m[k := At(m, k) + [s.passed.value]]];
        }
        j := j + 1;
      }
      assert r.scores[..j] == r.scores;
      TablesEnd(out, results, i, keyer);
      i := i + 1;
    }
    assert results[..i] == results;
  }

  lemma NoTables(keyer: Keyer)
    ensures AreTables(map[], [], keyer)
  {
    forall metric
      ensures IsTable(map[], [], keyer, VerdictPick(metric))
    {
      NoTable(keyer, VerdictPick(metric));
    }
  }

  lemma TablesStart(tables: map<string, map<PairKey, seq<bool>>>, results: seq<ObservationResult>, keyer: Keyer, obs: Observation)
    requires AreTables(tables, results, keyer)
    ensures AreTablesSoFar(tables, results, keyer, obs, [])
  {
    hide IsTable, IsTableSoFar;
    forall metric
      ensures IsTableSoFar(TableFor(tables, metric), results, keyer, obs, [], VerdictPick(metric))
    {
      TableStarts(TableFor(tables, metric), results, keyer, obs, VerdictPick(metric));
    }
  }

  lemma TablesEnd(tables: map<string, map<PairKey, seq<bool>>>, results: seq<ObservationResult>, i: nat, keyer: Keyer)
    requires i < |results| && AreTablesSoFar(tables, results[..i], keyer, results[i].observation, results[i].scores)
    ensures AreTables(tables, results[..i + 1], keyer)
  {
    hide IsTable, IsTableSoFar;
    forall metric
      ensures IsTable(TableFor(tables, metric), results[..i + 1], keyer, VerdictPick(metric))
    {
      TableEnds(TableFor(tables, metric), results, i, keyer, VerdictPick(metric));
    }
  }
}
