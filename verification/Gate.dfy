/** Gating an evaluation suite (eval/assert.go, eval/inconclusive.go): two loops look at the same scores,
    one that stamps each with a verdict and one that lists violations, and the outcome follows from
    the second. */
module Gate {
  import opened EvalResults

  datatype Op = GTE | LTE | EQ | UnknownOp

  const TOLERANCE: real := 0.000000001

  predicate Holds(op: Op, value: real, threshold: real) {
    match op
    case GTE => value >= threshold
    case LTE => value <= threshold
    case EQ => -TOLERANCE <= value - threshold <= TOLERANCE
    case UnknownOp => false
  }

  /** `Unset` is an empty scope, which means every case. */
  datatype Scope = Unset | EveryCase | OnAggregate | UnknownScope

  datatype Assertion = Assertion(metric: string, op: Op, threshold: real, scope: Scope, where_: Labels, minPassRate: real)

  datatype Outcome = Passed | Failed | Inconclusive | Unasserted

  datatype CaseId = CaseId(id: string, turn: int, sample: int)

  datatype Kind = Metric | Scorer | SubjectKind | InconclusiveKind

  datatype Cause =
    | Incomplete(n: int)
    | SubjectFailed(n: int)
    | SubjectOnInfra(n: int)
    | BadOp
    | BadScope
    | NoSuccessfulScores
    | ScorerOnInfra(error: string)
    | ScorerFailed(error: string)
    | NotHeld(value: real)
    | NotFound
    | PassRateBelow(rate: real, graded: nat)

  datatype Violation = Violation(kind: Kind, assertion: Option<Assertion>, case_: Option<CaseId>, cause: Cause)

  predicate PerCase(a: Assertion) {
    !a.op.UnknownOp? && (a.scope.Unset? || a.scope.EveryCase?)
  }

  // ---- stamping ----

  /** An assertion covers a score of its metric on an observation in its scope. */
  predicate Covers(a: Assertion, obs: Observation, name: string) {
    PerCase(a) && Match(a.where_, obs) && name == a.metric
  }

  predicate HoldsOn(a: Assertion, s: Score) {
    s.error == "" && Holds(a.op, s.value, a.threshold)
  }

  /** What a score's stamp means: nothing when no assertion covers it or it is inconclusive, and else
      whether every assertion that covers it holds. */
  ghost predicate IsStamp(stamp: Option<bool>, obs: Observation, s: Score, assertions: seq<Assertion>) {
    && (stamp.Some? <==> !s.inconclusive && exists a :: a in assertions && Covers(a, obs, s.name))
    && (stamp.Some? ==> (stamp.value <==> forall a | a in assertions && Covers(a, obs, s.name) :: HoldsOn(a, s)))
  }

  /** The same scores, whatever their stamps. */
  predicate SameScore(s: Score, t: Score) {
    s == t.(passed := s.passed)
  }

  ghost predicate StampedScores(after: seq<Score>, before: seq<Score>, obs: Observation, assertions: seq<Assertion>) {
    && |after| == |before|
    && forall j | 0 <= j < |after| :: SameScore(after[j], before[j]) && IsStamp(after[j].passed, obs, after[j], assertions)
  }

  ghost predicate Stamped(after: seq<ObservationResult>, before: seq<ObservationResult>, assertions: seq<Assertion>) {
    && |after| == |before|
    && forall i | 0 <= i < |after| ::
      after[i].observation == before[i].observation && StampedScores(after[i].scores, before[i].scores, before[i].observation, assertions)
  }

  /** Which scores an assertion covers, and how, determines the stamps; so two results that are both
      stamped are the same. */
  lemma StampsAreUnique(x: seq<ObservationResult>, y: seq<ObservationResult>, before: seq<ObservationResult>, as1: seq<Assertion>, as2: seq<Assertion>)
    requires Stamped(x, before, as1) && Stamped(y, before, as2) && forall a :: a in as1 <==> a in as2
    ensures x == y
  {
    hide Covers, HoldsOn;
    forall i | 0 <= i < |x|
      ensures x[i] == y[i]
    {
      var obs := before[i].observation;
      forall j | 0 <= j < |x[i].scores|
        ensures x[i].scores[j] == y[i].scores[j]
      {
        var s, t := x[i].scores[j], y[i].scores[j];
        assert SameScore(s, before[i].scores[j]) && SameScore(t, before[i].scores[j]);
        SameStamp(s.passed, t.passed, obs, s, t, as1, as2);
      }
      assert x[i].scores == y[i].scores;
    }
  }

  lemma SameStamp(p: Option<bool>, q: Option<bool>, obs: Observation, s: Score, t: Score, as1: seq<Assertion>, as2: seq<Assertion>)
    requires IsStamp(p, obs, s, as1) && IsStamp(q, obs, t, as2) && SameScore(s, t)
    requires forall a :: a in as1 <==> a in as2
    ensures p == q
  {
    hide Covers;
    assert forall a :: HoldsOn(a, s) == HoldsOn(a, t);
  }

  method ClearScores(scores: seq<Score>) returns (cleared: seq<Score>)
    ensures |cleared| == |scores| && forall j | 0 <= j < |scores| :: cleared[j] == scores[j].(passed := None)
  {
    cleared := scores;
    var j := 0;
    while j < |scores|
      invariant j <= |scores| == |cleared|
      invariant forall k | 0 <= k < |scores| :: cleared[k] == if k < j then scores[k].(passed := None) else scores[k]
    {
      cleared := cleared[j := cleared[j].(passed := None)];
      j := j + 1;
    }
  }

  /** One assertion's verdicts on the scores of a result in its scope, joined with those so far. */
  method StampScores(a: Assertion, ghost front: seq<Assertion>, obs: Observation, scores: seq<Score>) returns (stamped: seq<Score>)
    requires PerCase(a) && Match(a.where_, obs) && StampedScores(scores, scores, obs, front)
    ensures StampedScores(stamped, scores, obs, front + [a])
  {
    hide IsStamp;
    stamped := scores;
    var j := 0;
    while j < |scores|
      invariant j <= |scores| == |stamped|
      invariant forall k | 0 <= k < j :: SameScore(stamped[k], scores[k]) && IsStamp(stamped[k].passed, obs, stamped[k], front + [a])
      invariant forall k | j <= k < |scores| :: stamped[k] == scores[k]
    {
      var s := stamped[j];
      if s.name == a.metric && !s.inconclusive {
        var ok := s.error == "" && Holds(a.op, s.value, a.threshold);
        if s.passed.Some? {
          ok := ok && s.passed.value;
        }
        stamped := stamped[j := s.(passed := Some(ok))];
      }
      StampJoined(a, front, obs, s, stamped[j].passed);
      j := j + 1;
    }
  }

  lemma StampJoined(a: Assertion, front: seq<Assertion>, obs: Observation, s: Score, stamp: Option<bool>)
    requires IsStamp(s.passed, obs, s, front)
    requires stamp == if Covers(a, obs, s.name) && !s.inconclusive then Some(HoldsOn(a, s) && (s.passed.Some? ==> s.passed.value)) else s.passed
    ensures IsStamp(stamp, obs, s.(passed := stamp), front + [a])
  {
    hide Covers;
    var t := s.(passed := stamp);
    assert forall b :: b in front + [a] <==> b in front || b == a;
    assert forall b :: HoldsOn(b, t) == HoldsOn(b, s);
    hide HoldsOn;
  }

  // ---- checking ----

  datatype Graded = Graded(case_: CaseId, score: Score)

  function CaseOf(obs: Observation): CaseId {
    CaseId(obs.id, obs.turn, obs.sample)
  }

  /** The scores of the asserted metric on one observation. */
  function OfMetric(obs: Observation, scores: seq<Score>, metric: string): seq<Graded> {
    if scores == [] then [] else
      var n := |scores| - 1;
      OfMetric(obs, scores[..n], metric) + (if scores[n].name == metric then [Graded(CaseOf(obs), scores[n])] else [])
  }

  /** The scores an assertion is about, in order. */
  function InScope(results: seq<ObservationResult>, a: Assertion): seq<Graded> {
    if results == [] then [] else
      var n := |results| - 1;
      var r := results[n];
      InScope(results[..n], a) + (if Match(a.where_, r.observation) then OfMetric(r.observation, r.scores, a.metric) else [])
  }

  function Judge(a: Assertion, g: Graded): Option<Violation> {
    if g.score.error != "" && g.score.inconclusive then
      Some(Violation(InconclusiveKind, Some(a), Some(g.case_), ScorerOnInfra(g.score.error)))
    else if g.score.error != "" then
      Some(Violation(Scorer, Some(a), Some(g.case_), ScorerFailed(g.score.error)))
    else if !Holds(a.op, g.score.value, a.threshold) then
      Some(Violation(Metric, Some(a), Some(g.case_), NotHeld(g.score.value)))
    else None
  }

  function Judged(a: Assertion, graded: seq<Graded>): seq<Violation> {
    if graded == [] then [] else
      var n := |graded| - 1;
      Judged(a, graded[..n]) + (match Judge(a, graded[n]) case None => [] case Some(v) => [v])
  }

  function OnlyInconclusive(vs: seq<Violation>): seq<Violation> {
    if vs == [] then [] else
      var n := |vs| - 1;
      OnlyInconclusive(vs[..n]) + (if vs[n].kind.InconclusiveKind? then [vs[n]] else [])
  }

  /** Nothing in scope could have scored. */
  predicate NothingConclusive(results: seq<ObservationResult>, incomplete: int, where_: Labels) {
    && (forall r | r in results && Match(where_, r.observation) :: IsInconclusive(r))
    && (incomplete > 0 || exists r :: r in results && Match(where_, r.observation))
  }

  function MissingKind(results: seq<ObservationResult>, incomplete: int, where_: Labels): Kind {
    if NothingConclusive(results, incomplete, where_) then InconclusiveKind else Metric
  }

  /** The violations of a per-case assertion. */
  function CaseViolations(results: seq<ObservationResult>, incomplete: int, a: Assertion): seq<Violation> {
    var graded := InScope(results, a);
    var vs := Judged(a, graded);
    var unmeasured := OnlyInconclusive(vs);
    if graded == [] then [Violation(MissingKind(results, incomplete, a.where_), Some(a), None, NotFound)]
    else if a.minPassRate <= 0.0 then vs
    else
      var n := |graded| - |unmeasured|;
      if n <= 0 then unmeasured
      else
        var rate := ((|graded| - |vs|) as real) / (n as real);
        if rate >= a.minPassRate then unmeasured else vs + [Violation(Metric, Some(a), None, PassRateBelow(rate, n))]
  }

  // ---- how the two loops agree ----

  lemma {:induction false} OfMetricMembers(obs: Observation, scores: seq<Score>, metric: string)
    ensures forall g :: g in OfMetric(obs, scores, metric) <==> g.case_ == CaseOf(obs) && g.score in scores && g.score.name == metric
  {
    if scores != [] {
      var n := |scores| - 1;
      OfMetricMembers(obs, scores[..n], metric);
      assert scores == scores[..n] + [scores[n]];
    }
  }

  ghost predicate IsInScope(results: seq<ObservationResult>, a: Assertion, g: Graded) {
    exists r :: r in results && Match(a.where_, r.observation) && g.case_ == CaseOf(r.observation) && g.score in r.scores && g.score.name == a.metric
  }

  lemma {:induction false} InScopeMembers(results: seq<ObservationResult>, a: Assertion)
    ensures forall g :: g in InScope(results, a) <==> IsInScope(results, a, g)
  {
    hide Match;
    if results != [] {
      var n := |results| - 1;
      var r := results[n];
      InScopeMembers(results[..n], a);
      OfMetricMembers(r.observation, r.scores, a.metric);
      assert results == results[..n] + [r];
      forall g
        ensures IsInScope(results, a, g) <==> IsInScope(results[..n], a, g) || (Match(a.where_, r.observation) && g in OfMetric(r.observation, r.scores, a.metric))
      {
      }
      hide IsInScope;
    }
  }

  lemma {:induction false} JudgedMembers(a: Assertion, graded: seq<Graded>)
    ensures forall v :: v in Judged(a, graded) <==> exists g :: g in graded && Judge(a, g) == Some(v)
  {
    hide Judge;
    if graded != [] {
      var n := |graded| - 1;
      JudgedMembers(a, graded[..n]);
      assert graded == graded[..n] + [graded[n]];
    }
  }

  lemma {:induction false} JudgedIsShorter(a: Assertion, graded: seq<Graded>)
    ensures |OnlyInconclusive(Judged(a, graded))| <= |Judged(a, graded)| <= |graded|
  {
    hide Judge;
    if graded != [] {
      JudgedIsShorter(a, graded[..|graded| - 1]);
    }
    OnlyInconclusiveIsShorter(Judged(a, graded));
  }

  lemma {:induction false} OnlyInconclusiveIsShorter(vs: seq<Violation>)
    ensures |OnlyInconclusive(vs)| <= |vs|
    ensures forall v :: v in OnlyInconclusive(vs) <==> v in vs && v.kind.InconclusiveKind?
  {
    if vs != [] {
      var n := |vs| - 1;
      OnlyInconclusiveIsShorter(vs[..n]);
      assert vs == vs[..n] + [vs[n]];
    }
  }

  ghost predicate HasReal(vs: seq<Violation>) {
    exists v :: v in vs && !v.kind.InconclusiveKind?
  }

  /** A per-case assertion without a pass rate has no violation exactly when its metric was scored in
      its scope and holds on every score there. */
  lemma PlainViolations(results: seq<ObservationResult>, incomplete: int, a: Assertion)
    requires a.minPassRate <= 0.0
    ensures CaseViolations(results, incomplete, a) == [] <==>
      (exists g :: IsInScope(results, a, g)) && forall g | IsInScope(results, a, g) :: HoldsOn(a, g.score)
  {
    hide IsInScope;
    var graded := InScope(results, a);
    InScopeMembers(results, a);
    JudgedMembers(a, graded);
    if graded != [] {
      assert graded[0] in graded;
      if Judged(a, graded) != [] {
        var v := Judged(a, graded)[0];
        assert v in Judged(a, graded);
      }
      forall g | g in graded && !HoldsOn(a, g.score)
        ensures Judged(a, graded) != []
      {
        assert Judge(a, g).Some?;
        assert Judge(a, g).value in Judged(a, graded);
      }
    }
  }

  // ---- a suite ----

  /** What is read of a suite besides its scores. */
  datatype Measured = Measured(incomplete: nat, subjectErrors: int, aggregate: map<string, real>)

  /** The value an aggregate assertion looks at: the stored mean, or that of the results in scope. */
  ghost predicate IsAggregate(value: Option<real>, m: Measured, results: seq<ObservationResult>, a: Assertion) {
    if |a.where_| == 0 then value == (if a.metric in m.aggregate then Some(m.aggregate[a.metric]) else None)
    else var xs := AllValues(Filtered(results, a.where_), a.metric);
      value == if a.metric != "" && xs != [] then Some(Mean(xs)) else None
  }

  function Filtered(results: seq<ObservationResult>, where_: Labels): seq<ObservationResult> {
    if results == [] then [] else
      var n := |results| - 1;
      Filtered(results[..n], where_) + (if Match(where_, results[n].observation) then [results[n]] else [])
  }

  ghost function AggregateOf(m: Measured, results: seq<ObservationResult>, a: Assertion): (value: Option<real>)
    ensures IsAggregate(value, m, results, a)
  {
    if |a.where_| == 0 then (if a.metric in m.aggregate then Some(m.aggregate[a.metric]) else None)
    else var xs := AllValues(Filtered(results, a.where_), a.metric);
      if a.metric != "" && xs != [] then Some(Mean(xs)) else None
  }

  /** The violations of one assertion. */
  ghost function Violations(m: Measured, results: seq<ObservationResult>, a: Assertion): seq<Violation> {
    if a.op.UnknownOp? then [Violation(Metric, Some(a), None, BadOp)]
    else if a.scope.OnAggregate? then
      match AggregateOf(m, results, a)
      case None => [Violation(MissingKind(results, m.incomplete, a.where_), Some(a), None, NoSuccessfulScores)]
      case Some(value) => if Holds(a.op, value, a.threshold) then [] else [Violation(Metric, Some(a), None, NotHeld(value))]
    else if a.scope.UnknownScope? then [Violation(Metric, Some(a), None, BadScope)]
    else CaseViolations(results, m.incomplete, a)
  }

  function OnInfra(results: seq<ObservationResult>): nat {
    if results == [] then 0 else
      var n := |results| - 1;
      OnInfra(results[..n]) + (if results[n].observation.subject.FailedOnInfra? then 1 else 0)
  }

  /** The violations of the suite itself. */
  function SuiteViolations(m: Measured, results: seq<ObservationResult>): seq<Violation> {
    var infra := OnInfra(results);
    (if m.incomplete > 0 then [Violation(InconclusiveKind, None, None, Incomplete(m.incomplete))] else [])
    + (if m.subjectErrors - infra > 0 then [Violation(SubjectKind, None, None, SubjectFailed(m.subjectErrors - infra))] else [])
    + (if infra > 0 then [Violation(InconclusiveKind, None, None, SubjectOnInfra(infra))] else [])
  }

  ghost function AllViolations(m: Measured, results: seq<ObservationResult>, assertions: seq<Assertion>): seq<Violation> {
    if assertions == [] then SuiteViolations(m, results) else
      var n := |assertions| - 1;
      AllViolations(m, results, assertions[..n]) + Violations(m, results, assertions[n])
  }

  /** The outcome depends on whether there is a real violation, and any at all. */
  function Decided(real_: bool, any: bool, rate: real, tolerated: real): Outcome {
    if real_ then Failed else if any && rate > tolerated then Inconclusive else Passed
  }

  lemma {:induction false} ViolationsOf(m: Measured, results: seq<ObservationResult>, assertions: seq<Assertion>)
    ensures forall v :: v in AllViolations(m, results, assertions) <==>
      v in SuiteViolations(m, results) || exists a :: a in assertions && v in Violations(m, results, a)
  {
    hide SuiteViolations, Violations;
    if assertions != [] {
      var n := |assertions| - 1;
      ViolationsOf(m, results, assertions[..n]);
      assert assertions == assertions[..n] + [assertions[n]];
    }
  }

  /** The order and number of times assertions are given do not matter. */
  lemma SameAssertionsSameOutcome(m: Measured, results: seq<ObservationResult>, as1: seq<Assertion>, as2: seq<Assertion>)
    requires forall a :: a in as1 <==> a in as2
    ensures HasReal(AllViolations(m, results, as1)) <==> HasReal(AllViolations(m, results, as2))
    ensures AllViolations(m, results, as1) == [] <==> AllViolations(m, results, as2) == []
  {
    hide AllViolations, Violations, SuiteViolations;
    var x, y := AllViolations(m, results, as1), AllViolations(m, results, as2);
    ViolationsOf(m, results, as1);
    ViolationsOf(m, results, as2);
    assert forall v :: v in x <==> v in y;
    assert x != [] ==> x[0] in x;
    assert y != [] ==> y[0] in y;
  }

  /** The cases of a suite, one an observation ID, and those with a result that could not be measured. */
  function CaseIds(results: seq<ObservationResult>): set<string> {
    set r | r in results :: r.observation.id
  }

  function UnmeasuredIds(results: seq<ObservationResult>): set<string> {
    set r | r in results && IsInconclusive(r) :: r.observation.id
  }

  lemma UnmeasuredAreCases(results: seq<ObservationResult>)
    ensures UnmeasuredIds(results) <= CaseIds(results) && |UnmeasuredIds(results)| <= |CaseIds(results)|
  {
    assert UnmeasuredIds(results) <= CaseIds(results);
    SubsetIsSmaller(UnmeasuredIds(results), CaseIds(results));
  }

  lemma SubsetIsSmaller(a: set<string>, b: set<string>)
    requires a <= b
    ensures |a| <= |b|
  {
    assert b == a + (b - a) && |a + (b - a)| == |a| + |b - a|;
  }

  class Suite {
    var results: seq<ObservationResult>
    const measured: Measured
    var violations: seq<Violation>
    var outcome: Outcome

    constructor (results: seq<ObservationResult>, measured: Measured)
      ensures this.results == results && this.measured == measured && violations == [] && outcome == Unasserted
    {
      this.results, this.measured, violations, outcome := results, measured, [], Unasserted;
    }

    /** Whether nothing in scope could have scored a metric. */
    method NoConclusiveResult(where_: Labels) returns (yes: bool)
      ensures yes == NothingConclusive(results, measured.incomplete, where_)
      ensures (exists r :: r in results && Match(where_, r.observation) && !IsInconclusive(r)) ==> !yes
      ensures measured.incomplete <= 0 && (forall r | r in results :: !Match(where_, r.observation)) ==> !yes
      ensures measured.incomplete > 0 && (forall r | r in results && Match(where_, r.observation) :: IsInconclusive(r)) ==> yes
      ensures (exists r :: r in results && Match(where_, r.observation)) && (forall r | r in results && Match(where_, r.observation) :: IsInconclusive(r)) ==> yes
    {
      yes := measured.incomplete > 0;
      var i := 0;
      while i < |results|
        invariant i <= |results|
        invariant forall j | 0 <= j < i && Match(where_, results[j].observation) :: IsInconclusive(results[j])
        invariant yes <==> measured.incomplete > 0 || exists j :: 0 <= j < i && Match(where_, results[j].observation)
      {
        var r := results[i];
        assert r in results;
        if Match(where_, r.observation) {
          if !IsInconclusive(r) {
            return false;
          }
          yes := true;
        }
        i := i + 1;
      }
      assert forall r | r in results :: exists j :: 0 <= j < |results| && results[j] == r;
    }

    method MissingMetric(a: Assertion, cause: Cause) returns (vs: seq<Violation>)
      ensures vs == [Violation(MissingKind(results, measured.incomplete, a.where_), Some(a), None, cause)]
    {
      var nothing := NoConclusiveResult(a.where_);
      vs := [Violation(if nothing then InconclusiveKind else Metric, Some(a), None, cause)];
    }

    /** The violations of one assertion. */
    method CheckOne(a: Assertion) returns (vs: seq<Violation>)
      ensures vs == Violations(measured, results, a)
    {
      hide InScope, Judged, OnlyInconclusive;
      if a.op.UnknownOp? {
        return [Violation(Metric, Some(a), None, BadOp)];
      }
      if a.scope.OnAggregate? {
        var value := ScopedAggregate(a);
        if value.None? {
          vs := MissingMetric(a, NoSuccessfulScores);
          return;
        }
        return if Holds(a.op, value.value, a.threshold) then [] else [Violation(Metric, Some(a), None, NotHeld(value.value))];
      }
      if a.scope.UnknownScope? {
        return [Violation(Metric, Some(a), None, BadScope)];
      }
      var out, seen, held, inconclusive := GradeScope(a);
      if seen == 0 {
        vs := MissingMetric(a, NotFound);
        return;
      }
      if a.minPassRate > 0.0 {
        var kept := KeepInconclusive(out);
        var graded := seen - inconclusive;
        if graded == 0 {
          return kept;
        }
        var rate := (held as real) / (graded as real);
        if rate >= a.minPassRate {
          return kept;
        }
        out := out + [Violation(Metric, Some(a), None, PassRateBelow(rate, graded))];
      }
      return out;
    }

    /** The mean an aggregate assertion looks at. */
    method ScopedAggregate(a: Assertion) returns (value: Option<real>)
      ensures value == AggregateOf(measured, results, a)
    {
      if |a.where_| == 0 {
        return if a.metric in measured.aggregate then Some(measured.aggregate[a.metric]) else None;
      }
      var filtered := Filter(results, a.where_);
      var means, _ := AggregateCounts(filtered);
      value := if a.metric in means then Some(means[a.metric]) else None;
    }

    /** The loop over the scores in scope, with how many there were, held, and could not be measured. */
    method GradeScope(a: Assertion) returns (out: seq<Violation>, seen: nat, held: nat, inconclusive: nat)
      ensures out == Judged(a, InScope(results, a)) && seen == |InScope(results, a)|
      ensures held == seen - |out| && inconclusive == |OnlyInconclusive(out)| <= seen
    {
      hide Judge;
      out, seen, held, inconclusive := [], 0, 0, 0;
      var i := 0;
      while i < |results|
        invariant i <= |results|
        invariant out == Judged(a, InScope(results[..i], a)) && seen == |InScope(results[..i], a)|
        invariant held == seen - |out| && inconclusive == |OnlyInconclusive(out)|
      {
        var r := results[i];
        assert results[..i + 1][..i] == results[..i];
        ghost var front := InScope(results[..i], a);
        assert front + [] == front;
        if Match(a.where_, r.observation) {
          out, seen, held, inconclusive := GradeScores(a, front, r.observation, r.scores, out, seen, held, inconclusive);
        }
        i := i + 1;
      }
      assert results[..i] == results;
      JudgedIsShorter(a, InScope(results, a));
    }

    /** Every violation of the suite and of the assertions. */
    method Check(assertions: seq<Assertion>) returns (vs: seq<Violation>)
      ensures vs == AllViolations(measured, results, assertions)
    {
      hide Violations;
      var infra, i := 0, 0;
      while i < |results|
        invariant i <= |results| && infra == OnInfra(results[..i])
      {
        assert results[..i + 1][..i] == results[..i];
        if results[i].observation.subject.FailedOnInfra? {
          infra := infra + 1;
        }
        i := i + 1;
      }
      assert results[..i] == results;
      vs := [];
      if measured.incomplete > 0 {
        vs := vs + [Violation(InconclusiveKind, None, None, Incomplete(measured.incomplete))];
      }
      if measured.subjectErrors - infra > 0 {
        vs := vs + [Violation(SubjectKind, None, None, SubjectFailed(measured.subjectErrors - infra))];
      }
      if infra > 0 {
        vs := vs + [Violation(InconclusiveKind, None, None, SubjectOnInfra(infra))];
      }
      assert vs == SuiteViolations(measured, results);
      i := 0;
      while i < |assertions|
        invariant i <= |assertions| && vs == AllViolations(measured, results, assertions[..i])
      {
        assert assertions[..i + 1][..i] == assertions[..i];
        var more := CheckOne(assertions[i]);
        vs := vs + more;
        i := i + 1;
      }
      assert assertions[..i] == assertions;
    }

    /** Removes every stamp. */
    method ClearStamps()
      modifies this`results
      ensures Stamped(results, old(results), [])
    {
      var i := 0;
      while i < |results|
        invariant i <= |results| == |old(results)|
        invariant forall k | i <= k < |results| :: results[k] == old(results)[k]
        invariant forall k | 0 <= k < i :: results[k].observation == old(results)[k].observation
        invariant forall k | 0 <= k < i :: StampedScores(results[k].scores, old(results)[k].scores, old(results)[k].observation, [])
      {
        var scores := ClearScores(results[i].scores);
        assert StampedScores(scores, results[i].scores, results[i].observation, []);
        results := results[i := results[i].(scores := scores)];
        i := i + 1;
      }
    }

    /** Stamps every score an assertion covers, on top of the stamps of those before it. */
    method StampAssertion(a: Assertion, ghost front: seq<Assertion>, ghost before: seq<ObservationResult>)
      requires Stamped(results, before, front) && PerCase(a)
      modifies this`results
      ensures Stamped(results, before, front + [a])
    {
      hide StampedScores, PerCase;
      var i := 0;
      while i < |results|
        invariant i <= |results| == |before|
        invariant forall k | 0 <= k < |results| :: results[k].observation == before[k].observation
        invariant forall k | 0 <= k < i :: StampedScores(results[k].scores, before[k].scores, before[k].observation, front + [a])
        invariant forall k | i <= k < |results| :: StampedScores(results[k].scores, before[k].scores, before[k].observation, front)
      {
        var r := results[i];
        if Match(a.where_, r.observation) {
          StampedAgain(r.scores, before[i].scores, r.observation, front);
          var scores := StampScores(a, front, r.observation, r.scores);
          StampedFrom(scores, r.scores, before[i].scores, r.observation, front, front + [a]);
          results := results[i := r.(scores := scores)];
        } else {
          NotCovered(r.scores, before[i].scores, r.observation, front, a);
        }
        i := i + 1;
      }
    }

    /** Stamps the scores, lists the violations, and decides: a real violation fails, and otherwise
        more unmeasured cases than are tolerated leave the gate open. */
    method GateWith(maxInconclusive: real, assertions: seq<Assertion>) returns (decided: Outcome)
      modifies this`results, this`violations, this`outcome
      ensures Stamped(results, old(results), assertions) && outcome == decided
      ensures assertions == [] ==> violations == [] && decided == Unasserted
      ensures assertions != [] ==> violations == AllViolations(measured, results, assertions)
      ensures assertions != [] ==> decided == Decided(HasReal(violations), violations != [], RateOf(measured, results), maxInconclusive)
    {
      hide Stamped, AllViolations, RateOf;
      ClearStamps();
      if |assertions| == 0 {
        violations, outcome := [], Unasserted;
        return outcome;
      }
      var i := 0;
      while i < |assertions|
        invariant i <= |assertions| && Stamped(results, old(results), assertions[..i])
      {
        var a := assertions[i];
        assert assertions[..i + 1] == assertions[..i] + [a];
        if PerCase(a) {
          StampAssertion(a, assertions[..i], old(results));
        } else {
          CoversNothing(results, old(results), assertions[..i], a);
        }
        i := i + 1;
      }
      assert assertions[..i] == assertions;
      violations := Check(assertions);
      outcome := Outcome.Passed;
      i := 0;
      while i < |violations|
        invariant i <= |violations| && violations == AllViolations(measured, results, assertions) && outcome == Outcome.Passed
        invariant forall k | 0 <= k < i :: violations[k].kind.InconclusiveKind?
        invariant Stamped(results, old(results), assertions)
      {
        if !violations[i].kind.InconclusiveKind? {
          outcome := Outcome.Failed;
          assert violations[i] in violations;
          return outcome;
        }
        i := i + 1;
      }
      if |violations| > 0 {
        var rate := InconclusiveRate();
        if rate > maxInconclusive {
          outcome := Outcome.Inconclusive;
        }
      }
      return outcome;
    }

    /** The share of cases that could not be measured, an incomplete observation counting as one. */
    method InconclusiveRate() returns (rate: real)
      ensures rate == RateOf(measured, results) && 0.0 <= rate <= 1.0
    {
      hide CaseIds, UnmeasuredIds;
      var cases := TableCases(results);
      RateIsShare(measured, results);
      var total := |cases| + measured.incomplete;
      assert |cases| == |cases.Keys|;
      if total == 0 {
        return 0.0;
      }
      var bad := CountTrue(cases);
      UnmeasuredAreCases(results);
      assert UnmeasuredIds(results) == set id | id in cases && cases[id];
      rate := ((bad + measured.incomplete) as real) / (total as real);
    }
  }

  ghost predicate IsTable(cases: map<string, bool>, ids: set<string>, bad: set<string>) {
    cases.Keys == ids && bad <= ids && forall id | id in cases :: cases[id] <==> id in bad
  }

  lemma TableGrows(cases: map<string, bool>, ids: set<string>, bad: set<string>, id: string, unmeasured: bool)
    requires IsTable(cases, ids, bad)
    ensures IsTable(cases[id := (if id in cases then cases[id] else false) || unmeasured], ids + {id}, bad + (if unmeasured then {id} else {}))
  {}

  /** Which cases have a result that could not be measured. */
  method TableCases(results: seq<ObservationResult>) returns (cases: map<string, bool>)
    ensures IsTable(cases, CaseIds(results), UnmeasuredIds(results))
  {
    hide CaseIds, UnmeasuredIds, IsInconclusive, IsTable;
    cases := map[];
    var i := 0;
    NoCases();
    assert results[..0] == [];
    while i < |results|
      invariant i <= |results| && IsTable(cases, CaseIds(results[..i]), UnmeasuredIds(results[..i]))
    {
      var r := results[i];
      var id := r.observation.id;
      OneMoreCase(results[..i], r);
      assert results[..i + 1] == results[..i] + [r];
      TableGrows(cases, CaseIds(results[..i]), UnmeasuredIds(results[..i]), id, IsInconclusive(r));
      cases := cases[id := (if id in cases then cases[id] else false) || IsInconclusive(r)];
      i := i + 1;
    }
    assert results[..i] == results;
  }

  lemma NoCases()
    ensures CaseIds([]) == {} && UnmeasuredIds([]) == {} && IsTable(map[], {}, {})
  {}

  /** The share of a suite's cases that could not be measured. */
  function RateOf(m: Measured, results: seq<ObservationResult>): real {
    var total := |CaseIds(results)| + m.incomplete;
    if total == 0 then 0.0 else ((|UnmeasuredIds(results)| + m.incomplete) as real) / (total as real)
  }

  lemma RateIsShare(m: Measured, results: seq<ObservationResult>)
    ensures 0.0 <= RateOf(m, results) <= 1.0
    ensures RateOf(m, results) > 0.0 <==> m.incomplete > 0 || exists r :: r in results && IsInconclusive(r)
    ensures var total := |CaseIds(results)| + m.incomplete;
      total > 0 ==> RateOf(m, results) * (total as real) == (|UnmeasuredIds(results)| + m.incomplete) as real
  {
    UnmeasuredAreCases(results);
    var bad, total := |UnmeasuredIds(results)| + m.incomplete, |CaseIds(results)| + m.incomplete;
    if total > 0 {
      ShareIsRatio(bad, total);
    }
    if r :| r in results && IsInconclusive(r) {
      assert r.observation.id in UnmeasuredIds(results);
    }
    if UnmeasuredIds(results) != {} {
      var id :| id in UnmeasuredIds(results);
    }
  }

  lemma ShareIsRatio(bad: nat, total: nat)
    requires bad <= total && total > 0
    ensures var rate := (bad as real) / (total as real); 0.0 <= rate <= 1.0 && (rate > 0.0 <==> bad > 0)
  {
    var rate := (bad as real) / (total as real);
    assert rate * (total as real) == bad as real;
  }

  lemma OneMoreCase(results: seq<ObservationResult>, r: ObservationResult)
    ensures CaseIds(results + [r]) == CaseIds(results) + {r.observation.id}
    ensures UnmeasuredIds(results + [r]) == UnmeasuredIds(results) + (if IsInconclusive(r) then {r.observation.id} else {})
  {
    hide IsInconclusive;
    assert forall x :: x in results + [r] <==> x in results || x == r;
  }

  method CountTrue(cases: map<string, bool>) returns (n: nat)
    ensures n == |set id | id in cases && cases[id]|
  {
    n := 0;
    var rest := cases.Keys;
    assert (set id | id in cases && id !in rest && cases[id]) == {};
    while rest != {}
      invariant rest <= cases.Keys && n == |set id | id in cases && id !in rest && cases[id]|
      decreases |rest|
    {
      var id :| id in rest;
      ghost var before := set id | id in cases && id !in rest && cases[id];
      rest := rest - {id};
      assert (set x | x in cases && x !in rest && cases[x]) == if cases[id] then before + {id} else before;
      if cases[id] {
        n := n + 1;
      }
    }
    assert (set id | id in cases && id !in rest && cases[id]) == set id | id in cases && cases[id];
  }

  // ---- stamps, from one assertion to the next ----

  lemma StampedAgain(scores: seq<Score>, before: seq<Score>, obs: Observation, assertions: seq<Assertion>)
    requires StampedScores(scores, before, obs, assertions)
    ensures StampedScores(scores, scores, obs, assertions)
  {
    hide IsStamp;
  }

  lemma StampedFrom(after: seq<Score>, scores: seq<Score>, before: seq<Score>, obs: Observation, front: seq<Assertion>, assertions: seq<Assertion>)
    requires StampedScores(after, scores, obs, assertions) && StampedScores(scores, before, obs, front)
    ensures StampedScores(after, before, obs, assertions)
  {
    hide IsStamp;
    assert forall j | 0 <= j < |after| :: SameScore(after[j], scores[j]) && SameScore(scores[j], before[j]);
  }

  lemma SameStamps(p: Option<bool>, obs: Observation, s: Score, front: seq<Assertion>, a: Assertion)
    requires IsStamp(p, obs, s, front) && !Covers(a, obs, s.name)
    ensures IsStamp(p, obs, s, front + [a])
  {
    hide Covers, HoldsOn;
    assert forall b :: b in front + [a] <==> b in front || b == a;
  }

  lemma NotCovered(scores: seq<Score>, before: seq<Score>, obs: Observation, front: seq<Assertion>, a: Assertion)
    requires StampedScores(scores, before, obs, front) && (!Match(a.where_, obs) || !PerCase(a))
    ensures StampedScores(scores, before, obs, front + [a])
  {
    hide IsStamp, Match;
    forall j | 0 <= j < |scores|
      ensures IsStamp(scores[j].passed, obs, scores[j], front + [a])
    {
      SameStamps(scores[j].passed, obs, scores[j], front, a);
    }
  }

  lemma CoversNothing(results: seq<ObservationResult>, before: seq<ObservationResult>, front: seq<Assertion>, a: Assertion)
    requires Stamped(results, before, front) && !PerCase(a)
    ensures Stamped(results, before, front + [a])
  {
    hide StampedScores;
    forall i | 0 <= i < |results|
      ensures StampedScores(results[i].scores, before[i].scores, before[i].observation, front + [a])
    {
      NotCovered(results[i].scores, before[i].scores, before[i].observation, front, a);
    }
  }

  /** The loop over the scores of one observation. */
  method GradeScores(a: Assertion, ghost front: seq<Graded>, obs: Observation, scores: seq<Score>, out0: seq<Violation>, seen0: nat, held0: nat, inconclusive0: nat)
    returns (out: seq<Violation>, seen: nat, held: nat, inconclusive: nat)
    requires out0 == Judged(a, front) && seen0 == |front| && held0 == seen0 - |out0| && inconclusive0 == |OnlyInconclusive(out0)|
    ensures var all := front + OfMetric(obs, scores, a.metric);
      out == Judged(a, all) && seen == |all| && held == seen - |out| && inconclusive == |OnlyInconclusive(out)|
  {
    hide Judge, Judged, OnlyInconclusive;
    out, seen, held, inconclusive := out0, seen0, held0, inconclusive0;
    var j := 0;
    assert front + OfMetric(obs, [], a.metric) == front && scores[..0] == [];
    while j < |scores|
      invariant j <= |scores|
      invariant var all := front + OfMetric(obs, scores[..j], a.metric);
        out == Judged(a, all) && seen == |all| && held == seen - |out| && inconclusive == |OnlyInconclusive(out)|
    {
      var s := scores[j];
      assert scores[..j + 1][..j] == scores[..j];
      if s.name == a.metric {
        var g := Graded(CaseOf(obs), s);
        ghost var all := front + OfMetric(obs, scores[..j], a.metric);
        assert front + (OfMetric(obs, scores[..j], a.metric) + [g]) == all + [g];
        OneMoreJudged(a, all, g);
        seen := seen + 1;
        var v := Judge(a, g);
        if v.Some? {
          out := out + [v.value];
          inconclusive := inconclusive + (if v.value.kind.InconclusiveKind? then 1 else 0);
        } else {
          held := held + 1;
        }
      } else {
        assert OfMetric(obs, scores[..j], a.metric) + [] == OfMetric(obs, scores[..j], a.metric);
      }
      j := j + 1;
    }
    assert scores[..j] == scores;
  }

  lemma OneMoreJudged(a: Assertion, graded: seq<Graded>, g: Graded)
    ensures Judged(a, graded + [g]) == if Judge(a, g).Some? then Judged(a, graded) + [Judge(a, g).value] else Judged(a, graded)
    ensures Judge(a, g).Some? ==> var v := Judge(a, g).value; var vs := Judged(a, graded);
      |OnlyInconclusive(vs + [v])| == |OnlyInconclusive(vs)| + (if v.kind.InconclusiveKind? then 1 else 0)
  {
    hide Judge;
    assert (graded + [g])[..|graded|] == graded;
    var vs := Judged(a, graded);
    assert vs + [] == vs;
    if Judge(a, g).Some? {
      assert (vs + [Judge(a, g).value])[..|vs|] == vs;
    }
  }

  method KeepInconclusive(vs: seq<Violation>) returns (kept: seq<Violation>)
    ensures kept == OnlyInconclusive(vs)
  {
    kept := [];
    var i := 0;
    while i < |vs|
      invariant i <= |vs| && kept == OnlyInconclusive(vs[..i])
    {
      assert vs[..i + 1][..i] == vs[..i];
      if vs[i].kind.InconclusiveKind? {
        kept := kept + [vs[i]];
      }
      i := i + 1;
    }
    assert vs[..i] == vs;
  }

  method Filter(results: seq<ObservationResult>, where_: Labels) returns (out: seq<ObservationResult>)
    ensures out == Filtered(results, where_)
  {
    out := [];
    var i := 0;
    while i < |results|
      invariant i <= |results| && out == Filtered(results[..i], where_)
    {
      assert results[..i + 1][..i] == results[..i];
      if Match(where_, results[i].observation) {
        out := out + [results[i]];
      }
      i := i + 1;
    }
    assert results[..i] == results;
  }

  // ---- the two loops agree ----

  /** Everything was measured: nothing incomplete, no subject failed, no score is inconclusive. */
  predicate FullyMeasured(m: Measured, results: seq<ObservationResult>) {
    m.incomplete == 0 && m.subjectErrors <= 0 && forall r | r in results :: !IsInconclusive(r)
  }

  /** Every inconclusive score says which error made it so, as a scorer that fails on infrastructure does. */
  predicate Explained(results: seq<ObservationResult>) {
    forall r | r in results :: forall s | s in r.scores :: s.inconclusive ==> s.error != ""
  }

  predicate Plain(assertions: seq<Assertion>) {
    forall a | a in assertions :: PerCase(a) && a.minPassRate <= 0.0
  }

  /** Every asserted metric was scored on an observation in its scope. */
  ghost predicate EachMetricOccurs(results: seq<ObservationResult>, assertions: seq<Assertion>) {
    forall a | a in assertions :: exists g :: IsInScope(results, a, g)
  }

  /** The metric was scored nowhere in scope, though something there could be measured. */
  ghost predicate Missing(m: Measured, results: seq<ObservationResult>, a: Assertion) {
    (forall g :: !IsInScope(results, a, g)) && !NothingConclusive(results, m.incomplete, a.where_)
  }

  ghost predicate NoneStampedFalse(results: seq<ObservationResult>) {
    forall r | r in results :: forall s | s in r.scores :: s.passed != Some(false)
  }

  /** A score in scope that was measured and on which the assertion does not hold. */
  ghost predicate MissesOn(results: seq<ObservationResult>, a: Assertion, g: Graded) {
    IsInScope(results, a, g) && !g.score.inconclusive && !HoldsOn(a, g.score)
  }

  /** A score in scope that is held against the threshold though it gets no stamp. */
  ghost predicate SlipsOn(results: seq<ObservationResult>, a: Assertion, g: Graded) {
    IsInScope(results, a, g) && g.score.inconclusive && g.score.error == "" && !Holds(a.op, g.score.value, a.threshold)
  }

  /** The gate lists a real violation exactly when a score is stamped false, a metric is missing, a
      subject failed for other reasons than infrastructure, or a score slips between the two loops. */
  lemma RealWhenStampedFalse(m: Measured, results: seq<ObservationResult>, before: seq<ObservationResult>, assertions: seq<Assertion>)
    requires Stamped(results, before, assertions) && Plain(assertions)
    ensures HasReal(AllViolations(m, results, assertions)) <==>
      !NoneStampedFalse(results) || m.subjectErrors > OnInfra(results) ||
      (exists a :: a in assertions && Missing(m, results, a)) || exists a, g :: a in assertions && SlipsOn(results, a, g)
    ensures Explained(results) ==> !exists a, g :: a in assertions && SlipsOn(results, a, g)
  {
    hide Violations, AllViolations, IsInScope, Stamped, SuiteViolations, Missing, NothingConclusive, HoldsOn;
    forall a, g | Explained(results) && IsInScope(results, a, g)
      ensures !SlipsOn(results, a, g)
    {
      GradedIsExplained(results, a, g);
    }
    hide Explained;
    var vs := AllViolations(m, results, assertions);
    ViolationsOf(m, results, assertions);
    SuiteHasReal(m, results);
    StampsAreHolds(results, before, assertions);
    forall a | a in assertions
      ensures HasReal(Violations(m, results, a)) <==> Missing(m, results, a) || exists g :: MissesOn(results, a, g) || SlipsOn(results, a, g)
    {
      PlainCheck(m, results, a);
    }
  }

  lemma SuiteHasReal(m: Measured, results: seq<ObservationResult>)
    ensures HasReal(SuiteViolations(m, results)) <==> m.subjectErrors > OnInfra(results)
  {
    var failed := Violation(SubjectKind, None, None, SubjectFailed(m.subjectErrors - OnInfra(results)));
    assert m.subjectErrors > OnInfra(results) ==> failed in SuiteViolations(m, results);
  }

  lemma PlainCheck(m: Measured, results: seq<ObservationResult>, a: Assertion)
    requires PerCase(a) && a.minPassRate <= 0.0
    ensures HasReal(Violations(m, results, a)) <==> Missing(m, results, a) || exists g :: MissesOn(results, a, g) || SlipsOn(results, a, g)
  {
    hide IsInScope, NothingConclusive;
    var graded := InScope(results, a);
    InScopeMembers(results, a);
    JudgedMembers(a, graded);
    if graded == [] {
      var v := Violation(MissingKind(results, m.incomplete, a.where_), Some(a), None, NotFound);
      assert Violations(m, results, a) == [v];
      assert v in [v];
    } else {
      assert graded[0] in graded;
      assert Violations(m, results, a) == Judged(a, graded);
      forall g | g in graded
        ensures (Judge(a, g).Some? && !Judge(a, g).value.kind.InconclusiveKind?) <==> MissesOn(results, a, g) || SlipsOn(results, a, g)
      {
      }
    }
  }

  // ---- assertions with a pass rate ----

  predicate IsHeld(a: Assertion, s: Score) {
    s.name == a.metric && HoldsOn(a, s)
  }

  /** Counted by a pass rate: every score of the metric but those that failed on infrastructure. */
  predicate IsGraded(a: Assertion, s: Score) {
    s.name == a.metric && !(s.inconclusive && s.error != "")
  }

  function HeldIn(a: Assertion, scores: seq<Score>): nat {
    if scores == [] then 0 else HeldIn(a, scores[..|scores| - 1]) + (if IsHeld(a, scores[|scores| - 1]) then 1 else 0)
  }

  function GradedIn(a: Assertion, scores: seq<Score>): nat {
    if scores == [] then 0 else GradedIn(a, scores[..|scores| - 1]) + (if IsGraded(a, scores[|scores| - 1]) then 1 else 0)
  }

  /** How many scores in scope hold, and how many count. */
  function HeldCount(results: seq<ObservationResult>, a: Assertion): nat {
    if results == [] then 0 else
      var r := results[|results| - 1];
      HeldCount(results[..|results| - 1], a) + (if Match(a.where_, r.observation) then HeldIn(a, r.scores) else 0)
  }

  function GradedCount(results: seq<ObservationResult>, a: Assertion): nat {
    if results == [] then 0 else
      var r := results[|results| - 1];
      GradedCount(results[..|results| - 1], a) + (if Match(a.where_, r.observation) then GradedIn(a, r.scores) else 0)
  }

  /** Scores that hold are not listed, and of those listed the inconclusive ones do not count. */
  predicate Counted(a: Assertion, graded: seq<Graded>, held: int, counts: int) {
    held == |graded| - |Judged(a, graded)| && counts == |graded| - |OnlyInconclusive(Judged(a, graded))|
  }

  lemma CountedMore(a: Assertion, graded: seq<Graded>, g: Graded, held: int, counts: int)
    requires Counted(a, graded, held, counts) && g.score.name == a.metric
    ensures Counted(a, graded + [g], held + (if IsHeld(a, g.score) then 1 else 0), counts + (if IsGraded(a, g.score) then 1 else 0))
  {
    OneMoreJudged(a, graded, g);
  }

  lemma {:induction false} CountScores(a: Assertion, front: seq<Graded>, obs: Observation, scores: seq<Score>, held: int, counts: int)
    requires Counted(a, front, held, counts)
    ensures Counted(a, front + OfMetric(obs, scores, a.metric), held + HeldIn(a, scores), counts + GradedIn(a, scores))
  {
    hide Counted;
    if scores == [] {
      assert front + OfMetric(obs, scores, a.metric) == front;
    } else {
      var n := |scores| - 1;
      CountScores(a, front, obs, scores[..n], held, counts);
      var all := front + OfMetric(obs, scores[..n], a.metric);
      if scores[n].name == a.metric {
        var g := Graded(CaseOf(obs), scores[n]);
        CountedMore(a, all, g, held + HeldIn(a, scores[..n]), counts + GradedIn(a, scores[..n]));
        assert front + OfMetric(obs, scores, a.metric) == all + [g];
      } else {
        assert front + OfMetric(obs, scores, a.metric) == all;
      }
    }
  }

  lemma {:induction false} CountScope(results: seq<ObservationResult>, a: Assertion)
    ensures Counted(a, InScope(results, a), HeldCount(results, a), GradedCount(results, a))
  {
    if results != [] {
      hide Counted, Match;
      var n := |results| - 1;
      var r := results[n];
      CountScope(results[..n], a);
      if Match(a.where_, r.observation) {
        CountScores(a, InScope(results[..n], a), r.observation, r.scores, HeldCount(results[..n], a), GradedCount(results[..n], a));
      } else {
        assert InScope(results, a) == InScope(results[..n], a);
      }
    }
  }

  lemma RateIsBelow(held: nat, graded: nat, min: real)
    requires graded > 0
    ensures (held as real) / (graded as real) < min <==> (held as real) < min * (graded as real)
  {
    var rate := (held as real) / (graded as real);
    assert rate * (graded as real) == held as real;
    if rate < min {
      assert (min - rate) * (graded as real) > 0.0;
    } else {
      assert (rate - min) * (graded as real) >= 0.0;
    }
  }

  /** An assertion with a pass rate is really violated exactly when its metric is missing, or some score
      counts and fewer hold than the rate asks for. */
  lemma RelaxedCheck(m: Measured, results: seq<ObservationResult>, a: Assertion)
    requires PerCase(a) && a.minPassRate > 0.0
    ensures HasReal(Violations(m, results, a)) <==> Missing(m, results, a) || FallsShort(results, a)
  {
    hide IsInScope, NothingConclusive, Judged, OnlyInconclusive, HeldCount, GradedCount, InScope;
    var graded := InScope(results, a);
    var vs := Judged(a, graded);
    InScopeMembers(results, a);
    CountScope(results, a);
    OnlyInconclusiveIsShorter(vs);
    var held, counts := HeldCount(results, a), GradedCount(results, a);
    if graded == [] {
      NothingGraded(a);
      var v := Violation(MissingKind(results, m.incomplete, a.where_), Some(a), None, NotFound);
      assert Violations(m, results, a) == [v];
      assert v in [v];
    } else {
      assert graded[0] in graded;
      if counts > 0 {
        var rate := (held as real) / (counts as real);
        RateIsBelow(held, counts, a.minPassRate);
        var v := Violation(Metric, Some(a), None, PassRateBelow(rate, counts));
        assert v in vs + [v];
      }
    }
  }

  lemma NothingGraded(a: Assertion)
    ensures Judged(a, []) == [] && OnlyInconclusive([]) == []
  {}

  ghost predicate FallsShort(results: seq<ObservationResult>, a: Assertion) {
    GradedCount(results, a) > 0 && (HeldCount(results, a) as real) < a.minPassRate * (GradedCount(results, a) as real)
  }

  // ---- any assertion ----

  /** The value an aggregate assertion looks at breaks it, or there is none though there could be. */
  ghost predicate BreaksAggregate(m: Measured, results: seq<ObservationResult>, a: Assertion) {
    exists value :: IsAggregate(value, m, results, a) &&
      if value.Some? then !Holds(a.op, value.value, a.threshold) else !NothingConclusive(results, m.incomplete, a.where_)
  }

  /** What makes a gate fail on an assertion. */
  ghost predicate Breaks(m: Measured, results: seq<ObservationResult>, a: Assertion) {
    if a.op.UnknownOp? || a.scope.UnknownScope? then true
    else if a.scope.OnAggregate? then BreaksAggregate(m, results, a)
    else if a.minPassRate > 0.0 then Missing(m, results, a) || FallsShort(results, a)
    else Missing(m, results, a) || exists g :: MissesOn(results, a, g) || SlipsOn(results, a, g)
  }

  lemma BreaksIsReal(m: Measured, results: seq<ObservationResult>, a: Assertion)
    ensures HasReal(Violations(m, results, a)) <==> Breaks(m, results, a)
  {
    if PerCase(a) {
      if a.minPassRate > 0.0 {
        RelaxedCheck(m, results, a);
      } else {
        PlainCheck(m, results, a);
      }
    } else {
      hide NothingConclusive, Holds, CaseViolations, FallsShort, Missing;
      var vs := Violations(m, results, a);
      assert vs == [] || (|vs| == 1 && vs[0] in vs);
      if a.scope.OnAggregate? && !a.op.UnknownOp? {
        assert IsAggregate(AggregateOf(m, results, a), m, results, a);
      }
    }
  }

  /** Whatever the assertions, gating fails exactly when a subject failed for other reasons than
      infrastructure or an assertion is broken. */
  method GateOnBreaks(suite: Suite, tolerated: real, assertions: seq<Assertion>) returns (decided: Outcome)
    requires assertions != []
    modifies suite
    ensures Stamped(suite.results, old(suite.results), assertions) && suite.outcome == decided
    ensures decided.Failed? <==> suite.measured.subjectErrors > OnInfra(suite.results) || exists a :: a in assertions && Breaks(suite.measured, suite.results, a)
    ensures !decided.Failed? ==>
      decided == if suite.violations != [] && RateOf(suite.measured, suite.results) > tolerated then Outcome.Inconclusive else Outcome.Passed
    ensures suite.violations == AllViolations(suite.measured, suite.results, assertions)
  {
    hide Stamped, AllViolations, RateOf, Violations, SuiteViolations, Breaks;
    decided := suite.GateWith(tolerated, assertions);
    ViolationsOf(suite.measured, suite.results, assertions);
    SuiteHasReal(suite.measured, suite.results);
    forall a | a in assertions
      ensures HasReal(Violations(suite.measured, suite.results, a)) <==> Breaks(suite.measured, suite.results, a)
    {
      BreaksIsReal(suite.measured, suite.results, a);
    }
  }

  /** What each operator asks of a value. */
  ghost predicate Meets(op: Op, value: real, threshold: real) {
    || (op.GTE? && threshold <= value)
    || (op.LTE? && threshold >= value)
    || (op.EQ? && value <= threshold + 0.000000001 && threshold <= value + 0.000000001)
  }

  /** A suite with one score: its gate passes exactly when the value meets the threshold, whether case by
      case, under a pass rate, or as a mean; and fails otherwise. */
  method GateOneScore(obs: Observation, value: real, a: Assertion, tolerated: real) returns (decided: Outcome)
    requires !obs.subject.FailedOnInfra? && Match(a.where_, obs) && a.metric != "" && a.minPassRate <= 1.0
    ensures decided == if Meets(a.op, value, a.threshold) && !a.scope.UnknownScope? then Outcome.Passed else Outcome.Failed
  {
    hide Stamped, RateOf;
    var s := Score(a.metric, value, "", false, None);
    var suite := new Suite([ObservationResult(obs, [s])], Measured(0, 0, map[a.metric := value]));
    decided := GateOnBreaks(suite, tolerated, [a]);
    OneScoreStamped(suite.results, obs, s, [a]);
    assert a in [a];
    hide Breaks;
    OneScoreBreaks(suite.measured, suite.results, obs, a, suite.results[0].scores[0]);
    if !Breaks(suite.measured, suite.results, a) {
      OneScoreClean(suite.measured, suite.results, obs, a, suite.results[0].scores[0]);
    }
  }

  lemma OneScoreStamped(results: seq<ObservationResult>, obs: Observation, s: Score, assertions: seq<Assertion>)
    requires Stamped(results, [ObservationResult(obs, [s])], assertions)
    ensures |results| == 1 && |results[0].scores| == 1 && SameScore(results[0].scores[0], s)
    ensures results == [ObservationResult(obs, [results[0].scores[0]])]
  {
    assert StampedScores(results[0].scores, [s], obs, assertions);
    assert results[0].scores == [results[0].scores[0]];
  }

  lemma OneScore(results: seq<ObservationResult>, obs: Observation, a: Assertion, s: Score)
    requires results == [ObservationResult(obs, [s])] && s.name == a.metric && s.error == "" && !s.inconclusive && Match(a.where_, obs)
    ensures InScope(results, a) == [Graded(CaseOf(obs), s)]
    ensures HeldCount(results, a) == (if HoldsOn(a, s) then 1 else 0) && GradedCount(results, a) == 1
    ensures OnInfra(results) == if obs.subject.FailedOnInfra? then 1 else 0
  {
    hide Match, HoldsOn;
    var all := [s];
    assert results[..|results| - 1] == [] && all[..|all| - 1] == [];
    assert OfMetric(obs, [s], a.metric) == [] + [Graded(CaseOf(obs), s)];
    assert InScope(results, a) == [] + OfMetric(obs, [s], a.metric);
    assert HeldIn(a, all) == (if HoldsOn(a, s) then 1 else 0) && GradedIn(a, all) == 1;
  }

  lemma OneValue(results: seq<ObservationResult>, obs: Observation, where_: Labels, s: Score)
    requires results == [ObservationResult(obs, [s])] && s.error == "" && Match(where_, obs)
    ensures Filtered(results, where_) == results && AllValues(results, s.name) == [s.value] && Mean([s.value]) == s.value
  {
    hide Match, Mean, Sum;
    MeanOfOne(s.value);
    var all := [s];
    assert results[..|results| - 1] == [] && all[..|all| - 1] == [];
    assert Filtered(results, where_) == [] + [results[0]];
    assert Values(all, s.name) == [] + [s.value];
    assert AllValues(results, s.name) == [] + Values(all, s.name);
  }

  lemma OneScoreBreaks(m: Measured, results: seq<ObservationResult>, obs: Observation, a: Assertion, s: Score)
    requires results == [ObservationResult(obs, [s])] && s.name == a.metric != "" && s.error == "" && !s.inconclusive
    requires Match(a.where_, obs) && a.minPassRate <= 1.0 && a.metric in m.aggregate && m.aggregate[a.metric] == s.value
    ensures Breaks(m, results, a) <==> !Meets(a.op, s.value, a.threshold) || a.scope.UnknownScope?
  {
    hide Match, Filtered, AllValues, Mean, InScope, HeldCount, GradedCount, NothingConclusive;
    OneScore(results, obs, a, s);
    OneValue(results, obs, a.where_, s);
    var g := Graded(CaseOf(obs), s);
    InScopeMembers(results, a);
    assert IsInScope(results, a, g) && forall h :: IsInScope(results, a, h) <==> h == g;
    hide IsInScope;
    assert IsAggregate(Some(s.value), m, results, a);
    assert MissesOn(results, a, g) || SlipsOn(results, a, g) <==> !HoldsOn(a, s);
    assert a.op.UnknownOp? || (HoldsOn(a, s) <==> Meets(a.op, s.value, a.threshold));
  }

  lemma OneScoreClean(m: Measured, results: seq<ObservationResult>, obs: Observation, a: Assertion, s: Score)
    requires results == [ObservationResult(obs, [s])] && s.name == a.metric && s.error == "" && !s.inconclusive
    requires Match(a.where_, obs) && m.incomplete == 0 && m.subjectErrors == 0 && !obs.subject.FailedOnInfra?
    requires !Breaks(m, results, a)
    ensures AllViolations(m, results, [a]) == [] && OnInfra(results) == 0
  {
    hide Breaks, Violations, OnInfra, InScope, HeldCount, GradedCount, NothingConclusive;
    OneScore(results, obs, a, s);
    BreaksIsReal(m, results, a);
    SomethingConclusive(results, obs, s, a.where_);
    OneScoreAllReal(m, results, obs, a, s);
    var vs := Violations(m, results, a);
    if vs != [] {
      HasSome(vs);
    }
    assert [a][..|[a]| - 1] == [] && SuiteViolations(m, results) == [];
    assert AllViolations(m, results, [a]) == [] + vs;
  }

  lemma SomethingConclusive(results: seq<ObservationResult>, obs: Observation, s: Score, where_: Labels)
    requires results == [ObservationResult(obs, [s])] && !s.inconclusive && !obs.subject.FailedOnInfra? && Match(where_, obs)
    ensures !NothingConclusive(results, 0, where_)
  {
    assert results[0] in results && !IsInconclusive(results[0]);
  }

  lemma HasSome(vs: seq<Violation>)
    requires vs != []
    ensures exists v :: v in vs
  {
    assert vs[0] in vs;
  }

  lemma OneScoreAllReal(m: Measured, results: seq<ObservationResult>, obs: Observation, a: Assertion, s: Score)
    requires InScope(results, a) == [Graded(CaseOf(obs), s)] && !s.inconclusive
    requires m.incomplete == 0 && !NothingConclusive(results, 0, a.where_)
    ensures forall v | v in Violations(m, results, a) :: !v.kind.InconclusiveKind?
  {
    if PerCase(a) {
      CaseIsReal(results, a, Graded(CaseOf(obs), s));
      hide CaseViolations, AggregateOf, InScope, NothingConclusive, Holds;
    } else {
      hide InScope, NothingConclusive, CaseViolations, AggregateOf, Holds;
    }
  }

  lemma CaseIsReal(results: seq<ObservationResult>, a: Assertion, g: Graded)
    requires InScope(results, a) == [g] && !g.score.inconclusive
    ensures forall v | v in CaseViolations(results, 0, a) :: !v.kind.InconclusiveKind?
  {
    NothingJudged(a, g);
    hide InScope, NothingConclusive, Judged, OnlyInconclusive, Holds;
  }

  lemma NothingJudged(a: Assertion, g: Graded)
    requires !g.score.inconclusive
    ensures Judged(a, [g]) == (if Judge(a, g).None? then [] else [Judge(a, g).value]) && OnlyInconclusive(Judged(a, [g])) == []
  {
    NothingGraded(a);
    OneMoreJudged(a, [], g);
    assert [] + [g] == [g];
    assert OnlyInconclusive([]) == [];
    if Judge(a, g).Some? {
      assert [] + [Judge(a, g).value] == [Judge(a, g).value];
    }
  }

  lemma GradedIsExplained(results: seq<ObservationResult>, a: Assertion, g: Graded)
    requires Explained(results) && IsInScope(results, a, g)
    ensures g.score.inconclusive ==> g.score.error != ""
  {
    var r :| r in results && g.score in r.scores;
  }

  /** No stamp is false exactly when every assertion holds on every measured score in its scope. */
  lemma StampsAreHolds(results: seq<ObservationResult>, before: seq<ObservationResult>, assertions: seq<Assertion>)
    requires Stamped(results, before, assertions) && Plain(assertions)
    ensures NoneStampedFalse(results) <==> forall a, g | a in assertions :: !MissesOn(results, a, g)
  {
    hide HoldsOn, Match;
    forall r, s | r in results && s in r.scores
      ensures IsStamp(s.passed, r.observation, s, assertions)
    {
      var i :| 0 <= i < |results| && results[i] == r;
      var j :| 0 <= j < |r.scores| && r.scores[j] == s;
      assert StampedScores(r.scores, before[i].scores, before[i].observation, assertions);
    }
    if NoneStampedFalse(results) {
      forall a, g | a in assertions && IsInScope(results, a, g) && !g.score.inconclusive
        ensures HoldsOn(a, g.score)
      {
        var r :| r in results && Match(a.where_, r.observation) && g.score in r.scores && g.score.name == a.metric;
        assert Covers(a, r.observation, g.score.name);
      }
    }
    if forall a, g | a in assertions :: !MissesOn(results, a, g) {
      forall r, s | r in results && s in r.scores
        ensures s.passed != Some(false)
      {
        forall a | a in assertions && Covers(a, r.observation, s.name) && !s.inconclusive
          ensures HoldsOn(a, s)
        {
          assert !MissesOn(results, a, Graded(CaseOf(r.observation), s));
        }
      }
    }
  }

  /** Stamps change nothing about what was measured. */
  lemma StampsMeasureNothing(m: Measured, after: seq<ObservationResult>, before: seq<ObservationResult>, assertions: seq<Assertion>)
    requires Stamped(after, before, assertions)
    ensures Explained(before) ==> Explained(after)
    ensures FullyMeasured(m, before) ==> FullyMeasured(m, after)
  {
    hide IsStamp;
    forall r | r in after
      ensures exists q :: q in before && q.observation == r.observation && forall s | s in r.scores :: exists t :: t in q.scores && SameScore(s, t)
    {
      var i :| 0 <= i < |after| && after[i] == r;
      var q := before[i];
      assert StampedScores(r.scores, q.scores, q.observation, assertions);
      forall s | s in r.scores
        ensures exists t :: t in q.scores && SameScore(s, t)
      {
        var j :| 0 <= j < |r.scores| && r.scores[j] == s;
        assert q.scores[j] in q.scores && SameScore(s, q.scores[j]);
      }
    }
  }

  /** On a fully measured suite every violation is real, and a metric is missing when it does not occur. */
  lemma MeasuredIsReal(m: Measured, results: seq<ObservationResult>, assertions: seq<Assertion>)
    requires FullyMeasured(m, results) && Plain(assertions)
    ensures Explained(results) && OnInfra(results) == 0
    ensures AllViolations(m, results, assertions) == [] || HasReal(AllViolations(m, results, assertions))
    ensures EachMetricOccurs(results, assertions) <==> !exists a :: a in assertions && Missing(m, results, a)
  {
    hide Violations, AllViolations, IsInScope, SuiteViolations, Judge;
    NoneOnInfra(m, results);
    ViolationsOf(m, results, assertions);
    var vs := AllViolations(m, results, assertions);
    if vs != [] {
      assert vs[0] in vs;
      var a :| a in assertions && vs[0] in Violations(m, results, a);
      AllReal(m, results, a);
    }
  }

  lemma AllReal(m: Measured, results: seq<ObservationResult>, a: Assertion)
    requires FullyMeasured(m, results) && PerCase(a) && a.minPassRate <= 0.0
    ensures forall v | v in Violations(m, results, a) :: !v.kind.InconclusiveKind?
  {
    var graded := InScope(results, a);
    InScopeMembers(results, a);
    JudgedMembers(a, graded);
    forall v | v in Judged(a, graded)
      ensures !v.kind.InconclusiveKind?
    {
      var g :| g in graded && Judge(a, g) == Some(v);
      assert IsInScope(results, a, g);
      var r :| r in results && g.score in r.scores;
      assert !IsInconclusive(r);
    }
  }

  lemma {:induction false} NoneOnInfra(m: Measured, results: seq<ObservationResult>)
    requires FullyMeasured(m, results)
    ensures OnInfra(results) == 0 && SuiteViolations(m, results) == []
  {
    if results != [] {
      var n := |results| - 1;
      assert results[n] in results;
      NoneOnInfra(m, results[..n]);
    }
  }

  /** A gate on plain assertions fails exactly when a score is stamped false, a metric is missing, a
      subject failed, or a score slips through, which none does whose inconclusiveness is explained; and
      on a fully measured suite it passes exactly when every asserted metric occurs and no score is
      stamped false, whatever is tolerated. */
  method GateOnStamps(suite: Suite, tolerated: real, assertions: seq<Assertion>) returns (decided: Outcome)
    requires assertions != [] && Plain(assertions)
    modifies suite
    ensures Stamped(suite.results, old(suite.results), assertions) && suite.outcome == decided
    ensures decided.Failed? <==>
      !NoneStampedFalse(suite.results) || suite.measured.subjectErrors > OnInfra(suite.results) ||
      (exists a :: a in assertions && Missing(suite.measured, suite.results, a)) || exists a, g :: a in assertions && SlipsOn(suite.results, a, g)
    ensures Explained(old(suite.results)) ==> !exists a, g :: a in assertions && SlipsOn(suite.results, a, g)
    ensures !decided.Failed? ==>
      decided == if suite.violations != [] && RateOf(suite.measured, suite.results) > tolerated then Outcome.Inconclusive else Outcome.Passed
    ensures FullyMeasured(suite.measured, old(suite.results)) ==>
      (decided.Passed? <==> EachMetricOccurs(suite.results, assertions) && NoneStampedFalse(suite.results)) && (decided.Passed? || decided.Failed?)
  {
    hide Stamped, AllViolations, RateOf, Missing, EachMetricOccurs, NoneStampedFalse, FullyMeasured, Explained, HasReal, SlipsOn;
    ghost var before := suite.results;
    decided := suite.GateWith(tolerated, assertions);
    StampsMeasureNothing(suite.measured, suite.results, before, assertions);
    RealWhenStampedFalse(suite.measured, suite.results, before, assertions);
    if FullyMeasured(suite.measured, before) {
      MeasuredIsReal(suite.measured, suite.results, assertions);
      NoSubjectFailed(suite.measured, suite.results);
    }
  }

  /** A gate that fails though no score is stamped false: one score, marked inconclusive without an
      error, that misses the threshold. */
  method UnexplainedScoreFails(threshold: real, tolerated: real) returns (suite: Suite, decided: Outcome)
    ensures decided.Failed? && NoneStampedFalse(suite.results)
  {
    var obs := Observation("case", 0, 0, map[], Answered);
    var a := Assertion("metric", GTE, threshold, EveryCase, map[], 0.0);
    suite := new Suite([ObservationResult(obs, [Score("metric", threshold - 1.0, "", true, None)])], Measured(0, 0, map[]));
    decided := GateOnStamps(suite, tolerated, [a]);
    var r := suite.results[0];
    assert StampedScores(r.scores, [Score("metric", threshold - 1.0, "", true, None)], obs, [a]);
    assert r in suite.results && r.scores[0] in r.scores && SameScore(r.scores[0], Score("metric", threshold - 1.0, "", true, None));
    assert SlipsOn(suite.results, a, Graded(CaseOf(obs), r.scores[0]));
  }

  lemma NoSubjectFailed(m: Measured, results: seq<ObservationResult>)
    requires FullyMeasured(m, results)
    ensures m.subjectErrors <= 0 <= OnInfra(results)
  {}

  /** Gating one suite under two tolerances gives the same stamps and violations, and the outcomes differ
      exactly when nothing is really violated and the share of unmeasured cases lies between the two:
      tolerating more turns an inconclusive gate into a passed one, and does nothing else. */
  method ToleranceOnlyHelps(strict: Suite, lenient: Suite, less: real, more: real, assertions: seq<Assertion>) returns (a: Outcome, b: Outcome)
    requires strict != lenient && strict.results == lenient.results && strict.measured == lenient.measured && less <= more
    modifies strict, lenient
    ensures strict.results == lenient.results && strict.violations == lenient.violations
    ensures a.Failed? <==> b.Failed?
    ensures a.Passed? ==> b.Passed?
    ensures a != b <==> strict.violations != [] && !HasReal(strict.violations) && less < RateOf(strict.measured, strict.results) <= more
    ensures a != b ==> a.Inconclusive? && b.Passed?
  {
    hide Stamped, AllViolations, RateOf, HasReal;
    ghost var before := strict.results;
    a := strict.GateWith(less, assertions);
    b := lenient.GateWith(more, assertions);
    StampsAreUnique(strict.results, lenient.results, before, assertions, assertions);
  }

  /** Where the loops can disagree: a score marked inconclusive without an error gets no stamp, but the
      check still holds its value against the threshold. */
  lemma LoopsDisagreeOn(a: Assertion, c: CaseId, s: Score)
    ensures var v := Judge(a, Graded(c, s));
      (v.Some? && !v.value.kind.InconclusiveKind?) != (!s.inconclusive && !HoldsOn(a, s)) <==>
      s.inconclusive && s.error == "" && !Holds(a.op, s.value, a.threshold)
  {}

  /** Gating again, with the same assertions in any order and number, gives the same stamps and the
      same outcome. */
  method GateAgain(suite: Suite, tolerated: real, assertions: seq<Assertion>, again: seq<Assertion>) returns (first: Outcome, second: Outcome)
    requires forall a :: a in assertions <==> a in again
    modifies suite
    ensures first == second
    ensures Stamped(suite.results, old(suite.results), assertions)
  {
    hide Stamped, AllViolations, RateOf;
    ghost var before := suite.results;
    first := suite.GateWith(tolerated, assertions);
    ghost var x := suite.results;
    second := suite.GateWith(tolerated, again);
    StampedTwice(suite.results, x, before, assertions, again);
    StampsAreUnique(x, suite.results, before, assertions, again);
    SameAssertionsSameOutcome(suite.measured, x, assertions, again);
    if assertions == [] {
      assert again == [] by {
        if again != [] {
          FirstOfAgain(again, assertions);
        }
      }
    } else {
      FirstOfAgain(assertions, again);
    }
  }

  lemma FirstOfAgain(assertions: seq<Assertion>, again: seq<Assertion>)
    requires assertions != [] && forall a :: a in assertions <==> a in again
    ensures again != []
  {
    assert assertions[0] in again;
  }

  lemma StampedTwice(y: seq<ObservationResult>, x: seq<ObservationResult>, before: seq<ObservationResult>, as1: seq<Assertion>, as2: seq<Assertion>)
    requires Stamped(y, x, as2) && Stamped(x, before, as1)
    ensures Stamped(y, before, as2)
  {
    hide StampedScores;
    forall i | 0 <= i < |y|
      ensures StampedScores(y[i].scores, before[i].scores, before[i].observation, as2)
    {
      StampedFrom(y[i].scores, x[i].scores, before[i].scores, before[i].observation, as1, as2);
    }
  }
}
