/** What an evaluation measured (eval/eval.go, eval/scorer.go, eval/labels.go, eval/inconclusive.go):
    observations with their scores, and the mean of each metric. */
module EvalResults {

  datatype Option<T> = None | Some(value: T)

  type Labels = map<string, string>

  /** Whether the subject answered, and if not, whether infrastructure was the reason. */
  datatype Subject = Answered | Errored | FailedOnInfra

  datatype Observation = Observation(id: string, turn: int, sample: int, labels: Labels, subject: Subject)

  datatype Score = Score(name: string, value: real, error: string, inconclusive: bool, passed: Option<bool>)

  datatype ObservationResult = ObservationResult(observation: Observation, scores: seq<Score>)

  /** Every listed label has the listed value; nothing listed matches everything. */
  predicate Match(where_: Labels, obs: Observation) {
    forall k | k in where_ :: k in obs.labels && obs.labels[k] == where_[k]
  }

  /** Each further label narrows the scope to the observations that have it with that value. */
  lemma MatchNarrows(where_: Labels, key: string, value: string, obs: Observation)
    requires key !in where_
    ensures Match(map[], obs)
    ensures Match(where_[key := value], obs) <==> Match(where_, obs) && key in obs.labels && obs.labels[key] == value
  {
    var more := where_[key := value];
    assert key in more;
    assert forall k | k in where_ :: k in more && more[k] == where_[k];
  }

  predicate IsInconclusive(r: ObservationResult) {
    r.observation.subject.FailedOnInfra? || exists s :: s in r.scores && s.inconclusive
  }

  // ---- successful scores ----

  predicate Succeeded(s: Score, name: string) {
    s.name == name && s.error == ""
  }

  /** The values a metric scored, in order. */
  function Values(scores: seq<Score>, name: string): seq<real> {
    if scores == [] then [] else
      var n := |scores| - 1;
      Values(scores[..n], name) + (if Succeeded(scores[n], name) then [scores[n].value] else [])
  }

  function AllValues(results: seq<ObservationResult>, name: string): seq<real> {
    if results == [] then [] else
      var n := |results| - 1;
      AllValues(results[..n], name) + Values(results[n].scores, name)
  }

  function Sum(xs: seq<real>): real {
    if xs == [] then 0.0 else Sum(xs[..|xs| - 1]) + xs[|xs| - 1]
  }

  /** The mean of some values, zero of none. */
  function Mean(xs: seq<real>): real {
    if xs == [] then 0.0 else Sum(xs) / (|xs| as real)
  }

  lemma SumMore(xs: seq<real>, x: real)
    ensures Sum(xs + [x]) == Sum(xs) + x
  {
    assert (xs + [x])[..|xs|] == xs;
  }

  lemma MeanOfOne(x: real)
    ensures Mean([x]) == x
  {
    SumMore([], x);
    assert [] + [x] == [x];
  }

  lemma {:induction false} SumJoined(a: seq<real>, b: seq<real>)
    ensures Sum(a + b) == Sum(a) + Sum(b)
    decreases |b|
  {
    if b == [] {
      assert a + b == a;
    } else {
      var n := |b| - 1;
      assert a + b == (a + b[..n]) + [b[n]];
      SumMore(a + b[..n], b[n]);
      SumJoined(a, b[..n]);
    }
  }

  lemma {:induction false} SumNegated(xs: seq<real>, ys: seq<real>)
    requires |xs| == |ys| && forall i | 0 <= i < |xs| :: ys[i] == -xs[i]
    ensures Sum(ys) == -Sum(xs)
  {
    if xs != [] {
      SumNegated(xs[..|xs| - 1], ys[..|ys| - 1]);
    }
  }

  lemma MeanNegated(xs: seq<real>, ys: seq<real>)
    requires |xs| == |ys| && forall i | 0 <= i < |xs| :: ys[i] == -xs[i]
    ensures Mean(ys) == -Mean(xs)
  {
    SumNegated(xs, ys);
  }

  // ---- the means of a suite ----

  /** The values of a metric in some results and some scores of the next. */
  function Seen(results: seq<ObservationResult>, more: seq<Score>, name: string): seq<real> {
    AllValues(results, name) + Values(more, name)
  }

  ghost predicate TalliedAt(sums: map<string, real>, counts: map<string, nat>, name: string, xs: seq<real>) {
    (name in sums <==> xs != []) && (name in sums <==> name in counts) && (name in sums && name in counts ==> sums[name] == Sum(xs) && counts[name] == |xs|)
  }

  /** Sums and counts of the named metrics of some results and some scores of the next. */
  ghost predicate Tallied(sums: map<string, real>, counts: map<string, nat>, results: seq<ObservationResult>, more: seq<Score>) {
    "" !in sums && "" !in counts && forall name | name != "" :: TalliedAt(sums, counts, name, Seen(results, more, name))
  }

  /** The mean of every named metric over its successful scores, and how many those are. */
  method AggregateCounts(results: seq<ObservationResult>) returns (means: map<string, real>, counts: map<string, nat>)
    ensures means.Keys == counts.Keys && "" !in means
    ensures forall name | name != "" :: name in means <==> AllValues(results, name) != []
    ensures forall name | name in means :: means[name] == Mean(AllValues(results, name)) && counts[name] == |AllValues(results, name)|
  {
    hide Tallied, Mean, Sum, AllValues, Values;
    var sums: map<string, real> := map[];
    counts := map[];
    var i := 0;
    NothingTallied(results);
    while i < |results|
      invariant i <= |results| && Tallied(sums, counts, results[..i], [])
    {
      var scores := results[i].scores;
      var j := 0;
      assert scores[..0] == [];
      while j < |scores|
        invariant j <= |scores| && Tallied(sums, counts, results[..i], scores[..j])
      {
        var s := scores[j];
        TallyOne(sums, counts, results[..i], scores, j);
        if s.name != "" && s.error == "" {
          sums := sums[s.name := (if s.name in sums then sums[s.name] else 0.0) + s.value];
          counts := counts[s.name := (if s.name in counts then counts[s.name] else 0) + 1];
        }
        j := j + 1;
      }
      assert scores[..j] == scores;
      TallyResult(sums, counts, results, i);
      i := i + 1;
    }
    assert results[..i] == results;
    TalliedAll(sums, counts, results);
    means := map name | name in sums :: sums[name] / (counts[name] as real);
  }

  lemma NothingTallied(results: seq<ObservationResult>)
    ensures Tallied(map[], map[], results[..0], [])
  {}

  lemma SeenOneMore(results: seq<ObservationResult>, scores: seq<Score>, j: nat, name: string)
    requires j < |scores|
    ensures Seen(results, scores[..j + 1], name) ==
      if Succeeded(scores[j], name) then Seen(results, scores[..j], name) + [scores[j].value] else Seen(results, scores[..j], name)
  {
    assert scores[..j + 1][..j] == scores[..j];
  }

  lemma TallyName(sums: map<string, real>, counts: map<string, nat>, name: string, xs: seq<real>, s: Score)
    requires TalliedAt(sums, counts, name, xs) && s.name != "" && s.error == ""
    ensures TalliedAt(sums[s.name := (if s.name in sums then sums[s.name] else 0.0) + s.value],
      counts[s.name := (if s.name in counts then counts[s.name] else 0) + 1], name, if Succeeded(s, name) then xs + [s.value] else xs)
  {
    SumMore(xs, s.value);
  }

  lemma TallyOne(sums: map<string, real>, counts: map<string, nat>, results: seq<ObservationResult>, scores: seq<Score>, j: nat)
    requires j < |scores| && Tallied(sums, counts, results, scores[..j])
    ensures var s := scores[j];
      if s.name != "" && s.error == "" then
        Tallied(sums[s.name := (if s.name in sums then sums[s.name] else 0.0) + s.value],
                counts[s.name := (if s.name in counts then counts[s.name] else 0) + 1], results, scores[..j + 1])
      else Tallied(sums, counts, results, scores[..j + 1])
  {
    hide Sum, Seen, TalliedAt;
    var s := scores[j];
    var front := scores[..j + 1];
    var counted := s.name != "" && s.error == "";
    var sums' := if counted then sums[s.name := (if s.name in sums then sums[s.name] else 0.0) + s.value] else sums;
    var counts' := if counted then counts[s.name := (if s.name in counts then counts[s.name] else 0) + 1] else counts;
    forall name | name != ""
      ensures TalliedAt(sums', counts', name, Seen(results, front, name))
    {
      SeenOneMore(results, scores, j, name);
      assert TalliedAt(sums, counts, name, Seen(results, scores[..j], name));
      if counted {
        TallyName(sums, counts, name, Seen(results, scores[..j], name), s);
      }
    }
  }

  lemma TallyResult(sums: map<string, real>, counts: map<string, nat>, results: seq<ObservationResult>, i: nat)
    requires i < |results| && Tallied(sums, counts, results[..i], results[i].scores)
    ensures Tallied(sums, counts, results[..i + 1], [])
  {
    var front: seq<ObservationResult>, none: seq<Score> := results[..i + 1], [];
    assert front[..i] == results[..i];
    forall name | name != ""
      ensures TalliedAt(sums, counts, name, Seen(front, none, name))
    {
      assert Seen(front, none, name) == Seen(results[..i], results[i].scores, name);
      assert TalliedAt(sums, counts, name, Seen(results[..i], results[i].scores, name));
    }
  }

  lemma TalliedAll(sums: map<string, real>, counts: map<string, nat>, results: seq<ObservationResult>)
    requires Tallied(sums, counts, results, [])
    ensures sums.Keys == counts.Keys && "" !in sums
    ensures forall name | name != "" :: name in sums <==> AllValues(results, name) != []
    ensures forall name | name in sums :: counts[name] == |AllValues(results, name)| > 0
    ensures forall name | name in sums :: sums[name] / (counts[name] as real) == Mean(AllValues(results, name))
  {
    forall name
      ensures Seen(results, [], name) == AllValues(results, name)
    {
    }
    hide Seen, Sum, AllValues;
    forall name | name != ""
      ensures TalliedAt(sums, counts, name, AllValues(results, name))
    {
      assert TalliedAt(sums, counts, name, Seen(results, [], name));
    }
    forall name
      ensures name in sums <==> name in counts
    {
      assert name == "" || TalliedAt(sums, counts, name, AllValues(results, name));
    }
  }
}
