/** The file numbers of cases (eval/format.go): the nth occurrence of a case in one arm and the nth in
    the other share a file. */
module CaseIndex {
  import opened EvalResults
  import opened Compare

  datatype CaseKey = CaseKey(pair: PairKey, nth: nat)

  /** How often the case of result `i` occurs before it. */
  function Earlier(keys: seq<PairKey>, k: PairKey): nat {
    if keys == [] then 0 else
      var n := |keys| - 1;
      Earlier(keys[..n], k) + (if keys[n] == k then 1 else 0)
  }

  function Keys(results: seq<ObservationResult>, keyer: Keyer): (keys: seq<PairKey>)
    ensures |keys| == |results| && forall i | 0 <= i < |results| :: keys[i] == KeyOf(keyer, results[i].observation)
  {
    seq(|results|, i requires 0 <= i < |results| => KeyOf(keyer, results[i].observation))
  }

  /** The case of a result, and which occurrence of it in its arm it is. */
  function Occurrence(keys: seq<PairKey>, i: nat): CaseKey
    requires i < |keys|
  {
    CaseKey(keys[i], Earlier(keys[..i], keys[i]))
  }

  lemma {:induction false} EarlierGrows(keys: seq<PairKey>, i: nat, j: nat, k: PairKey)
    requires i <= j <= |keys|
    ensures Earlier(keys[..i], k) <= Earlier(keys[..j], k)
    ensures i < j && keys[i] == k ==> Earlier(keys[..i], k) < Earlier(keys[..j], k)
    decreases j - i
  {
    if i < j {
      assert keys[..j][..j - 1] == keys[..j - 1];
      EarlierGrows(keys, i, j - 1, k);
    }
  }

  /** No two results of an arm are the same occurrence. */
  lemma OccurrencesDiffer(keys: seq<PairKey>, i: nat, j: nat)
    requires i < j < |keys|
    ensures Occurrence(keys, i) != Occurrence(keys, j)
  {
    EarlierGrows(keys, i, j, keys[i]);
  }

  /** Numbers are given out densely, one a case. */
  ghost predicate Dense(nums: map<CaseKey, nat>) {
    && (forall k | k in nums :: nums[k] < |nums|)
    && (forall a, b | a in nums && b in nums && nums[a] == nums[b] :: a == b)
  }

  /** The first `i` results have their numbers: those of their occurrences, old ones kept and no
      others given out. */
  ghost predicate Numbered(out: seq<nat>, keys: seq<PairKey>, i: nat, before: map<CaseKey, nat>, nums: map<CaseKey, nat>) {
    && i <= |keys| && |out| == i && Dense(nums)
    && (forall k | k in before :: k in nums && nums[k] == before[k])
    && (forall j | 0 <= j < i :: Occurrence(keys, j) in nums && out[j] == nums[Occurrence(keys, j)])
    && (forall k | k in nums :: k in before || exists j :: 0 <= j < i && Occurrence(keys, j) == k)
  }

  /** In an index that started empty, results are numbered as they come. */
  ghost predicate InTurn(out: seq<nat>, nums: map<CaseKey, nat>) {
    |nums| == |out| && forall j | 0 <= j < |out| :: out[j] == j
  }

  class Index {
    const keyer: Keyer
    var nums: map<CaseKey, nat>

    constructor (keyer: Keyer)
      ensures this.keyer == keyer && nums == map[]
    {
      this.keyer, nums := keyer, map[];
    }

    /** Numbers the results of one arm: a case seen before keeps its number, and the others get the
        next ones in order. */
    method Number(results: seq<ObservationResult>) returns (out: seq<nat>)
      requires Dense(nums)
      modifies this`nums
      ensures Numbered(out, Keys(results, keyer), |results|, old(nums), nums)
      ensures old(nums) == map[] ==> InTurn(out, nums)
    {
      hide KeyOf, Numbered, Dense, Earlier, Occurrence;
      var keys := Keys(results, keyer);
      var seen: map<PairKey, nat> := map[];
      out := [];
      var i := 0;
      NoneNumbered(keys, nums);
      while i < |results|
        invariant i <= |results| && Numbered(out, keys, i, old(nums), nums) && |out| == i
        invariant forall k :: (if k in seen then seen[k] else 0) == Earlier(keys[..i], k)
        invariant old(nums) == map[] ==> InTurn(out, nums)
      {
        var pk := keys[i];
        var key := CaseKey(pk, if pk in seen then seen[pk] else 0);
        IsOccurrence(keys, i, key);
        CountNext(keys, i);
        seen := seen[pk := key.nth + 1];
        if key !in nums {
          NumberNew(out, keys, i, old(nums), nums);
          nums := nums[key := |nums|];
        } else {
          NumberSeen(out, keys, i, old(nums), nums);
        }
        out := out + [nums[key]];
        i := i + 1;
      }
    }
  }

  lemma NoneNumbered(keys: seq<PairKey>, nums: map<CaseKey, nat>)
    requires Dense(nums)
    ensures Numbered([], keys, 0, nums, nums) && forall k :: Earlier(keys[..0], k) == 0
  {}

  lemma IsOccurrence(keys: seq<PairKey>, i: nat, key: CaseKey)
    requires i < |keys| && key == CaseKey(keys[i], Earlier(keys[..i], keys[i]))
    ensures key == Occurrence(keys, i)
  {}

  lemma CountNext(keys: seq<PairKey>, i: nat)
    requires i < |keys|
    ensures forall k :: Earlier(keys[..i + 1], k) == Earlier(keys[..i], k) + (if keys[i] == k then 1 else 0)
  {
    assert keys[..i + 1][..i] == keys[..i];
  }

  lemma NextIsDense(nums: map<CaseKey, nat>, key: CaseKey)
    requires Dense(nums) && key !in nums
    ensures Dense(nums[key := |nums|]) && |nums[key := |nums|]| == |nums| + 1
  {
    assert nums[key := |nums|].Keys == nums.Keys + {key};
  }

  lemma NumberNew(out: seq<nat>, keys: seq<PairKey>, i: nat, before: map<CaseKey, nat>, nums: map<CaseKey, nat>)
    requires i < |keys| && Numbered(out, keys, i, before, nums) && Occurrence(keys, i) !in nums
    ensures var nums' := nums[Occurrence(keys, i) := |nums|]; Numbered(out + [|nums|], keys, i + 1, before, nums') && |nums'| == |nums| + 1
  {
    hide Occurrence, Dense;
    NextIsDense(nums, Occurrence(keys, i));
  }

  /** An occurrence that has a number already got it from another arm. */
  lemma NumberSeen(out: seq<nat>, keys: seq<PairKey>, i: nat, before: map<CaseKey, nat>, nums: map<CaseKey, nat>)
    requires i < |keys| && Numbered(out, keys, i, before, nums) && Occurrence(keys, i) in nums
    ensures Numbered(out + [nums[Occurrence(keys, i)]], keys, i + 1, before, nums) && before != map[]
  {
    forall j | 0 <= j < i
      ensures Occurrence(keys, j) != Occurrence(keys, i)
    {
      OccurrencesDiffer(keys, j, i);
    }
    hide Occurrence, Dense;
    assert Occurrence(keys, i) in before;
  }

  /** Numbering the base arm and then the other: the base gets 0, 1, 2 and so on; within an arm numbers
      differ; across the arms they are the same exactly for the same occurrence of the same case; and
      every number up to the largest is used. */
  method NumberArms(keyer: Keyer, base: seq<ObservationResult>, exp: seq<ObservationResult>) returns (b: seq<nat>, e: seq<nat>)
    ensures |b| == |base| && |e| == |exp|
    ensures forall i | 0 <= i < |b| :: b[i] == i
    ensures forall i, j | 0 <= i < j < |e| :: e[i] != e[j]
    ensures forall i, j | 0 <= i < |b| && 0 <= j < |e| :: b[i] == e[j] <==> Occurrence(Keys(base, keyer), i) == Occurrence(Keys(exp, keyer), j)
    ensures forall n: nat, m: nat | n < m && (m in b || m in e) :: n in b || n in e
  {
    hide KeyOf, Occurrence, Dense;
    var index := new Index(keyer);
    NoneIsDense();
    b := index.Number(base);
    ghost var first := index.nums;
    e := index.Number(exp);
    ghost var bk, ek := Keys(base, keyer), Keys(exp, keyer);
    forall i, j | 0 <= i < j < |e|
      ensures e[i] != e[j]
    {
      OccurrencesDiffer(ek, i, j);
      OneNumberEach(index.nums, Occurrence(ek, i), Occurrence(ek, j));
    }
    forall i, j | 0 <= i < |b| && 0 <= j < |e|
      ensures b[i] == e[j] <==> Occurrence(bk, i) == Occurrence(ek, j)
    {
      OneNumberEach(index.nums, Occurrence(bk, i), Occurrence(ek, j));
    }
    forall n: nat, m: nat | n < m && (m in b || m in e)
      ensures n in b || n in e
    {
      AllNumbersUsed(index.nums, n, m);
      var k :| k in index.nums && index.nums[k] == n;
      if k in first {
        var i :| 0 <= i < |bk| && Occurrence(bk, i) == k;
        assert b[i] == n;
      } else {
        var j :| 0 <= j < |ek| && Occurrence(ek, j) == k;
        assert e[j] == n;
      }
    }
  }

  lemma OneNumberEach(nums: map<CaseKey, nat>, a: CaseKey, b: CaseKey)
    requires Dense(nums) && a in nums && b in nums
    ensures nums[a] == nums[b] <==> a == b
  {}

  lemma NoneIsDense()
    ensures Dense(map[])
  {}

  /** With as many numbers as cases, all below that, and none twice, none is left out. */
  lemma AllNumbersUsed(nums: map<CaseKey, nat>, n: nat, m: nat)
    requires Dense(nums) && n < m && exists k :: k in nums && nums[k] == m
    ensures exists k :: k in nums && nums[k] == n
  {
    if forall k | k in nums :: nums[k] != n {
      var image := set k | k in nums :: nums[k];
      ImageSize(nums, nums.Keys);
      var below := Below(|nums|);
      assert image <= below - {n};
      SmallerSet(image, below - {n});
    }
  }

  function Below(n: nat): (s: set<nat>)
    ensures |s| == n && forall x: nat :: x in s <==> x < n
  {
    if n == 0 then {} else Below(n - 1) + {n - 1}
  }

  lemma SmallerSet(a: set<nat>, b: set<nat>)
    requires a <= b
    ensures |a| <= |b|
  {
    assert b == a + (b - a);
  }

  lemma {:induction false} ImageSize(nums: map<CaseKey, nat>, keys: set<CaseKey>)
    requires keys <= nums.Keys && Dense(nums)
    ensures |set k | k in keys :: nums[k]| == |keys|
    decreases |keys|
  {
    if keys != {} {
      var k :| k in keys;
      var rest := keys - {k};
      ImageSize(nums, rest);
      assert (set x | x in keys :: nums[x]) == (set x | x in rest :: nums[x]) + {nums[k]};
      assert nums[k] !in set x | x in rest :: nums[x];
    }
  }
}
