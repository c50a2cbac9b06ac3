/** The comparison of two experiment setups as JSON trees (eval/experiment_setup.go): what differs, and
    where. A path is kept as its steps; how it is printed is not part of this model. */
module SetupDiff {
  import opened Ordering

  datatype Json =
    | Null
    | Bool(b: bool)
    | Number(digits: string)
    | String(s: string)
    | Array(items: seq<Json>)
    | Object(fields: map<string, Json>)

  datatype Option<T> = None | Some(value: T)

  datatype Step = Key(name: string) | Index(i: nat)

  /** A changed setting: where it is, and its old and new value. */
  datatype Change = Change(path: seq<Step>, before: Json, after: Json)

  /** A missing key reads as null. */
  function Get(fields: map<string, Json>, k: string): Json {
    if k in fields then fields[k] else Null
  }

  /** The tree without null-valued keys, which is what setups mean. */
  function Meaning(j: Json): (m: Json)
    ensures m.Null? <==> j.Null?
    ensures m.Object? <==> j.Object?
    ensures m.Array? <==> j.Array?
    decreases j
  {
    match j
    case Array(items) => Array(seq(|items|, i requires 0 <= i < |items| => Meaning(items[i])))
    case Object(fields) => Object(map k | k in fields && !fields[k].Null? :: Meaning(fields[k]))
    case _ => j
  }

  lemma GetMeaning(fields: map<string, Json>, k: string)
    ensures Get(Meaning(Object(fields)).fields, k) == Meaning(Get(fields, k))
  {}

  /** Objects mean the same when their keys do. */
  lemma SameObjects(b: map<string, Json>, c: map<string, Json>)
    ensures Meaning(Object(b)) == Meaning(Object(c)) <==> forall k :: Meaning(Get(b, k)) == Meaning(Get(c, k))
  {
    var mb, mc := Meaning(Object(b)).fields, Meaning(Object(c)).fields;
    forall k
      ensures Get(mb, k) == Meaning(Get(b, k)) && Get(mc, k) == Meaning(Get(c, k))
    {
      GetMeaning(b, k);
      GetMeaning(c, k);
    }
    if forall k :: Meaning(Get(b, k)) == Meaning(Get(c, k)) {
      forall k
        ensures k in mb <==> k in mc
        ensures k in mb && k in mc ==> mb[k] == mc[k]
      {
        assert Get(mb, k) == Get(mc, k);
      }
      assert mb == mc;
    }
  }

  lemma SameArrays(b: seq<Json>, c: seq<Json>)
    ensures Meaning(Array(b)) == Meaning(Array(c)) <==> |b| == |c| && forall i | 0 <= i < |b| :: Meaning(b[i]) == Meaning(c[i])
  {
    var mb, mc := Meaning(Array(b)).items, Meaning(Array(c)).items;
    assert |mb| == |b| && |mc| == |c|;
    assert forall i | 0 <= i < |b| :: mb[i] == Meaning(b[i]);
    assert forall i | 0 <= i < |c| :: mc[i] == Meaning(c[i]);
  }

  ghost function SortedKeys(s: set<string>): (keys: seq<string>)
    ensures Sorted(keys, StringLess) && Elements(keys) == s
  {
    StringsAreOrdered();
    SortedOf(s, StringLess)
  }

  // ---- the changes ----

  function Under(s: Step, changes: seq<Change>): (out: seq<Change>)
    ensures |out| == |changes| && forall i | 0 <= i < |changes| :: out[i] == changes[i].(path := [s] + changes[i].path)
  {
    seq(|changes|, i requires 0 <= i < |changes| => changes[i].(path := [s] + changes[i].path))
  }

  function Leaf(b: Json, c: Json): seq<Change> {
    if b == c then [] else [Change([], b, c)]
  }

  /** The changes from one tree to another, with paths from the top: keys in sorted order, items of
      arrays of one length in theirs, and everything else as a whole. */
  ghost function Diff(b: Json, c: Json): seq<Change>
    decreases b, 2, 0
  {
    if b.Object? && c.Object? then DiffKeys(b, c, SortedKeys(b.fields.Keys + c.fields.Keys))
    else if b.Array? && c.Array? && |b.items| == |c.items| then DiffItems(b, c, |b.items|)
    else Leaf(b, c)
  }

  /** A key that only one object has is compared with null, which is never an object or an array. */
  ghost function DiffKey(b: Json, c: Json, k: string): seq<Change>
    requires b.Object? && c.Object?
    decreases b, 0, 0
  {
    if k in b.fields && k in c.fields then Diff(b.fields[k], c.fields[k]) else Leaf(Get(b.fields, k), Get(c.fields, k))
  }

  ghost function DiffKeys(b: Json, c: Json, keys: seq<string>): seq<Change>
    requires b.Object? && c.Object?
    decreases b, 1, |keys|
  {
    if keys == [] then [] else
      var n := |keys| - 1;
      DiffKeys(b, c, keys[..n]) + Under(Key(keys[n]), DiffKey(b, c, keys[n]))
  }

  ghost function DiffItems(b: Json, c: Json, n: nat): seq<Change>
    requires b.Array? && c.Array? && n <= |b.items| == |c.items|
    decreases b, 1, n
  {
    if n == 0 then [] else DiffItems(b, c, n - 1) + Under(Index(n - 1), Diff(b.items[n - 1], c.items[n - 1]))
  }

  // ---- applying changes ----

  /** The tree with `v` at a path; a step that does not fit leaves it alone. */
  function Put(j: Json, path: seq<Step>, v: Json): Json
    decreases |path|
  {
    if path == [] then v
    else match path[0]
      case Key(k) => if j.Object? then Object(j.fields[k := Put(Get(j.fields, k), path[1..], v)]) else j
      case Index(i) => if j.Array? && i < |j.items| then Array(j.items[i := Put(j.items[i], path[1..], v)]) else j
  }

  function Applied(j: Json, changes: seq<Change>): Json {
    if changes == [] then j else
      var n := |changes| - 1;
      Put(Applied(j, changes[..n]), changes[n].path, changes[n].after)
  }

  lemma {:induction false} AppliedJoined(j: Json, a: seq<Change>, b: seq<Change>)
    ensures Applied(j, a + b) == Applied(Applied(j, a), b)
    decreases |b|
  {
    if b == [] {
      assert a + b == a;
    } else {
      var n := |b| - 1;
      assert (a + b)[..|a| + n] == a + b[..n];
      AppliedJoined(j, a, b[..n]);
    }
  }

  lemma {:induction false} AppliedUnderKey(j: Json, k: string, changes: seq<Change>)
    requires j.Object?
    ensures Applied(j, Under(Key(k), changes)) ==
      if changes == [] then j else Object(j.fields[k := Applied(Get(j.fields, k), changes)])
  {
    if changes != [] {
      var n := |changes| - 1;
      var ch := changes[n];
      assert Under(Key(k), changes)[..n] == Under(Key(k), changes[..n]);
      assert ([Key(k)] + ch.path)[1..] == ch.path;
      AppliedUnderKey(j, k, changes[..n]);
      assert changes[..n] == [] ==> Applied(Get(j.fields, k), changes[..n]) == Get(j.fields, k);
    }
  }

  lemma {:induction false} AppliedUnderIndex(j: Json, i: nat, changes: seq<Change>)
    requires j.Array? && i < |j.items|
    ensures Applied(j, Under(Index(i), changes)) == Array(j.items[i := Applied(j.items[i], changes)])
  {
    if changes != [] {
      var n := |changes| - 1;
      var ch := changes[n];
      assert Under(Index(i), changes)[..n] == Under(Index(i), changes[..n]);
      assert ([Index(i)] + ch.path)[1..] == ch.path;
      AppliedUnderIndex(j, i, changes[..n]);
    } else {
      assert j.items[i := j.items[i]] == j.items;
    }
  }

  // ---- what the changes say ----

  /** Nothing is reported exactly when the setups mean the same, and applying what is reported to the
      base gives the candidate's meaning. */
  lemma {:induction false} DiffExplains(b: Json, c: Json)
    ensures Diff(b, c) == [] <==> Meaning(b) == Meaning(c)
    ensures Meaning(Applied(b, Diff(b, c))) == Meaning(c)
    decreases b, 2, 0
  {
    hide Meaning, SameKeys, Applied, DiffKeys, DiffItems;
    if b.Object? && c.Object? {
      var keys := SortedKeys(b.fields.Keys + c.fields.Keys);
      KeysExplain(b, c, keys);
      var r := Applied(b, Diff(b, c));
      AllKeysSame(b.fields, c.fields, b.fields, keys);
      AllKeysSame(r.fields, c.fields, b.fields, keys);
    } else if b.Array? && c.Array? && |b.items| == |c.items| {
      ItemsExplain(b, c, |b.items|);
      SameArrays(b.items, c.items);
      SameArrays(Applied(b, Diff(b, c)).items, c.items);
    } else {
      LeafExplains(b, c);
    }
  }

  /** When all keys of both objects are covered, reading alike at them is meaning the same. */
  lemma AllKeysSame(r: map<string, Json>, c: map<string, Json>, b: map<string, Json>, keys: seq<string>)
    requires Elements(keys) == b.Keys + c.Keys && OtherKeysKept(r, b, keys)
    ensures Meaning(Object(r)) == Meaning(Object(c)) <==> SameKeys(r, c, keys)
  {
    SameObjects(r, c);
    hide Meaning;
    forall k | k !in keys
      ensures Get(r, k) == Null == Get(c, k)
    {
      assert k !in Elements(keys);
    }
  }

  lemma LeafExplains(b: Json, c: Json)
    requires !(b.Object? && c.Object?) && !(b.Array? && c.Array? && |b.items| == |c.items|)
    ensures Leaf(b, c) == [] <==> Meaning(b) == Meaning(c)
    ensures Applied(b, Leaf(b, c)) == c
  {
    if b.Array? && c.Array? {
      SameArrays(b.items, c.items);
    }
  }

  lemma {:induction false} KeyExplains(b: Json, c: Json, k: string)
    requires b.Object? && c.Object?
    ensures DiffKey(b, c, k) == [] <==> Meaning(Get(b.fields, k)) == Meaning(Get(c.fields, k))
    ensures Meaning(Applied(Get(b.fields, k), DiffKey(b, c, k))) == Meaning(Get(c.fields, k))
    decreases b, 0, 0
  {
    if k in b.fields && k in c.fields {
      DiffExplains(b.fields[k], c.fields[k]);
    } else {
      LeafExplains(Get(b.fields, k), Get(c.fields, k));
    }
  }

  /** The objects read alike at some keys. */
  ghost predicate SameKeys(b: map<string, Json>, c: map<string, Json>, keys: seq<string>) {
    forall k | k in keys :: Meaning(Get(b, k)) == Meaning(Get(c, k))
  }

  ghost predicate OtherKeysKept(r: map<string, Json>, b: map<string, Json>, keys: seq<string>) {
    forall k | k !in keys :: Get(r, k) == Get(b, k)
  }

  lemma OneMoreKey(r: map<string, Json>, b: map<string, Json>, c: map<string, Json>, keys: seq<string>, k: string, v: Json)
    requires k !in keys && SameKeys(r, c, keys) && OtherKeysKept(r, b, keys) && Meaning(v) == Meaning(Get(c, k))
    ensures SameKeys(r[k := v], c, keys + [k]) && OtherKeysKept(r[k := v], b, keys + [k])
    ensures v == Get(r, k) ==> SameKeys(r, c, keys + [k]) && OtherKeysKept(r, b, keys + [k])
    ensures SameKeys(b, c, keys + [k]) <==> SameKeys(b, c, keys) && Meaning(Get(b, k)) == Meaning(Get(c, k))
  {
    hide Meaning;
    assert forall x :: x in keys + [k] <==> x in keys || x == k;
  }

  /** After the changes of some keys, those read as in the candidate and the others as before. */
  lemma {:induction false} KeysExplain(b: Json, c: Json, keys: seq<string>)
    requires b.Object? && c.Object? && Sorted(keys, StringLess)
    ensures DiffKeys(b, c, keys) == [] <==> SameKeys(b.fields, c.fields, keys)
    ensures var r := Applied(b, DiffKeys(b, c, keys));
      r.Object? && SameKeys(r.fields, c.fields, keys) && OtherKeysKept(r.fields, b.fields, keys)
    decreases b, 1, |keys|
  {
    if keys != [] {
      var n := |keys| - 1;
      var k, front := keys[n], keys[..n];
      assert keys == front + [k];
      KeysExplain(b, c, front);
      KeyExplains(b, c, k);
      LastIsNew(keys);
      var r, more := Applied(b, DiffKeys(b, c, front)), DiffKey(b, c, k);
      hide Diff, DiffKey, Meaning, SameKeys, OtherKeysKept, Applied, Under;
      AppliedJoined(b, DiffKeys(b, c, front), Under(Key(k), more));
      AppliedUnderKey(r, k, more);
      assert Get(r.fields, k) == Get(b.fields, k) by {
        KeptElsewhere(r.fields, b.fields, front, k);
      }
      AppliedNothing(Get(r.fields, k));
      OneMoreKey(r.fields, b.fields, c.fields, front, k, Applied(Get(r.fields, k), more));
    }
  }

  lemma AppliedNothing(j: Json)
    ensures Applied(j, []) == j
  {}

  lemma KeptElsewhere(r: map<string, Json>, b: map<string, Json>, keys: seq<string>, k: string)
    requires OtherKeysKept(r, b, keys) && k !in keys
    ensures Get(r, k) == Get(b, k)
  {}

  lemma LastIsNew(keys: seq<string>)
    requires Sorted(keys, StringLess) && keys != []
    ensures keys[|keys| - 1] !in keys[..|keys| - 1]
  {
    var n := |keys| - 1;
    forall i | 0 <= i < n
      ensures keys[i] != keys[n]
    {
      StringsAreTotal(keys[i], keys[n]);
    }
  }

  ghost predicate SameItems(b: seq<Json>, c: seq<Json>, n: nat) {
    n <= |b| == |c| && forall i | 0 <= i < n :: Meaning(b[i]) == Meaning(c[i])
  }

  lemma NoItems(b: seq<Json>, c: seq<Json>)
    requires |b| == |c|
    ensures SameItems(b, c, 0)
  {}

  lemma OneMoreItem(r: seq<Json>, b: seq<Json>, c: seq<Json>, n: nat, v: Json)
    requires |r| == |b| == |c| && n < |b| && SameItems(r, c, n) && r[n..] == b[n..] && Meaning(v) == Meaning(c[n])
    ensures r[n] == b[n] && SameItems(r[n := v], c, n + 1) && r[n := v][n + 1..] == b[n + 1..]
    ensures SameItems(b, c, n + 1) <==> SameItems(b, c, n) && Meaning(b[n]) == Meaning(c[n])
  {
    hide Meaning;
    assert r[n] == r[n..][0] && b[n] == b[n..][0];
    assert r[n + 1..] == r[n..][1..] && b[n + 1..] == b[n..][1..];
  }

  lemma {:induction false} ItemsExplain(b: Json, c: Json, n: nat)
    requires b.Array? && c.Array? && n <= |b.items| == |c.items|
    ensures DiffItems(b, c, n) == [] <==> SameItems(b.items, c.items, n)
    ensures var r := Applied(b, DiffItems(b, c, n));
      r.Array? && |r.items| == |b.items| && SameItems(r.items, c.items, n) && r.items[n..] == b.items[n..]
    decreases b, 1, n
  {
    hide Diff, Meaning, SameItems, Applied, Under;
    if n == 0 {
      AppliedNothing(b);
      NoItems(b.items, c.items);
    } else {
      ItemsExplain(b, c, n - 1);
      DiffExplains(b.items[n - 1], c.items[n - 1]);
      var r, more := Applied(b, DiffItems(b, c, n - 1)), Diff(b.items[n - 1], c.items[n - 1]);
      assert r.items[n - 1..][0] == b.items[n - 1..][0];
      AppliedJoined(b, DiffItems(b, c, n - 1), Under(Index(n - 1), more));
      AppliedUnderIndex(r, n - 1, more);
      OneMoreItem(r.items, b.items, c.items, n - 1, Applied(r.items[n - 1], more));
    }
  }

  // ---- where the changes are ----

  /** The value at a path, null where there is none. */
  function At(j: Json, path: seq<Step>): Json
    decreases |path|
  {
    if path == [] then j
    else match path[0]
      case Key(k) => if j.Object? then At(Get(j.fields, k), path[1..]) else Null
      case Index(i) => if j.Array? && i < |j.items| then At(j.items[i], path[1..]) else Null
  }

  /** A change names the values that are at its path, and they differ in meaning. */
  ghost predicate Real(ch: Change, b: Json, c: Json) {
    At(b, ch.path) == ch.before && At(c, ch.path) == ch.after && Meaning(ch.before) != Meaning(ch.after)
  }

  ghost predicate AllReal(changes: seq<Change>, b: Json, c: Json) {
    forall ch | ch in changes :: Real(ch, b, c)
  }

  lemma RealUnder(s: Step, changes: seq<Change>, b: Json, c: Json, bs: Json, cs: Json)
    requires AllReal(changes, bs, cs)
    requires match s
             case Key(k) => b.Object? && c.Object? && bs == Get(b.fields, k) && cs == Get(c.fields, k)
             case Index(i) => b.Array? && c.Array? && i < |b.items| && i < |c.items| && bs == b.items[i] && cs == c.items[i]
    ensures AllReal(Under(s, changes), b, c)
  {
    hide Meaning;
    forall ch | ch in Under(s, changes)
      ensures Real(ch, b, c)
    {
      var i :| 0 <= i < |changes| && Under(s, changes)[i] == ch;
      assert changes[i] in changes && ch.path[1..] == changes[i].path;
    }
  }

  lemma {:induction false} ChangesAreReal(b: Json, c: Json)
    ensures AllReal(Diff(b, c), b, c)
    decreases b, 2, 0
  {
    hide Real, Meaning;
    if b.Object? && c.Object? {
      KeysAreReal(b, c, SortedKeys(b.fields.Keys + c.fields.Keys));
    } else if b.Array? && c.Array? && |b.items| == |c.items| {
      ItemsAreReal(b, c, |b.items|);
    } else {
      LeafIsReal(b, c);
    }
  }

  lemma LeafIsReal(b: Json, c: Json)
    requires !(b.Object? && c.Object?) && !(b.Array? && c.Array? && |b.items| == |c.items|)
    ensures AllReal(Leaf(b, c), b, c)
  {
    LeafExplains(b, c);
    hide Meaning;
  }

  lemma {:induction false} KeysAreReal(b: Json, c: Json, keys: seq<string>)
    requires b.Object? && c.Object?
    ensures AllReal(DiffKeys(b, c, keys), b, c)
    decreases b, 1, |keys|
  {
    hide Real, Meaning, Diff;
    if keys != [] {
      var n := |keys| - 1;
      var k := keys[n];
      KeysAreReal(b, c, keys[..n]);
      if k in b.fields && k in c.fields {
        ChangesAreReal(b.fields[k], c.fields[k]);
      } else {
        LeafIsReal(Get(b.fields, k), Get(c.fields, k));
      }
      RealUnder(Key(k), DiffKey(b, c, k), b, c, Get(b.fields, k), Get(c.fields, k));
    }
  }

  lemma {:induction false} ItemsAreReal(b: Json, c: Json, n: nat)
    requires b.Array? && c.Array? && n <= |b.items| == |c.items|
    ensures AllReal(DiffItems(b, c, n), b, c)
    decreases b, 1, n
  {
    hide Real, Meaning, Diff;
    if n > 0 {
      ItemsAreReal(b, c, n - 1);
      ChangesAreReal(b.items[n - 1], c.items[n - 1]);
      RealUnder(Index(n - 1), Diff(b.items[n - 1], c.items[n - 1]), b, c, b.items[n - 1], c.items[n - 1]);
    }
  }

  // ---- the order of the changes ----

  predicate StepLess(a: Step, b: Step) {
    (a.Key? && b.Key? && StringLess(a.name, b.name)) || (a.Index? && b.Index? && a.i < b.i)
  }

  /** Paths in the order a reader meets them; a path is neither before its own start nor itself. */
  predicate Before(p: seq<Step>, q: seq<Step>) {
    p != [] && q != [] && if p[0] == q[0] then Before(p[1..], q[1..]) else StepLess(p[0], q[0])
  }

  ghost predicate Ascending(changes: seq<Change>) {
    forall i, j | 0 <= i < j < |changes| :: Before(changes[i].path, changes[j].path)
  }

  /** The first steps of some changes. */
  ghost predicate StartBefore(changes: seq<Change>, s: Step) {
    forall ch | ch in changes :: ch.path != [] && StepLess(ch.path[0], s)
  }

  lemma AscendingUnder(front: seq<Change>, s: Step, more: seq<Change>)
    requires Ascending(front) && Ascending(more) && StartBefore(front, s)
    ensures Ascending(front + Under(s, more))
  {
    hide StepLess;
    var all, under := front + Under(s, more), Under(s, more);
    forall i, j | 0 <= i < j < |all|
      ensures Before(all[i].path, all[j].path)
    {
      if i >= |front| {
        var p, q := more[i - |front|].path, more[j - |front|].path;
        assert ([s] + p)[1..] == p && ([s] + q)[1..] == q;
      } else if j >= |front| {
        assert front[i] in front;
        StepNotItself(s);
      }
    }
  }

  lemma StepNotItself(s: Step)
    ensures !StepLess(s, s)
  {
    if s.Key? {
      StringsAreTotal(s.name, s.name);
    }
  }

  /** The changes come in order, so no two have the same path, or one inside the other. */
  lemma {:induction false} DiffAscends(b: Json, c: Json)
    ensures Ascending(Diff(b, c))
    decreases b, 2, 0
  {
    hide Before, StepLess;
    if b.Object? && c.Object? {
      KeysAscend(b, c, SortedKeys(b.fields.Keys + c.fields.Keys));
    } else if b.Array? && c.Array? && |b.items| == |c.items| {
      ItemsAscend(b, c, |b.items|);
    }
  }

  ghost predicate StartAt(changes: seq<Change>, keys: seq<string>) {
    forall ch | ch in changes :: ch.path != [] && ch.path[0].Key? && ch.path[0].name in keys
  }

  lemma StartAtIsBefore(changes: seq<Change>, keys: seq<string>)
    requires Sorted(keys, StringLess) && keys != [] && StartAt(changes, keys[..|keys| - 1])
    ensures StartBefore(changes, Key(keys[|keys| - 1]))
  {
    hide StringLess;
    var n := |keys| - 1;
    forall ch | ch in changes
      ensures ch.path != [] && StepLess(ch.path[0], Key(keys[n]))
    {
      var i :| 0 <= i < n && keys[..n][i] == ch.path[0].name;
      assert StringLess(keys[i], keys[n]);
    }
  }

  lemma StartAtMore(changes: seq<Change>, keys: seq<string>, k: string, more: seq<Change>)
    requires StartAt(changes, keys)
    ensures StartAt(changes + Under(Key(k), more), keys + [k])
  {
    assert (keys + [k])[|keys|] == k;
  }

  lemma {:induction false} KeysAscend(b: Json, c: Json, keys: seq<string>)
    requires b.Object? && c.Object? && Sorted(keys, StringLess)
    ensures Ascending(DiffKeys(b, c, keys)) && StartAt(DiffKeys(b, c, keys), keys)
    decreases b, 1, |keys|
  {
    hide Before, Diff, Under, StartAt, StartBefore;
    if keys == [] {
      NoneStart(keys);
    } else {
      var n := |keys| - 1;
      var k, front := keys[n], keys[..n];
      KeysAscend(b, c, front);
      if k in b.fields && k in c.fields {
        DiffAscends(b.fields[k], c.fields[k]);
      }
      StartAtIsBefore(DiffKeys(b, c, front), keys);
      AscendingUnder(DiffKeys(b, c, front), Key(k), DiffKey(b, c, k));
      StartAtMore(DiffKeys(b, c, front), front, k, DiffKey(b, c, k));
      assert keys == front + [k];
    }
  }

  lemma NoneStart(keys: seq<string>)
    ensures StartAt([], keys)
  {}

  lemma {:induction false} ItemsAscend(b: Json, c: Json, n: nat)
    requires b.Array? && c.Array? && n <= |b.items| == |c.items|
    ensures Ascending(DiffItems(b, c, n)) && StartBefore(DiffItems(b, c, n), Index(n))
    decreases b, 1, n
  {
    hide Before, Diff;
    if n > 0 {
      ItemsAscend(b, c, n - 1);
      DiffAscends(b.items[n - 1], c.items[n - 1]);
      AscendingUnder(DiffItems(b, c, n - 1), Index(n - 1), Diff(b.items[n - 1], c.items[n - 1]));
    }
  }

  // ---- the walk ----

  function Prefixed(path: seq<Step>, changes: seq<Change>): (out: seq<Change>)
    ensures |out| == |changes| && forall i | 0 <= i < |changes| :: out[i] == changes[i].(path := path + changes[i].path)
  {
    seq(|changes|, i requires 0 <= i < |changes| => changes[i].(path := path + changes[i].path))
  }

  lemma PrefixedUnder(path: seq<Step>, front: seq<Change>, s: Step, more: seq<Change>)
    ensures Prefixed(path, front + Under(s, more)) == Prefixed(path, front) + Prefixed(path + [s], more)
  {
    forall i | 0 <= i < |more|
      ensures path + ([s] + more[i].path) == path + [s] + more[i].path
    {
    }
  }

  method SortKeys(keys: set<string>) returns (sorted: seq<string>)
    ensures sorted == SortedKeys(keys)
  {
    StringsAreOrdered();
    sorted := Sort(keys, StringLess);
  }

  /** Appends the changes between two trees, whose paths start with `path`. */
  method Visit(path: seq<Step>, b: Json, c: Json, changes: seq<Change>) returns (out: seq<Change>)
    ensures out == changes + Prefixed(path, Diff(b, c))
    decreases b, 2
  {
    if b.Object? && c.Object? {
      out := VisitKeys(path, b, c, changes);
    } else if b.Array? && c.Array? && |b.items| == |c.items| {
      out := VisitItems(path, b, c, changes);
    } else {
      out := Report(path, b, c, changes);
    }
  }

  method VisitKeys(path: seq<Step>, b: Json, c: Json, changes: seq<Change>) returns (out: seq<Change>)
    requires b.Object? && c.Object?
    ensures out == changes + Prefixed(path, DiffKeys(b, c, SortedKeys(b.fields.Keys + c.fields.Keys)))
    decreases b, 1
  {
    hide DiffKey, DiffKeys, Prefixed, Under;
    out := changes;
    var keys := SortKeys(b.fields.Keys + c.fields.Keys);
    var i := 0;
    NoKeys(path, b, c, keys);
    while i < |keys|
      invariant i <= |keys| && out == changes + Prefixed(path, DiffKeys(b, c, keys[..i]))
    {
      KeysStep(path, b, c, keys, i, changes);
      out := VisitKey(path + [Key(keys[i])], b, c, keys[i], out);
      i := i + 1;
    }
    assert keys[..i] == keys;
  }

  lemma NoKeys(path: seq<Step>, b: Json, c: Json, keys: seq<string>)
    requires b.Object? && c.Object?
    ensures Prefixed(path, DiffKeys(b, c, keys[..0])) == []
  {}

  lemma KeysStep(path: seq<Step>, b: Json, c: Json, keys: seq<string>, i: nat, changes: seq<Change>)
    requires b.Object? && c.Object? && i < |keys|
    ensures changes + Prefixed(path, DiffKeys(b, c, keys[..i + 1])) ==
      changes + Prefixed(path, DiffKeys(b, c, keys[..i])) + Prefixed(path + [Key(keys[i])], DiffKey(b, c, keys[i]))
  {
    hide DiffKey, Prefixed, Under;
    assert keys[..i + 1][..i] == keys[..i];
    PrefixedUnder(path, DiffKeys(b, c, keys[..i]), Key(keys[i]), DiffKey(b, c, keys[i]));
  }

  method VisitItems(path: seq<Step>, b: Json, c: Json, changes: seq<Change>) returns (out: seq<Change>)
    requires b.Array? && c.Array? && |b.items| == |c.items|
    ensures out == changes + Prefixed(path, DiffItems(b, c, |b.items|))
    decreases b, 1
  {
    hide Diff, Prefixed, Under;
    out := changes;
    var i := 0;
    PrefixedNone(path);
    while i < |b.items|
      invariant i <= |b.items| && out == changes + Prefixed(path, DiffItems(b, c, i))
    {
      PrefixedUnder(path, DiffItems(b, c, i), Index(i), Diff(b.items[i], c.items[i]));
      out := Visit(path + [Index(i)], b.items[i], c.items[i], out);
      i := i + 1;
    }
  }

  lemma PrefixedNone(path: seq<Step>)
    ensures Prefixed(path, []) == []
  {}

  method VisitKey(path: seq<Step>, b: Json, c: Json, k: string, changes: seq<Change>) returns (out: seq<Change>)
    requires b.Object? && c.Object?
    ensures out == changes + Prefixed(path, DiffKey(b, c, k))
    decreases b, 0
  {
    if k in b.fields && k in c.fields {
      out := Visit(path, b.fields[k], c.fields[k], changes);
    } else {
      out := Report(path, Get(b.fields, k), Get(c.fields, k), changes);
    }
  }

  method Report(path: seq<Step>, b: Json, c: Json, changes: seq<Change>) returns (out: seq<Change>)
    ensures out == changes + Prefixed(path, Leaf(b, c))
  {
    out := changes;
    if b != c {
      out := out + [Change(path, b, c)];
      assert path + [] == path;
    }
  }

  /** Compares two setups apart from their derived revision; a missing one has no changes. */
  method DiffSetups(base: Option<map<string, Json>>, candidate: Option<map<string, Json>>) returns (changes: seq<Change>)
    ensures base.None? || candidate.None? ==> changes == []
    ensures base.Some? && candidate.Some? ==>
      var b, c := Object(base.value - {"revision"}), Object(candidate.value - {"revision"});
      && changes == Diff(b, c)
      && (changes == [] <==> Meaning(b) == Meaning(c))
      && Meaning(Applied(b, changes)) == Meaning(c)
      && AllReal(changes, b, c) && Ascending(changes)
  {
    if base.None? || candidate.None? {
      return [];
    }
    hide Meaning, Diff, AllReal, Ascending, Applied;
    var b, c := Object(base.value - {"revision"}), Object(candidate.value - {"revision"});
    changes := Visit([], b, c, []);
    PrefixedByNothing(Diff(b, c));
    DiffExplains(b, c);
    ChangesAreReal(b, c);
    DiffAscends(b, c);
  }

  lemma PrefixedByNothing(changes: seq<Change>)
    ensures [] + Prefixed([], changes) == changes
  {
    assert forall i | 0 <= i < |changes| :: [] + changes[i].path == changes[i].path;
  }
}
