/** Sorting by a strict total order: a set has one sorted sequence, and strings are ordered as they
    are compared character by character. */
module Ordering {

  ghost predicate StrictTotal<T(!new)>(less: (T, T) -> bool) {
    && (forall a: T, b: T :: a == b || less(a, b) || less(b, a))
    && (forall a: T, b: T :: !(less(a, b) && (less(b, a) || a == b)))
    && (forall a: T, b: T, c: T :: less(a, b) && less(b, c) ==> less(a, c))
  }

  ghost predicate Sorted<T(!new)>(keys: seq<T>, less: (T, T) -> bool) {
    forall i, j | 0 <= i < j < |keys| :: less(keys[i], keys[j])
  }

  function Elements<T>(s: seq<T>): set<T> {
    set x | x in s
  }

  lemma FirstIsElement<T>(a: seq<T>)
    requires a != []
    ensures a[0] in Elements(a)
  {}

  lemma FirstIsLeast<T(!new)>(a: seq<T>, less: (T, T) -> bool)
    requires StrictTotal(less) && Sorted(a, less) && a != []
    ensures forall x | x in a :: x == a[0] || less(a[0], x)
    ensures Sorted(a[1..], less) && a[0] !in a[1..] && Elements(a[1..]) == Elements(a) - {a[0]}
  {
    assert a == [a[0]] + a[1..];
  }

  /** A sorted sequence is determined by its elements. */
  lemma {:induction false} SortedIsUnique<T(!new)>(a: seq<T>, b: seq<T>, less: (T, T) -> bool)
    requires StrictTotal(less) && Sorted(a, less) && Sorted(b, less) && Elements(a) == Elements(b)
    ensures a == b
    decreases |a|
  {
    if a == [] {
      if b != [] {
        FirstIsElement(b);
      }
    } else {
      FirstIsElement(a);
      FirstIsLeast(a, less);
      FirstIsLeast(b, less);
      FirstIsElement(b);
      assert b[0] in a && a[0] in b;
      SortedIsUnique(a[1..], b[1..], less);
      assert a == [a[0]] + a[1..] && b == [b[0]] + b[1..];
    }
  }

  ghost predicate IsLeast<T(!new)>(k: T, s: set<T>, less: (T, T) -> bool) {
    k in s && forall x | x in s :: x == k || less(k, x)
  }

  lemma LeastWith<T(!new)>(a: T, b: T, rest: set<T>, less: (T, T) -> bool)
    requires StrictTotal(less) && IsLeast(b, rest, less) && a !in rest
    ensures IsLeast(if less(a, b) then a else b, rest + {a}, less)
  {}

  lemma OnlyIsLeast<T(!new)>(a: T, less: (T, T) -> bool)
    ensures IsLeast(a, {a}, less)
  {}

  lemma {:induction false} HasLeast<T(!new)>(s: set<T>, less: (T, T) -> bool)
    requires StrictTotal(less) && s != {}
    ensures exists k :: IsLeast(k, s, less)
    decreases |s|
  {
    hide IsLeast, StrictTotal;
    var a :| a in s;
    var rest := s - {a};
    assert s == rest + {a};
    if rest == {} {
      OnlyIsLeast(a, less);
      assert s == {a} && IsLeast(a, s, less);
    } else {
      HasLeast(rest, less);
      var b :| IsLeast(b, rest, less);
      LeastWith(a, b, rest, less);
    }
  }

  /** The elements of a set in order. */
  ghost function SortedOf<T(!new)>(s: set<T>, less: (T, T) -> bool): (keys: seq<T>)
    requires StrictTotal(less)
    ensures Sorted(keys, less) && Elements(keys) == s
  {
    if s == {} then [] else
      HasLeast(s, less);
      var k :| IsLeast(k, s, less);
      var rest := SortedOf(s - {k}, less);
      assert forall x | x in rest :: x in Elements(rest);
      assert Elements([k] + rest) == {k} + Elements(rest);
      [k] + rest
  }

  method Sort<T(!new, ==)>(s: set<T>, less: (T, T) -> bool) returns (sorted: seq<T>)
    requires StrictTotal(less)
    ensures sorted == SortedOf(s, less)
  {
    hide StrictTotal;
    sorted := [];
    var rest := s;
    while rest != {}
      invariant rest <= s && Sorted(sorted, less) && Elements(sorted) == s - rest
      decreases |rest|
    {
      var k :| k in rest;
      var i := 0;
      while i < |sorted| && less(sorted[i], k)
        invariant i <= |sorted| && forall j | 0 <= j < i :: less(sorted[j], k)
      {
        i := i + 1;
      }
      InsertSorted(sorted, i, k, less);
      sorted := sorted[..i] + [k] + sorted[i..];
      rest := rest - {k};
    }
    SortedIsUnique(sorted, SortedOf(s, less), less);
  }

  lemma InsertSorted<T(!new)>(keys: seq<T>, i: nat, k: T, less: (T, T) -> bool)
    requires StrictTotal(less) && Sorted(keys, less) && i <= |keys| && k !in Elements(keys)
    requires (forall j | 0 <= j < i :: less(keys[j], k)) && (i < |keys| ==> !less(keys[i], k))
    ensures var out := keys[..i] + [k] + keys[i..]; Sorted(out, less) && Elements(out) == Elements(keys) + {k}
  {
    var out := keys[..i] + [k] + keys[i..];
    assert keys == keys[..i] + keys[i..];
    forall j | i <= j < |keys|
      ensures less(k, keys[j])
    {
      assert keys[j] in Elements(keys) && keys[i] in Elements(keys);
      assert keys[i] != k && less(k, keys[i]);
    }
    hide StrictTotal, Elements;
    forall a, b | 0 <= a < b < |out|
      ensures less(out[a], out[b])
    {
      assert out[a] == if a < i then keys[a] else if a == i then k else keys[a - 1];
      assert out[b] == if b < i then keys[b] else if b == i then k else keys[b - 1];
    }
    ElementsInserted(keys, i, k);
  }

  lemma ElementsInserted<T>(keys: seq<T>, i: nat, k: T)
    requires i <= |keys|
    ensures Elements(keys[..i] + [k] + keys[i..]) == Elements(keys) + {k}
  {
    assert keys == keys[..i] + keys[i..];
  }

  // ---- strings ----

  predicate StringLess(a: string, b: string) {
    b != "" && (a == "" || a[0] < b[0] || (a[0] == b[0] && StringLess(a[1..], b[1..])))
  }

  lemma {:induction false} StringsAreTotal(a: string, b: string)
    ensures a == b || StringLess(a, b) || StringLess(b, a)
    ensures !(StringLess(a, b) && StringLess(b, a)) && !StringLess(a, a)
  {
    if a != "" {
      StringsAreTotal(a[1..], a[1..]);
      if b != "" {
        StringsAreTotal(a[1..], b[1..]);
        assert a == [a[0]] + a[1..] && b == [b[0]] + b[1..];
      }
    }
  }

  lemma {:induction false} StringsAreTransitive(a: string, b: string, c: string)
    requires StringLess(a, b) && StringLess(b, c)
    ensures StringLess(a, c)
  {
    if a != "" && a[0] == b[0] == c[0] {
      StringsAreTransitive(a[1..], b[1..], c[1..]);
    }
  }

  lemma StringsAreOrdered()
    ensures StrictTotal(StringLess)
  {
    forall a: string, b: string
      ensures a == b || StringLess(a, b) || StringLess(b, a)
      ensures !(StringLess(a, b) && (StringLess(b, a) || a == b))
    {
      StringsAreTotal(a, b);
    }
    forall a: string, b: string, c: string | StringLess(a, b) && StringLess(b, c)
      ensures StringLess(a, c)
    {
      StringsAreTransitive(a, b, c);
    }
  }
}
