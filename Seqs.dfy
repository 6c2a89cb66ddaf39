/** Sequence helpers shared by the registries: duplicate-freedom, counting, removal. */
module Seqs {

  predicate Distinct<T(==)>(s: seq<T>)
  {
    forall i, j :: 0 <= i < j < |s| ==> s[i] != s[j]
  }

  /** In a duplicate-free sequence an element occurs neither before nor after its own position. */
  lemma DistinctAt<T>(s: seq<T>, i: nat)
    requires Distinct(s) && i < |s|
    ensures s[i] !in s[..i] && s[i] !in s[i + 1..]
  {
    forall k | 0 <= k < i ensures s[..i][k] != s[i] { assert s[..i][k] == s[k]; }
    var t := s[i + 1..];
    forall k | 0 <= k < |t| ensures t[k] != s[i] { assert t[k] == s[i + 1 + k]; }
  }

  lemma DistinctTail<T>(s: seq<T>)
    requires Distinct(s) && s != []
    ensures Distinct(s[1..]) && s[0] !in s[1..]
  {
    forall i, j | 0 <= i < j < |s| - 1 ensures s[1..][i] != s[1..][j] { assert s[1..][i] == s[i + 1]; }
    DistinctAt(s, 0);
  }

  lemma DistinctDrop<T>(s: seq<T>, k: nat)
    requires Distinct(s) && k <= |s|
    ensures Distinct(s[k..])
    ensures forall i :: 0 <= i < |s[k..]| ==> s[k..][i] in s
  {
    forall i, j | 0 <= i < j < |s| - k ensures s[k..][i] != s[k..][j] { assert s[k..][i] == s[k + i]; }
    forall i | 0 <= i < |s[k..]| ensures s[k..][i] in s { assert s[k..][i] == s[k + i]; }
  }

  lemma DistinctSnoc<T>(s: seq<T>, x: T)
    requires Distinct(s) && x !in s
    ensures Distinct(s + [x])
  {
    forall i, j | 0 <= i < j < |s| + 1 ensures (s + [x])[i] != (s + [x])[j] {
      if j == |s| { assert (s + [x])[i] == s[i]; }
    }
  }

  /** Counts the elements of `s` that lie in `a`. */
  function CountIn<T(==)>(s: seq<T>, a: set<T>): nat
  {
    if s == [] then 0 else (if s[0] in a then 1 else 0) + CountIn(s[1..], a)
  }

  /** The set of elements of a sequence. */
  function Elems<T(!new)>(s: seq<T>): (r: set<T>)
    ensures forall x :: x in r <==> x in s
  {
    if s == [] then {} else {s[0]} + Elems(s[1..])
  }

  /** Growing a prefix by one position adds that element. */
  lemma ElemsPrefix<T(!new)>(s: seq<T>, i: nat)
    requires i < |s|
    ensures Elems(s[..i + 1]) == Elems(s[..i]) + {s[i]}
  {
    assert s[..i + 1] == s[..i] + [s[i]];
  }

  /** Removing keys one more at a time is removing them all at once. */
  lemma MapMinusStep<K(!new), V>(m: map<K, V>, e: set<K>, x: K)
    ensures (m - e) - {x} == m - (e + {x})
  {
  }

  /** Over a duplicate-free sequence, counting members of `a` gives the size of the overlap. */
  lemma {:induction false} CountInIsCardinality<T(!new)>(s: seq<T>, a: set<T>)
    requires Distinct(s)
    ensures CountIn(s, a) == |Elems(s) * a|
  {
    if s != [] {
      DistinctTail(s);
      CountInIsCardinality(s[1..], a);
      var tail := Elems(s[1..]);
      assert s[0] !in tail;
      if s[0] in a {
        assert Elems(s) * a == {s[0]} + tail * a;
      } else {
        assert Elems(s) * a == tail * a;
      }
    }
  }

  lemma {:induction false} CountAll<T>(s: seq<T>, a: set<T>)
    requires forall x :: x in s ==> x in a
    ensures CountIn(s, a) == |s|
  {
    if s != [] { CountAll(s[1..], a); }
  }

  /** A duplicate-free sequence is as long as the set of its elements. */
  lemma DistinctCard<T(!new)>(s: seq<T>, a: set<T>)
    requires Distinct(s) && forall x :: x in s <==> x in a
    ensures |s| == |a|
  {
    CountInIsCardinality(s, a);
    CountAll(s, a);
    assert Elems(s) * a == a;
  }

  /** The sequence with every occurrence of `x` removed. */
  function Without<T(==)>(s: seq<T>, x: T): seq<T>
  {
    if s == [] then [] else (if s[0] == x then [] else [s[0]]) + Without(s[1..], x)
  }

  lemma {:induction false} WithoutSpec<T>(s: seq<T>, x: T)
    ensures forall y :: y in Without(s, x) <==> y in s && y != x
    ensures Distinct(s) ==> Distinct(Without(s, x))
  {
    if s != [] {
      WithoutSpec(s[1..], x);
      if Distinct(s) {
        DistinctTail(s);
        if s[0] != x {
          var w := Without(s, x);
          assert w == [s[0]] + Without(s[1..], x);
          forall i, j | 0 <= i < j < |w| ensures w[i] != w[j] {
            if i == 0 { assert w[j] in Without(s[1..], x); }
            else { assert w[i] == Without(s[1..], x)[i - 1] && w[j] == Without(s[1..], x)[j - 1]; }
          }
        }
      }
    }
  }

  /** Python's `list.remove(x)`: the first occurrence of `x` taken out, nothing when absent. */
  function RemoveFirst<T(==)>(s: seq<T>, x: T): (r: seq<T>)
    ensures x in s ==> multiset(r) == multiset(s) - multiset{x} && |r| == |s| - 1
    ensures x !in s ==> r == s
    ensures |r| <= |s|
  {
    if s == [] then []
    else
      assert s == [s[0]] + s[1..];
      if s[0] == x then s[1..] else [s[0]] + RemoveFirst(s[1..], x)
  }

  /** Putting an element that is not there yet in front keeps a sequence duplicate-free. */
  lemma DistinctCons<T>(x: T, s: seq<T>)
    requires Distinct(s) && x !in s
    ensures Distinct([x] + s)
  {
    forall i, j | 0 <= i < j < |s| + 1 ensures ([x] + s)[i] != ([x] + s)[j] {
      assert ([x] + s)[j] == s[j - 1];
    }
  }

  /** In a duplicate-free sequence `list.remove` takes out the only occurrence. */
  lemma {:induction false} RemoveFirstDistinct<T>(s: seq<T>, x: T)
    requires Distinct(s)
    ensures Distinct(RemoveFirst(s, x)) && x !in RemoveFirst(s, x)
    ensures forall i :: 0 <= i < |RemoveFirst(s, x)| ==> RemoveFirst(s, x)[i] in s
  {
    if s != [] {
      DistinctTail(s);
      if s[0] != x {
        var r := RemoveFirst(s[1..], x);
        RemoveFirstDistinct(s[1..], x);
        DistinctCons(s[0], r);
        assert s == [s[0]] + s[1..];
      }
    }
  }

  /** `list.remove` applied for each element of `xs`, in order. */
  function RemoveEach<T(==)>(s: seq<T>, xs: seq<T>): seq<T>
  {
    if xs == [] then s else RemoveFirst(RemoveEach(s, xs[..|xs| - 1]), xs[|xs| - 1])
  }

  /** Removing a sub-multiset one element at a time takes out exactly that multiset. */
  lemma {:induction false} RemoveEachMultiset<T>(s: seq<T>, xs: seq<T>)
    requires multiset(xs) <= multiset(s)
    ensures multiset(RemoveEach(s, xs)) == multiset(s) - multiset(xs)
    ensures |RemoveEach(s, xs)| == |s| - |xs|
  {
    if xs != [] {
      var init := xs[..|xs| - 1];
      var x := xs[|xs| - 1];
      assert xs == init + [x];
      assert multiset(xs) == multiset(init) + multiset{x};
      RemoveEachMultiset(s, init);
      var t := RemoveEach(s, init);
      assert multiset(t)[x] == multiset(s)[x] - multiset(init)[x] > 0;
      assert x in multiset(t);
      assert |multiset(xs)| == |multiset(init)| + 1;
    }
  }

  /** A second update of the same key overrides the first. */
  lemma MapOverwrite<K, V>(m: map<K, V>, k: K, a: V, b: V)
    ensures m[k := a][k := b] == m[k := b]
  {
  }

  /** The elements of `s` that satisfy `f`, in order (a Python comprehension with a condition). */
  function Filter<T>(s: seq<T>, f: T -> bool): (r: seq<T>)
    ensures |r| <= |s|
  {
    if s == [] then [] else (if f(s[0]) then [s[0]] else []) + Filter(s[1..], f)
  }

  lemma {:induction false} FilterSpec<T>(s: seq<T>, f: T -> bool, y: T)
    ensures y in Filter(s, f) <==> y in s && f(y)
  {
    if s != [] {
      FilterSpec(s[1..], f, y);
      assert s == [s[0]] + s[1..];
    }
  }

  lemma {:induction false} FilterAppend<T>(a: seq<T>, b: seq<T>, f: T -> bool)
    ensures Filter(a + b, f) == Filter(a, f) + Filter(b, f)
  {
    if a != [] {
      assert (a + b)[1..] == a[1..] + b;
      FilterAppend(a[1..], b, f);
      assert Filter(a + b, f) == (if f(a[0]) then [a[0]] else []) + Filter(a[1..] + b, f);
    } else {
      assert a + b == b;
    }
  }

  /** A filter that keeps every element changes nothing. */
  lemma {:induction false} FilterKeepsAll<T>(s: seq<T>, f: T -> bool)
    requires forall i :: 0 <= i < |s| ==> f(s[i])
    ensures Filter(s, f) == s
  {
    if s != [] {
      FilterKeepsAll(s[1..], f);
    }
  }
}
