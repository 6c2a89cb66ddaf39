/**
 * Stable insertion sort under a caller-supplied total preorder, the way Python's `sorted` is
 * used by the metrics registry (on floats and on tag pairs) and by the download queue.
 */
module Sorting {
  import opened Seqs

  ghost predicate Total<T(!new)>(leq: (T, T) -> bool)
  {
    forall a: T, b: T :: leq(a, b) || leq(b, a)
  }

  ghost predicate Transitive<T(!new)>(leq: (T, T) -> bool)
  {
    forall a: T, b: T, c: T :: leq(a, b) && leq(b, c) ==> leq(a, c)
  }

  ghost predicate Antisymmetric<T(!new)>(leq: (T, T) -> bool)
  {
    forall a: T, b: T :: leq(a, b) && leq(b, a) ==> a == b
  }

  predicate SortedBy<T>(s: seq<T>, leq: (T, T) -> bool)
  {
    forall i, j :: 0 <= i < j < |s| ==> leq(s[i], s[j])
  }

  lemma SortedTail<T>(s: seq<T>, leq: (T, T) -> bool)
    requires s != [] && SortedBy(s, leq)
    ensures SortedBy(s[1..], leq)
  {
    forall i, j | 0 <= i < j < |s[1..]|
      ensures leq(s[1..][i], s[1..][j])
    {
      assert s[1..][i] == s[i + 1] && s[1..][j] == s[j + 1];
    }
  }

  lemma SortedDrop<T>(s: seq<T>, k: nat, leq: (T, T) -> bool)
    requires k <= |s| && SortedBy(s, leq)
    ensures SortedBy(s[k..], leq)
  {
    forall i, j | 0 <= i < j < |s[k..]|
      ensures leq(s[k..][i], s[k..][j])
    {
      assert s[k..][i] == s[k + i] && s[k..][j] == s[k + j];
    }
  }

  /** `x` inserted into `s` after the leading elements not above it. */
  function Insert<T>(x: T, s: seq<T>, leq: (T, T) -> bool): (r: seq<T>)
    ensures multiset(r) == multiset(s) + multiset{x} && |r| == |s| + 1
  {
    if s == [] then [x]
    else
      assert s == [s[0]] + s[1..];
      if leq(s[0], x) then [s[0]] + Insert(x, s[1..], leq) else [x] + s
  }

  lemma HeadBelowInsert<T>(x: T, s: seq<T>, rest: seq<T>, leq: (T, T) -> bool)
    requires s != [] && SortedBy(s, leq) && leq(s[0], x)
    requires multiset(rest) == multiset(s[1..]) + multiset{x}
    ensures forall k :: 0 <= k < |rest| ==> leq(s[0], rest[k])
  {
    forall k | 0 <= k < |rest|
      ensures leq(s[0], rest[k])
    {
      assert rest[k] in multiset(rest);
      if rest[k] != x {
        assert rest[k] in s[1..];
        var j :| 0 <= j < |s[1..]| && s[1..][j] == rest[k];
        assert s[j + 1] == rest[k];
      }
    }
  }

  /** Inserting into a sorted sequence keeps it sorted. */
  lemma {:induction false} InsertSorted<T(!new)>(x: T, s: seq<T>, leq: (T, T) -> bool)
    requires Total(leq) && Transitive(leq) && SortedBy(s, leq)
    ensures SortedBy(Insert(x, s, leq), leq)
  {
    if s != [] {
      if leq(s[0], x) {
        SortedTail(s, leq);
        InsertSorted(x, s[1..], leq);
        HeadBelowInsert(x, s, Insert(x, s[1..], leq), leq);
      } else {
        assert forall k :: 0 <= k < |s| ==> leq(x, s[k]) by {
          forall k | 0 <= k < |s|
            ensures leq(x, s[k])
          {
            assert leq(x, s[0]);
            if k > 0 {
              assert leq(s[0], s[k]);
            }
          }
        }
      }
    }
  }

  /** How many leading elements of `s` are not above `x`: where `Insert` puts `x`. */
  function InsertPoint<T>(x: T, s: seq<T>, leq: (T, T) -> bool): (k: nat)
    ensures k <= |s|
  {
    if s != [] && leq(s[0], x) then 1 + InsertPoint(x, s[1..], leq) else 0
  }

  /** `Insert` places `x` at its insertion point and moves nothing else. */
  lemma {:induction false} InsertAt<T>(x: T, s: seq<T>, leq: (T, T) -> bool)
    ensures Insert(x, s, leq) == s[..InsertPoint(x, s, leq)] + [x] + s[InsertPoint(x, s, leq)..]
  {
    if s != [] && leq(s[0], x) {
      var t := s[1..];
      var k := InsertPoint(x, t, leq);
      InsertAt(x, t, leq);
      assert s == [s[0]] + t;
      ConsSplit(s[0], t, k, x);
    } else {
      assert s[..0] == [] && s[0..] == s;
    }
  }

  lemma ConsSplit<T>(a: T, t: seq<T>, k: nat, x: T)
    requires k <= |t|
    ensures [a] + (t[..k] + [x] + t[k..]) == ([a] + t)[..k + 1] + [x] + ([a] + t)[k + 1..]
  {
    assert ([a] + t)[..k + 1] == [a] + t[..k];
    assert ([a] + t)[k + 1..] == t[k..];
  }

  /**
   * `Insert` is stable: its insertion point comes after every leading element not above `x`
   * and before the first one above it.
   */
  lemma {:induction false} InsertPointBetween<T>(x: T, s: seq<T>, leq: (T, T) -> bool)
    ensures forall i :: 0 <= i < InsertPoint(x, s, leq) ==> leq(s[i], x)
    ensures InsertPoint(x, s, leq) < |s| ==> !leq(s[InsertPoint(x, s, leq)], x)
  {
    if s != [] && leq(s[0], x) {
      var t := s[1..];
      InsertPointBetween(x, t, leq);
      forall i | 0 < i < InsertPoint(x, s, leq)
        ensures leq(s[i], x)
      {
        assert s[i] == t[i - 1];
      }
    }
  }

  /** Putting back a head that was below an entire sorted sequence keeps it sorted. */
  lemma HeadAbove<T>(x: T, s: seq<T>, r: seq<T>, leq: (T, T) -> bool)
    requires SortedBy([x] + s, leq) && SortedBy(r, leq)
    requires forall y :: y in r ==> y in s
    ensures SortedBy([x] + r, leq)
  {
    var xr := [x] + r;
    forall i, j | 0 <= i < j < |xr|
      ensures leq(xr[i], xr[j])
    {
      if i == 0 {
        assert xr[j] == r[j - 1];
        assert r[j - 1] in s;
        var m :| 0 <= m < |s| && s[m] == r[j - 1];
        assert ([x] + s)[0] == x && ([x] + s)[m + 1] == s[m];
      } else {
        assert xr[i] == r[i - 1] && xr[j] == r[j - 1];
      }
    }
  }

  /** `list.remove` keeps a sorted sequence sorted. */
  lemma {:induction false} RemoveFirstSorted<T>(s: seq<T>, x: T, leq: (T, T) -> bool)
    requires SortedBy(s, leq)
    ensures SortedBy(RemoveFirst(s, x), leq)
  {
    if s != [] {
      SortedTail(s, leq);
      if s[0] != x {
        RemoveFirstSorted(s[1..], x, leq);
        var r := RemoveFirst(s[1..], x);
        forall y | y in r
          ensures y in s[1..]
        {
          if x in s[1..] {
            assert y in multiset(r);
          }
        }
        assert s == [s[0]] + s[1..];
        HeadAbove(s[0], s[1..], r, leq);
      }
    }
  }

  /** Removing each of a list of elements keeps a sorted sequence sorted. */
  lemma {:induction false} RemoveEachSorted<T>(s: seq<T>, xs: seq<T>, leq: (T, T) -> bool)
    requires SortedBy(s, leq)
    ensures SortedBy(RemoveEach(s, xs), leq)
  {
    if xs != [] {
      RemoveEachSorted(s, xs[..|xs| - 1], leq);
      RemoveFirstSorted(RemoveEach(s, xs[..|xs| - 1]), xs[|xs| - 1], leq);
    }
  }

  /** `sorted(s)`: the elements of `s`, ordered by repeated insertion. */
  function Sort<T(!new)>(s: seq<T>, leq: (T, T) -> bool): (r: seq<T>)
    ensures multiset(r) == multiset(s) && |r| == |s|
  {
    if s == [] then []
    else
      assert s == [s[0]] + s[1..];
      Insert(s[0], Sort(s[1..], leq), leq)
  }

  /** Under a total preorder the result of `Sort` is sorted. */
  lemma {:induction false} SortSorted<T(!new)>(s: seq<T>, leq: (T, T) -> bool)
    requires Total(leq) && Transitive(leq)
    ensures SortedBy(Sort(s, leq), leq)
  {
    if s != [] {
      SortSorted(s[1..], leq);
      InsertSorted(s[0], Sort(s[1..], leq), leq);
    }
  }

  /** The first element of a sorted sequence is its least. */
  lemma SortedHeadIsLeast<T(!new)>(s: seq<T>, leq: (T, T) -> bool, x: T)
    requires SortedBy(s, leq) && x in s
    ensures leq(s[0], x) || s[0] == x
  {
    var i :| 0 <= i < |s| && s[i] == x;
    if i > 0 {
      assert leq(s[0], s[i]);
    }
  }

  lemma MultisetTail<T>(a: seq<T>, b: seq<T>)
    requires a != [] && b != [] && a[0] == b[0] && multiset(a) == multiset(b)
    ensures multiset(a[1..]) == multiset(b[1..])
  {
    assert a == [a[0]] + a[1..] && b == [b[0]] + b[1..];
    assert multiset(a[1..]) == multiset(a) - multiset{a[0]};
    assert multiset(b[1..]) == multiset(b) - multiset{b[0]};
  }

  /** Under an antisymmetric order, two sorted arrangements of the same elements are equal. */
  lemma {:induction false} SortedUnique<T(!new)>(a: seq<T>, b: seq<T>, leq: (T, T) -> bool)
    requires Antisymmetric(leq)
    requires SortedBy(a, leq) && SortedBy(b, leq) && multiset(a) == multiset(b)
    ensures a == b
    decreases |a|
  {
    assert |b| == |a| by {
      assert |multiset(a)| == |a| && |multiset(b)| == |b|;
    }
    if a != [] {
      assert a[0] in multiset(b) && b[0] in multiset(a);
      SortedHeadIsLeast(b, leq, a[0]);
      SortedHeadIsLeast(a, leq, b[0]);
      assert a[0] == b[0];
      MultisetTail(a, b);
      SortedTail(a, leq);
      SortedTail(b, leq);
      SortedUnique(a[1..], b[1..], leq);
      assert a == [a[0]] + a[1..] && b == [b[0]] + b[1..];
    }
  }

  /** Sorting does not depend on the order of its input, under an antisymmetric order. */
  lemma SortOrderIndependent<T(!new)>(s: seq<T>, t: seq<T>, leq: (T, T) -> bool)
    requires Total(leq) && Transitive(leq) && Antisymmetric(leq)
    requires multiset(s) == multiset(t)
    ensures Sort(s, leq) == Sort(t, leq)
  {
    SortSorted(s, leq);
    SortSorted(t, leq);
    SortedUnique(Sort(s, leq), Sort(t, leq), leq);
  }

  /** Python's string comparison: lexicographic by code point, a prefix first. */
  predicate StrLeq(a: string, b: string)
  {
    if a == [] then true
    else if b == [] then false
    else if a[0] != b[0] then a[0] < b[0]
    else StrLeq(a[1..], b[1..])
  }

  lemma {:induction false} StrLeqTotal(a: string, b: string)
    ensures StrLeq(a, b) || StrLeq(b, a)
  {
    if a != [] && b != [] && a[0] == b[0] {
      StrLeqTotal(a[1..], b[1..]);
    }
  }

  lemma {:induction false} StrLeqAntisymmetric(a: string, b: string)
    requires StrLeq(a, b) && StrLeq(b, a)
    ensures a == b
  {
    if a != [] && b != [] {
      StrLeqAntisymmetric(a[1..], b[1..]);
      assert a == [a[0]] + a[1..] && b == [b[0]] + b[1..];
    }
  }

  lemma {:induction false} StrLeqTransitive(a: string, b: string, c: string)
    requires StrLeq(a, b) && StrLeq(b, c)
    ensures StrLeq(a, c)
  {
    if a != [] && b != [] && c != [] && a[0] == b[0] && b[0] == c[0] {
      StrLeqTransitive(a[1..], b[1..], c[1..]);
    }
  }

  /** String comparison is a total order. */
  lemma StrOrder()
    ensures Total(StrLeq) && Transitive(StrLeq) && Antisymmetric(StrLeq)
  {
    forall a: string, b: string
      ensures StrLeq(a, b) || StrLeq(b, a)
    {
      StrLeqTotal(a, b);
    }
    forall a: string, b: string, c: string | StrLeq(a, b) && StrLeq(b, c)
      ensures StrLeq(a, c)
    {
      StrLeqTransitive(a, b, c);
    }
    forall a: string, b: string | StrLeq(a, b) && StrLeq(b, a)
      ensures a == b
    {
      StrLeqAntisymmetric(a, b);
    }
  }

  /** Python's comparison of `(str, str)` tuples: by the first string, then by the second. */
  predicate PairLeq(p: (string, string), q: (string, string))
  {
    if p.0 != q.0 then StrLeq(p.0, q.0) else StrLeq(p.1, q.1)
  }

  /** Pair comparison is a total order. */
  lemma PairOrder()
    ensures Total(PairLeq) && Transitive(PairLeq) && Antisymmetric(PairLeq)
  {
    StrOrder();
    forall p: (string, string), q: (string, string), r: (string, string) | PairLeq(p, q) && PairLeq(q, r)
      ensures PairLeq(p, r)
    {
      if p.0 == r.0 && p.0 != q.0 {
        StrLeqAntisymmetric(p.0, q.0);
      }
    }
  }

  predicate RealLeq(a: real, b: real) { a <= b }

  lemma RealOrder()
    ensures Total(RealLeq) && Transitive(RealLeq) && Antisymmetric(RealLeq)
  {
  }

  /** Keeping some elements of a sorted sequence keeps it sorted. */
  lemma {:induction false} FilterSorted<T>(s: seq<T>, f: T -> bool, leq: (T, T) -> bool)
    requires SortedBy(s, leq)
    ensures SortedBy(Filter(s, f), leq)
  {
    if s != [] {
      SortedTail(s, leq);
      FilterSorted(s[1..], f, leq);
      var rest := Filter(s[1..], f);
      if f(s[0]) {
        forall j | 0 <= j < |rest| ensures leq(s[0], rest[j]) {
          FilterSpec(s[1..], f, rest[j]);
          var k :| 0 <= k < |s[1..]| && s[1..][k] == rest[j];
          assert s[k + 1] == rest[j];
        }
        assert Filter(s, f) == [s[0]] + rest;
      }
    }
  }
}
