/** Array.prototype.filter and the summing reduce, on sequences. */
module Lists {

  /** `s.filter(p)`: the elements satisfying p, in their original order. */
  function Filter<T>(s: seq<T>, p: T -> bool): (r: seq<T>)
    ensures |r| <= |s|
    ensures forall x :: x in r ==> x in s && p(x)
  {
    if s == [] then []
    else if p(s[|s| - 1]) then Filter(s[..|s| - 1], p) + [s[|s| - 1]]
    else Filter(s[..|s| - 1], p)
  }

  /** Nothing that satisfies p is dropped. */
  lemma {:induction false} FilterKeeps<T>(s: seq<T>, p: T -> bool, x: T)
    requires x in s && p(x)
    ensures x in Filter(s, p)
  {
    if s[|s| - 1] != x {
      assert x in s[..|s| - 1] by {
        var i :| 0 <= i < |s| && s[i] == x;
        assert i < |s| - 1;
        assert s[..|s| - 1][i] == x;
      }
      FilterKeeps(s[..|s| - 1], p, x);
    }
  }

  /** Membership in a filter, both directions. */
  lemma FilterMember<T>(s: seq<T>, p: T -> bool, x: T)
    ensures x in Filter(s, p) <==> x in s && p(x)
  {
    if x in s && p(x) {
      FilterKeeps(s, p, x);
    }
  }

  lemma {:induction false} FilterAppend<T>(s: seq<T>, t: seq<T>, p: T -> bool)
    ensures Filter(s + t, p) == Filter(s, p) + Filter(t, p)
    decreases |t|
  {
    if t == [] {
      assert s + t == s;
    } else {
      var u := t[..|t| - 1];
      assert (s + t)[..|s + t| - 1] == s + u;
      assert (s + t)[|s + t| - 1] == t[|t| - 1];
      FilterAppend(s, u, p);
    }
  }

  /** When each element of s becomes the element of t at the same place, and it
      passes p afterwards exactly when it passed p or q before (never both),
      the p-filter of t has the p- and q-filters of s together. */
  lemma {:induction false} FilterMergeLength<T>(s: seq<T>, t: seq<T>, p: T -> bool, q: T -> bool)
    requires |s| == |t|
    requires forall k :: 0 <= k < |s| ==> (p(t[k]) <==> p(s[k]) || q(s[k])) && !(p(s[k]) && q(s[k]))
    ensures |Filter(t, p)| == |Filter(s, p)| + |Filter(s, q)|
  {
    if s != [] {
      var n := |s| - 1;
      FilterMergeLength(s[..n], t[..n], p, q);
      assert |Filter(t, p)| == |Filter(t[..n], p)| + (if p(t[n]) then 1 else 0);
      assert |Filter(s, p)| == |Filter(s[..n], p)| + (if p(s[n]) then 1 else 0);
      assert |Filter(s, q)| == |Filter(s[..n], q)| + (if q(s[n]) then 1 else 0);
    }
  }

  /** The same for a sum over the filters, when the summed value is kept. */
  lemma {:induction false} FilterMergeSum<T>(s: seq<T>, t: seq<T>, p: T -> bool, q: T -> bool, f: T -> int)
    requires |s| == |t|
    requires forall k :: 0 <= k < |s| ==> (p(t[k]) <==> p(s[k]) || q(s[k])) && !(p(s[k]) && q(s[k]))
    requires forall k :: 0 <= k < |s| ==> f(t[k]) == f(s[k])
    ensures Sum(Filter(t, p), f) == Sum(Filter(s, p), f) + Sum(Filter(s, q), f)
  {
    if s != [] {
      var n := |s| - 1;
      FilterMergeSum(s[..n], t[..n], p, q, f);
      SumAppend(Filter(t[..n], p), [t[n]], f);
      SumAppend(Filter(s[..n], p), [s[n]], f);
      SumAppend(Filter(s[..n], q), [s[n]], f);
      SumOne(t[n], f);
      SumOne(s[n], f);
    }
  }

  /** A prefix grows by the next element. */
  lemma TakeOneMore<T>(s: seq<T>, i: nat)
    requires i < |s|
    ensures s[..i + 1] == s[..i] + [s[i]]
  {
  }

  /** Filtering a single element. */
  lemma FilterOne<T>(x: T, p: T -> bool)
    ensures Filter([x], p) == if p(x) then [x] else []
  {
    assert [x][..0] == [];
  }

  /** Elements that fail p can be removed or added without changing the filter. */
  lemma FilterIgnores<T>(s: seq<T>, x: T, p: T -> bool)
    requires !p(x)
    ensures Filter(s + [x], p) == Filter(s, p)
  {
    FilterAppend(s, [x], p);
    FilterOne(x, p);
  }

  /** When every element satisfies p, the filter is the identity. */
  lemma {:induction false} FilterAll<T>(s: seq<T>, p: T -> bool)
    requires forall x :: x in s ==> p(x)
    ensures Filter(s, p) == s
  {
    if s != [] {
      FilterAll(s[..|s| - 1], p);
    }
  }

  lemma FilterIdempotent<T>(s: seq<T>, p: T -> bool)
    ensures Filter(Filter(s, p), p) == Filter(s, p)
  {
    FilterAll(Filter(s, p), p);
  }

  /** Filtering commutes with a second filter by a stronger predicate. */
  lemma {:induction false} FilterFilter<T>(s: seq<T>, p: T -> bool, q: T -> bool)
    requires forall x :: q(x) ==> p(x)
    ensures Filter(Filter(s, p), q) == Filter(s, q)
  {
    if s != [] {
      var u, x := s[..|s| - 1], s[|s| - 1];
      FilterFilter(u, p, q);
      if p(x) {
        FilterAppend(Filter(u, p), [x], q);
        FilterOne(x, q);
      }
    }
  }

  /** Predicates that agree on the elements give the same filter. */
  lemma {:induction false} FilterCongruent<T>(s: seq<T>, p: T -> bool, q: T -> bool)
    requires forall x :: x in s ==> p(x) == q(x)
    ensures Filter(s, p) == Filter(s, q)
  {
    if s != [] {
      FilterCongruent(s[..|s| - 1], p, q);
    }
  }

  /** When no element satisfies p, the filter is empty. */
  lemma {:induction false} FilterNone<T>(s: seq<T>, p: T -> bool)
    requires forall x :: x in s ==> !p(x)
    ensures Filter(s, p) == []
  {
    if s != [] {
      FilterNone(s[..|s| - 1], p);
    }
  }

  /** Two filters by exclusive predicates together keep at most every element. */
  lemma {:induction false} FilterDisjointLength<T>(s: seq<T>, p: T -> bool, q: T -> bool)
    requires forall x :: !(p(x) && q(x))
    ensures |Filter(s, p)| + |Filter(s, q)| <= |s|
  {
    if s != [] {
      FilterDisjointLength(s[..|s| - 1], p, q);
    }
  }

  /** A filter keeps exactly as many elements as there are positions where p
      holds, given the increasing list of those positions. */
  lemma {:induction false} FilterLengthByIndex<T>(s: seq<T>, p: T -> bool, ks: seq<nat>)
    requires forall k :: k in ks ==> k < |s|
    requires forall k :: 0 <= k < |s| ==> (k in ks <==> p(s[k]))
    requires forall i, j :: 0 <= i < j < |ks| ==> ks[i] < ks[j]
    ensures |Filter(s, p)| == |ks|
    decreases |s|
  {
    assert |ks| > 0 ==> ks[|ks| - 1] in ks;
    if s != [] {
      var n := |s| - 1;
      if p(s[n]) {
        assert n in ks;
        var m :| 0 <= m < |ks| && ks[m] == n;
        assert m == |ks| - 1;
        FilterLengthByIndex(s[..n], p, ks[..m]);
      } else {
        forall k | k in ks ensures k < n {
          assert k != n;
        }
        FilterLengthByIndex(s[..n], p, ks);
      }
    }
  }

  /** The elements of a sequence without repetitions. */
  predicate Distinct<T(==)>(s: seq<T>) {
    forall i, j :: 0 <= i < j < |s| ==> s[i] != s[j]
  }

  /** A sequence without repetitions has as many elements as its set. */
  lemma {:induction false} DistinctCardinality<T>(s: seq<T>)
    requires Distinct(s)
    ensures |set x | x in s| == |s|
  {
    if s != [] {
      var u := s[..|s| - 1];
      DistinctCardinality(u);
      assert (set x | x in s) == (set x | x in u) + {s[|s| - 1]};
      assert s[|s| - 1] !in u;
    }
  }

  /** A sequence without repetitions drawn from another is no longer than it. */
  lemma DistinctWithin<T>(s: seq<T>, t: seq<T>)
    requires Distinct(s) && forall x :: x in s ==> x in t
    ensures |s| <= |t|
  {
    DistinctCardinality(s);
    var a, b := set x | x in s, set x | x in t;
    assert a <= b;
    SetCardinalityMonotone(a, b);
    SeqSetCardinality(t);
  }

  lemma {:induction false} SetCardinalityMonotone<T>(a: set<T>, b: set<T>)
    requires a <= b
    ensures |a| <= |b|
    decreases b
  {
    if a != {} {
      var x :| x in a;
      SetCardinalityMonotone(a - {x}, b - {x});
    }
  }

  lemma {:induction false} SeqSetCardinality<T>(t: seq<T>)
    ensures |set x | x in t| <= |t|
  {
    if t != [] {
      var u := t[..|t| - 1];
      SeqSetCardinality(u);
      assert (set x | x in t) == (set x | x in u) + {t[|t| - 1]};
    }
  }

  /** `s.reduce((sum, x) => sum + f(x), 0)` over integers. */
  function Sum<T>(s: seq<T>, f: T -> int): int {
    if s == [] then 0 else Sum(s[..|s| - 1], f) + f(s[|s| - 1])
  }

  lemma SumOne<T>(x: T, f: T -> int)
    ensures Sum([x], f) == f(x)
  {
    assert [x][..0] == [];
  }

  /** The same fold over reals. */
  function SumReal<T>(s: seq<T>, f: T -> real): real {
    if s == [] then 0.0 else SumReal(s[..|s| - 1], f) + f(s[|s| - 1])
  }

  lemma {:induction false} SumAppend<T>(s: seq<T>, t: seq<T>, f: T -> int)
    ensures Sum(s + t, f) == Sum(s, f) + Sum(t, f)
    decreases |t|
  {
    if t == [] {
      assert s + t == s;
    } else {
      var u := t[..|t| - 1];
      assert (s + t)[..|s + t| - 1] == s + u;
      assert (s + t)[|s + t| - 1] == t[|t| - 1];
      SumAppend(s, u, f);
    }
  }

  lemma {:induction false} SumNonNegative<T>(s: seq<T>, f: T -> int)
    requires forall x :: x in s ==> f(x) >= 0
    ensures Sum(s, f) >= 0
  {
    if s != [] {
      SumNonNegative(s[..|s| - 1], f);
    }
  }

  /** A sum of terms that each lie in [lo, hi] lies in [n*lo, n*hi]. */
  lemma {:induction false} SumRealBounds<T>(s: seq<T>, f: T -> real, lo: real, hi: real)
    requires forall x :: x in s ==> lo <= f(x) <= hi
    ensures (|s| as real) * lo <= SumReal(s, f) <= (|s| as real) * hi
  {
    if s != [] {
      SumRealBounds(s[..|s| - 1], f, lo, hi);
      assert s[|s| - 1] in s;
    }
  }
}
