/** List operations shared by the registries and list screens: `Array.prototype.filter`,
    order-preserving subsequences, and `Array.from(new Set(xs))`. */
module Seqs {

  /** `s.filter(p)`: the elements satisfying `p`, in their original order and multiplicity. */
  function Filter<T(!new)>(s: seq<T>, p: T -> bool): (r: seq<T>)
    ensures |r| <= |s|
    ensures forall i :: 0 <= i < |r| ==> p(r[i])
    ensures forall x :: x in r <==> x in s && p(x)
  {
    if s == [] then []
    else
      assert s == [s[0]] + s[1..];
      (if p(s[0]) then [s[0]] else []) + Filter(s[1..], p)
  }

  /** `a` is obtained from `b` by deleting elements, keeping the order of the rest. */
  predicate SubseqOf<T(==)>(a: seq<T>, b: seq<T>)
    decreases |b|
  {
    if a == [] then true
    else if b == [] then false
    else (a[0] == b[0] && SubseqOf(a[1..], b[1..])) || SubseqOf(a, b[1..])
  }

  lemma {:induction false} SubseqOfItself<T>(s: seq<T>)
    ensures SubseqOf(s, s)
    decreases |s|
  {
    if s != [] {
      SubseqOfItself(s[1..]);
    }
  }

  lemma {:induction false} FilterIsSubseq<T(!new)>(s: seq<T>, p: T -> bool)
    ensures SubseqOf(Filter(s, p), s)
  {
    if s != [] {
      FilterIsSubseq(s[1..], p);
      if p(s[0]) {
        assert Filter(s, p) == [s[0]] + Filter(s[1..], p);
        assert Filter(s, p)[1..] == Filter(s[1..], p);
      } else {
        assert Filter(s, p) == Filter(s[1..], p);
      }
    }
  }

  /** A filter that every element passes changes nothing. */
  lemma {:induction false} FilterAll<T(!new)>(s: seq<T>, p: T -> bool)
    requires forall i :: 0 <= i < |s| ==> p(s[i])
    ensures Filter(s, p) == s
  {
    if s != [] {
      FilterAll(s[1..], p);
    }
  }

  /** The kept elements carry their multiplicity: an element passing `p` is kept as often as it occurs. */
  lemma {:induction false} FilterMultiset<T(!new)>(s: seq<T>, p: T -> bool)
    ensures forall x :: multiset(Filter(s, p))[x] == if p(x) then multiset(s)[x] else 0
  {
    if s != [] {
      FilterMultiset(s[1..], p);
      assert s == [s[0]] + s[1..];
    }
  }

  lemma {:induction false} FilterConcat<T(!new)>(a: seq<T>, b: seq<T>, p: T -> bool)
    ensures Filter(a + b, p) == Filter(a, p) + Filter(b, p)
  {
    if a == [] {
      assert a + b == b;
    } else {
      assert (a + b)[0] == a[0];
      assert (a + b)[1..] == a[1..] + b;
      FilterConcat(a[1..], b, p);
      var h := if p(a[0]) then [a[0]] else [];
      calc {
        Filter(a + b, p);
        h + Filter(a[1..] + b, p);
        h + (Filter(a[1..], p) + Filter(b, p));
        (h + Filter(a[1..], p)) + Filter(b, p);
        Filter(a, p) + Filter(b, p);
      }
    }
  }

  /** `Filter` of a one-element sequence. */
  lemma FilterSingleton<T(!new)>(x: T, p: T -> bool)
    ensures Filter([x], p) == if p(x) then [x] else []
  {
    assert [x][1..] == [];
  }

  /** Filtering a non-empty list, split off at its last element. */
  lemma FilterLast<T(!new)>(s: seq<T>, p: T -> bool)
    requires s != []
    ensures Filter(s, p) == Filter(s[..|s| - 1], p) + (if p(s[|s| - 1]) then [s[|s| - 1]] else [])
  {
    var init, last := s[..|s| - 1], s[|s| - 1];
    assert s == init + [last];
    FilterConcat(init, [last], p);
    FilterSingleton(last, p);
  }

  /** Two tests that agree on every element keep the same elements. */
  lemma {:induction false} FilterSameTest<T(!new)>(s: seq<T>, p: T -> bool, q: T -> bool)
    requires forall x :: x in s ==> p(x) == q(x)
    ensures Filter(s, p) == Filter(s, q)
  {
    if s != [] {
      assert forall x :: x in s[1..] ==> x in s;
      FilterSameTest(s[1..], p, q);
    }
  }

  /** The first element kept is the value that first passes the test: it occurs no later than any
      element that passes. */
  lemma {:induction false} FilterHead<T(!new)>(s: seq<T>, p: T -> bool, i: nat)
    requires i < |s| && p(s[i])
    ensures Filter(s, p) != [] && Filter(s, p)[0] in s && IndexOf(s, Filter(s, p)[0]) <= i
  {
    assert s[i] in s;
    if !p(s[0]) {
      FilterHead(s[1..], p, i - 1);
      assert Filter(s, p) == Filter(s[1..], p);
    }
  }

  /** Projecting the kept elements is keeping the projections that pass the projected test. */
  lemma {:induction false} MapFilter<T(!new), U(!new)>(s: seq<T>, f: T -> U, p: T -> bool, q: U -> bool)
    requires forall x :: p(x) == q(f(x))
    ensures Map(Filter(s, p), f) == Filter(Map(s, f), q)
  {
    if s != [] {
      var h := if p(s[0]) then [s[0]] else [];
      MapFilter(s[1..], f, p, q);
      MapCons(s, f);
      MapConcat(h, Filter(s[1..], p), f);
      assert Map(h, f) == if q(f(s[0])) then [f(s[0])] else [];
    }
  }

  lemma MapCons<T, U>(s: seq<T>, f: T -> U)
    requires s != []
    ensures Map(s, f) == [f(s[0])] + Map(s[1..], f)
  {
  }

  lemma MapSnoc<T, U>(s: seq<T>, f: T -> U)
    requires s != []
    ensures Map(s, f) == Map(s[..|s| - 1], f) + [f(s[|s| - 1])]
  {
  }

  lemma MapConcat<T, U>(a: seq<T>, b: seq<T>, f: T -> U)
    ensures Map(a + b, f) == Map(a, f) + Map(b, f)
  {
  }

  /** Filtering by two predicates one after the other is filtering by their conjunction `pq`. */
  lemma {:induction false} FilterFilter<T(!new)>(s: seq<T>, p: T -> bool, q: T -> bool, pq: T -> bool)
    requires forall x :: pq(x) == (p(x) && q(x))
    ensures Filter(Filter(s, p), q) == Filter(s, pq)
  {
    if s != [] {
      FilterFilter(s[1..], p, q, pq);
      assert s == [s[0]] + s[1..];
      FilterConcat(if p(s[0]) then [s[0]] else [], Filter(s[1..], p), q);
    }
  }

  predicate Distinct<T(==)>(s: seq<T>)
  {
    forall i, j :: 0 <= i < j < |s| ==> s[i] != s[j]
  }

  /** A list has no repetitions exactly when no value occurs in it more than once. */
  lemma {:induction false} DistinctCounts<T>(s: seq<T>)
    ensures Distinct(s) <==> forall x :: multiset(s)[x] <= 1
  {
    if s != [] {
      var t := s[1..];
      DistinctCounts(t);
      assert s == [s[0]] + t;
      assert forall x :: multiset(s)[x] == multiset(t)[x] + (if x == s[0] then 1 else 0);
      if Distinct(s) {
        forall i, j | 0 <= i < j < |t| ensures t[i] != t[j] {
          assert t[i] == s[i + 1] && t[j] == s[j + 1];
        }
      }
      if forall x :: multiset(s)[x] <= 1 {
        assert multiset(t)[s[0]] == 0;
        forall i, j | 0 <= i < j < |s| ensures s[i] != s[j] {
          if i == 0 {
            assert s[j] == t[j - 1];
          } else {
            assert s[i] == t[i - 1] && s[j] == t[j - 1];
          }
        }
      }
    }
  }

  /** A list holding one value only has that value as often as it is long. */
  lemma {:induction false} ConstantCount<T>(s: seq<T>, c: T)
    requires forall i :: 0 <= i < |s| ==> s[i] == c
    ensures multiset(s)[c] == |s|
  {
    if s != [] {
      ConstantCount(s[1..], c);
      assert s == [s[0]] + s[1..];
    }
  }

  /** A list without repetitions that holds one value only has at most one entry. */
  lemma DistinctConstant<T>(s: seq<T>, c: T)
    requires Distinct(s) && forall i :: 0 <= i < |s| ==> s[i] == c
    ensures |s| <= 1
  {
    DistinctCounts(s);
    ConstantCount(s, c);
  }

  /** Appending a value not yet present keeps a list free of repetitions. */
  lemma DistinctSnoc<T>(s: seq<T>, x: T)
    requires Distinct(s) && x !in s
    ensures Distinct(s + [x])
  {
    var t := s + [x];
    forall i, j | 0 <= i < j < |t| ensures t[i] != t[j] {
      assert t[i] == s[i];
    }
  }

  /** Reordering a list without repetitions gives a list without repetitions. */
  lemma PermutationKeepsDistinct<T>(a: seq<T>, b: seq<T>)
    requires multiset(a) == multiset(b)
    ensures Distinct(a) ==> Distinct(b)
  {
    DistinctCounts(a);
    DistinctCounts(b);
  }

  /** Filtering a list without repetitions gives a list without repetitions. */
  lemma {:induction false} FilterDistinct<T(!new)>(s: seq<T>, p: T -> bool)
    ensures Distinct(s) ==> Distinct(Filter(s, p))
  {
    if s != [] {
      FilterDistinct(s[1..], p);
      if Distinct(s) {
        assert s[0] !in s[1..];
      }
    }
  }

  /** Position of the first occurrence of `x`. */
  function IndexOf<T(==)>(s: seq<T>, x: T): (i: nat)
    requires x in s
    ensures i < |s| && s[i] == x && x !in s[..i]
  {
    if s[0] == x then 0
    else
      var j := IndexOf(s[1..], x);
      assert s[..j + 1] == [s[0]] + s[1..][..j];
      j + 1
  }

  /** Values of the tail other than the head sit one place further on in the whole list. */
  lemma IndexOfTail<T>(s: seq<T>, r: seq<T>)
    requires s != [] && forall x :: x in r ==> x in s[1..] && x != s[0]
    ensures forall x :: x in r ==> x in s && IndexOf(s, x) == IndexOf(s[1..], x) + 1
  {
    forall x | x in r ensures x in s && IndexOf(s, x) == IndexOf(s[1..], x) + 1 {
      assert s == [s[0]] + s[1..];
    }
  }

  /** Appending a value moves no earlier first occurrence. */
  lemma IndexOfSnoc<T>(s: seq<T>, y: T, x: T)
    requires x in s
    ensures x in s + [y] && IndexOf(s + [y], x) == IndexOf(s, x)
  {
    var t := s + [y];
    var i, j := IndexOf(s, x), IndexOf(t, x);
    assert t[i] == x && t[..i] == s[..i];
  }

  /** A value appended to a list without it first occurs at the end. */
  lemma IndexOfAppended<T>(s: seq<T>, x: T)
    requires x !in s
    ensures x in s + [x] && IndexOf(s + [x], x) == |s|
  {
    assert (s + [x])[|s|] == x;
  }

  /** The values of `r` occur in `s` and are listed in the order of their first occurrence there. */
  predicate FirstAppearanceOrder<T(==)>(r: seq<T>, s: seq<T>)
  {
    && (forall x :: x in r ==> x in s)
    && (forall i, j :: 0 <= i < j < |r| ==> IndexOf(s, r[i]) < IndexOf(s, r[j]))
  }

  /** Appending to `s` keeps a list in the order of first appearance in `s`. */
  lemma FirstAppearanceSnoc<T>(r: seq<T>, s: seq<T>, y: T)
    requires FirstAppearanceOrder(r, s)
    ensures FirstAppearanceOrder(r, s + [y])
  {
    var t := s + [y];
    forall x | x in r ensures x in t && IndexOf(t, x) == IndexOf(s, x) {
      IndexOfSnoc(s, y, x);
    }
    forall i, j | 0 <= i < j < |r| ensures IndexOf(t, r[i]) < IndexOf(t, r[j]) {
      assert r[i] in r && r[j] in r;
    }
  }

  /** A value new to `s`, appended to both lists, comes last in the order of first appearance. */
  lemma FirstAppearanceAppend<T>(r: seq<T>, s: seq<T>, y: T)
    requires FirstAppearanceOrder(r, s) && y !in s
    ensures FirstAppearanceOrder(r + [y], s + [y])
  {
    var t, r' := s + [y], r + [y];
    FirstAppearanceSnoc(r, s, y);
    IndexOfAppended(s, y);
    forall i, j | 0 <= i < j < |r'| ensures IndexOf(t, r'[i]) < IndexOf(t, r'[j]) {
      assert r'[i] == r[i] && r[i] in r;
      if j < |r| {
        assert r'[j] == r[j] && r[j] in r;
      } else {
        assert IndexOf(t, r[i]) < |s|;
      }
    }
  }

  /** `Array.from(new Set(s))` after the values in `seen` were already taken. */
  function DedupFrom<T(==,!new)>(s: seq<T>, seen: set<T>): (r: seq<T>)
    ensures forall x :: x in r <==> x in s && x !in seen
    ensures Distinct(r)
    ensures forall i, j :: 0 <= i < j < |r| ==> IndexOf(s, r[i]) < IndexOf(s, r[j])
  {
    if s == [] then []
    else if s[0] in seen then
      var r := DedupFrom(s[1..], seen);
      IndexOfTail(s, r);
      r
    else
      var rest := DedupFrom(s[1..], seen + {s[0]});
      DedupCons(s, rest);
      [s[0]] + rest
  }

  /** Putting the head in front of a repeat-free list of later values, in their order, keeps it
      repeat-free and ordered by first occurrence in the whole list. */
  lemma DedupCons<T>(s: seq<T>, rest: seq<T>)
    requires s != [] && s[0] !in rest
    requires forall x :: x in rest ==> x in s[1..]
    requires Distinct(rest)
    requires forall i, j :: 0 <= i < j < |rest| ==> IndexOf(s[1..], rest[i]) < IndexOf(s[1..], rest[j])
    ensures Distinct([s[0]] + rest)
    ensures forall i :: 0 <= i < |rest| + 1 ==> ([s[0]] + rest)[i] in s
    ensures forall i, j :: 0 <= i < j < |rest| + 1 ==>
      IndexOf(s, ([s[0]] + rest)[i]) < IndexOf(s, ([s[0]] + rest)[j])
  {
    IndexOfTail(s, rest);
    var r := [s[0]] + rest;
    assert forall i :: 1 <= i < |r| ==> r[i] == rest[i - 1];
    forall i, j | 0 <= i < j < |r| ensures r[i] != r[j] && IndexOf(s, r[i]) < IndexOf(s, r[j]) {
      assert r[j] == rest[j - 1];
      if i > 0 {
        assert r[i] == rest[i - 1];
      }
    }
  }

  /** `Array.from(new Set(s))`: every value once, in the order of first appearance. */
  function Dedup<T(==,!new)>(s: seq<T>): (r: seq<T>)
    ensures forall x :: x in r <==> x in s
    ensures Distinct(r)
    ensures FirstAppearanceOrder(r, s)
  {
    DedupFrom(s, {})
  }

  /** `s.map(f)`. */
  function Map<T, U>(s: seq<T>, f: T -> U): (r: seq<U>)
    ensures |r| == |s|
    ensures forall i :: 0 <= i < |s| ==> r[i] == f(s[i])
  {
    seq(|s|, i requires 0 <= i < |s| => f(s[i]))
  }
}
