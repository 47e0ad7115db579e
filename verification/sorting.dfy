/** `Array.prototype.sort` with a consistent comparator, as every sortable table of the dashboard
    uses it. Since ECMAScript 2019 that sort is stable, so its result is fixed: the elements ordered by
    the comparator, with equivalent elements kept in their input order. It is modelled by a stable
    insertion sort over a relation `lt`, where `lt(a, b)` means "the comparator returns a negative
    number for (a, b)": `a` must come before `b`. */
module Sorting {
  import Seqs
  import Text

  /** The comparator is consistent: `lt` is irreflexive, transitive, and so is "not before". */
  ghost predicate StrictWeakOrder<T(!new)>(lt: (T, T) -> bool)
  {
    && (forall a :: !lt(a, a))
    && (forall a, b, c :: lt(a, b) && lt(b, c) ==> lt(a, c))
    && (forall a, b, c :: !lt(a, b) && !lt(b, c) ==> !lt(a, c))
  }

  /** No element is strictly before an element to its left. */
  predicate Sorted<T>(s: seq<T>, lt: (T, T) -> bool)
  {
    forall i, j :: 0 <= i < j < |s| ==> !lt(s[j], s[i])
  }

  /** Neither is strictly before the other: the comparator returns 0. */
  predicate Equivalent<T>(lt: (T, T) -> bool, a: T, b: T)
  {
    !lt(a, b) && !lt(b, a)
  }

  /** Puts `x` in front of the first element that is not strictly before it. */
  function Insert<T>(x: T, s: seq<T>, lt: (T, T) -> bool): (r: seq<T>)
    ensures |r| == |s| + 1
    ensures multiset(r) == multiset(s) + multiset{x}
  {
    if s == [] || !lt(s[0], x) then [x] + s
    else
      assert s == [s[0]] + s[1..];
      [s[0]] + Insert(x, s[1..], lt)
  }

  /** The stable sort of `s` by `lt`. */
  function SortBy<T>(s: seq<T>, lt: (T, T) -> bool): (r: seq<T>)
    ensures |r| == |s|
    ensures multiset(r) == multiset(s)
  {
    if s == [] then []
    else
      assert s == [s[0]] + s[1..];
      Insert(s[0], SortBy(s[1..], lt), lt)
  }

  lemma {:induction false} InsertSorted<T(!new)>(x: T, s: seq<T>, lt: (T, T) -> bool)
    requires StrictWeakOrder(lt)
    requires Sorted(s, lt)
    ensures Sorted(Insert(x, s, lt), lt)
  {
    if s != [] && lt(s[0], x) {
      var tail := Insert(x, s[1..], lt);
      InsertSorted(x, s[1..], lt);
      forall k | 0 <= k < |tail| ensures !lt(tail[k], s[0]) {
        assert tail[k] in multiset(tail);
        assert tail[k] == x || tail[k] in multiset(s[1..]);
        if tail[k] != x {
          var m :| 0 <= m < |s[1..]| && s[1..][m] == tail[k];
          assert s[m + 1] == tail[k];
        }
      }
    }
  }

  /** The sorted table is a permutation of its input, ordered by the comparator. */
  lemma {:induction false} SortBySorted<T(!new)>(s: seq<T>, lt: (T, T) -> bool)
    requires StrictWeakOrder(lt)
    ensures Sorted(SortBy(s, lt), lt)
    ensures multiset(SortBy(s, lt)) == multiset(s)
  {
    if s != [] {
      SortBySorted(s[1..], lt);
      InsertSorted(s[0], SortBy(s[1..], lt), lt);
    }
  }

  lemma {:induction false} FilterInsert<T(!new)>(x: T, t: seq<T>, lt: (T, T) -> bool, p: T -> bool)
    requires forall y :: lt(y, x) && p(y) ==> !p(x)
    ensures Seqs.Filter(Insert(x, t, lt), p) == (if p(x) then [x] else []) + Seqs.Filter(t, p)
  {
    var hx := if p(x) then [x] else [];
    Seqs.FilterSingleton(x, p);
    if t == [] || !lt(t[0], x) {
      Seqs.FilterConcat([x], t, p);
    } else {
      var h0 := if p(t[0]) then [t[0]] else [];
      var rest := Insert(x, t[1..], lt);
      var ft := Seqs.Filter(t[1..], p);
      var ins := Insert(x, t, lt);
      FilterInsert(x, t[1..], lt, p);
      assert ins == [t[0]] + rest;
      assert ins[0] == t[0] && ins[1..] == rest;
      assert Seqs.Filter(ins, p) == h0 + (hx + ft);
      assert Seqs.Filter(t, p) == h0 + ft;
      assert !(p(x) && p(t[0]));
      SwapPrefixes(h0, hx, ft);
    }
  }

  lemma SwapPrefixes<T>(a: seq<T>, b: seq<T>, c: seq<T>)
    requires a == [] || b == []
    ensures a + (b + c) == b + (a + c)
  {
  }

  /** Stability: the elements equivalent to any `z` appear in the output in their input order. */
  lemma {:induction false} SortByStable<T(!new)>(s: seq<T>, lt: (T, T) -> bool, z: T)
    requires StrictWeakOrder(lt)
    ensures Seqs.Filter(SortBy(s, lt), y => Equivalent(lt, y, z)) == Seqs.Filter(s, y => Equivalent(lt, y, z))
  {
    var p := y => Equivalent(lt, y, z);
    if s != [] {
      SortByStable(s[1..], lt, z);
      FilterInsert(s[0], SortBy(s[1..], lt), lt, p);
      Seqs.FilterConcat([s[0]], s[1..], p);
      assert s == [s[0]] + s[1..];
    }
  }

  /** Sorting an already sorted table leaves it as it is. */
  lemma {:induction false} SortBySortedIsIdentity<T>(s: seq<T>, lt: (T, T) -> bool)
    requires Sorted(s, lt)
    ensures SortBy(s, lt) == s
  {
    if s != [] {
      assert Sorted(s[1..], lt);
      SortBySortedIsIdentity(s[1..], lt);
      assert s == [s[0]] + s[1..];
    }
  }

  /** The first element of a sorted non-empty table: nothing in the input is strictly before it. */
  lemma SortByHeadIsExtreme<T(!new)>(s: seq<T>, lt: (T, T) -> bool)
    requires StrictWeakOrder(lt)
    requires s != []
    ensures SortBy(s, lt)[0] in s
    ensures forall x :: x in s ==> !lt(x, SortBy(s, lt)[0])
  {
    var r := SortBy(s, lt);
    SortBySorted(s, lt);
    assert r[0] in multiset(r);
    forall x | x in s ensures !lt(x, r[0]) {
      assert x in multiset(s);
      assert x in multiset(r);
      var k :| 0 <= k < |r| && r[k] == x;
      if k > 0 {
        assert !lt(r[k], r[0]);
      }
    }
  }

  // ---------------------------------------------------------------------------------------------
  // The comparators of the screens: by a key, ascending or descending.
  // ---------------------------------------------------------------------------------------------

  /** `(a, b) => a[key] < b[key] ? -1 : a[key] > b[key] ? 1 : 0` */
  function ByKey<T, K>(key: T -> K, less: (K, K) -> bool): (T, T) -> bool
  {
    (a: T, b: T) => less(key(a), key(b))
  }

  /** The descending comparator: the arguments swapped. */
  function Flip<T>(lt: (T, T) -> bool): (T, T) -> bool
  {
    (a: T, b: T) => lt(b, a)
  }

  function RealLess(): (real, real) -> bool
  {
    (x: real, y: real) => x < y
  }

  function StringLess(): (string, string) -> bool
  {
    (x: string, y: string) => Text.StrLess(x, y)
  }

  lemma RealLessIsStrictWeakOrder()
    ensures StrictWeakOrder(RealLess())
  {
  }

  lemma StringLessIsStrictWeakOrder()
    ensures StrictWeakOrder(StringLess())
  {
    var lt := StringLess();
    forall a ensures !lt(a, a) {
      Text.StrLessIrreflexive(a);
    }
    forall a, b, c | lt(a, b) && lt(b, c) ensures lt(a, c) {
      Text.StrLessTransitive(a, b, c);
    }
    forall a, b, c | !lt(a, b) && !lt(b, c) ensures !lt(a, c) {
      // with a != b and b != c, totality puts c before b before a
      Text.StrLessTotal(a, b);
      Text.StrLessTotal(b, c);
      if a != b && b != c && Text.StrLess(a, c) {
        Text.StrLessTransitive(c, b, a);
        Text.StrLessTransitive(a, c, a);
        Text.StrLessIrreflexive(a);
      }
    }
  }

  lemma ByKeyIsStrictWeakOrder<T(!new), K(!new)>(key: T -> K, less: (K, K) -> bool)
    requires StrictWeakOrder(less)
    ensures StrictWeakOrder(ByKey(key, less))
  {
    var lt := ByKey(key, less);
    forall a, b, c | lt(a, b) && lt(b, c) ensures lt(a, c) {
      assert less(key(a), key(b)) && less(key(b), key(c));
    }
    forall a, b, c | !lt(a, b) && !lt(b, c) ensures !lt(a, c) {
      assert !less(key(a), key(b)) && !less(key(b), key(c));
    }
  }

  lemma FlipIsStrictWeakOrder<T(!new)>(lt: (T, T) -> bool)
    requires StrictWeakOrder(lt)
    ensures StrictWeakOrder(Flip(lt))
  {
    var f := Flip(lt);
    forall a, b, c | f(a, b) && f(b, c) ensures f(a, c) {
      assert lt(c, b) && lt(b, a);
    }
    forall a, b, c | !f(a, b) && !f(b, c) ensures !f(a, c) {
      assert !lt(c, b) && !lt(b, a);
    }
  }

  /** The comparator of a table column sorted in the given direction. */
  function Column<T>(key: T -> real, ascending: bool): (T, T) -> bool
  {
    if ascending then ByKey(key, RealLess()) else Flip(ByKey(key, RealLess()))
  }

  function TextColumn<T>(key: T -> string, ascending: bool): (T, T) -> bool
  {
    if ascending then ByKey(key, StringLess()) else Flip(ByKey(key, StringLess()))
  }

  lemma ColumnIsStrictWeakOrder<T(!new)>(key: T -> real, ascending: bool)
    ensures StrictWeakOrder(Column(key, ascending))
  {
    RealLessIsStrictWeakOrder();
    ByKeyIsStrictWeakOrder(key, RealLess());
    if !ascending {
      FlipIsStrictWeakOrder(ByKey(key, RealLess()));
    }
  }

  lemma TextColumnIsStrictWeakOrder<T(!new)>(key: T -> string, ascending: bool)
    ensures StrictWeakOrder(TextColumn(key, ascending))
  {
    StringLessIsStrictWeakOrder();
    ByKeyIsStrictWeakOrder(key, StringLess());
    if !ascending {
      FlipIsStrictWeakOrder(ByKey(key, StringLess()));
    }
  }
}
