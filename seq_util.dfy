/** Order-preserving filters and subsequences, shared by the history store,
    the history table and the queue table. */
module SeqUtil {

  /** `[x for x in s if keep(x)]` */
  function Filter<T>(s: seq<T>, keep: T -> bool): (r: seq<T>)
    ensures |r| <= |s|
  {
    if s == [] then []
    else if keep(s[0]) then [s[0]] + Filter(s[1..], keep)
    else Filter(s[1..], keep)
  }

  /** `a` is `b` with some elements left out, the rest in their order. */
  predicate IsSubsequence<T(==)>(a: seq<T>, b: seq<T>) {
    a == [] || (b != [] && (IsSubsequence(a, b[1..]) || (a[0] == b[0] && IsSubsequence(a[1..], b[1..]))))
  }

  /** A filter keeps exactly the elements that pass, ... */
  lemma {:induction false} FilterMembership<T>(s: seq<T>, keep: T -> bool, x: T)
    ensures x in Filter(s, keep) <==> x in s && keep(x)
  {
    if s != [] {
      FilterMembership(s[1..], keep, x);
      assert x in s <==> x == s[0] || x in s[1..];
    }
  }

  /** ... as many times as they occur. */
  lemma {:induction false} FilterMultiplicity<T>(s: seq<T>, keep: T -> bool, x: T)
    ensures multiset(Filter(s, keep))[x] == if keep(x) then multiset(s)[x] else 0
  {
    if s != [] {
      FilterMultiplicity(s[1..], keep, x);
      assert s == [s[0]] + s[1..];
    }
  }

  /** ... in the order they had. */
  lemma {:induction false} FilterIsSubsequence<T>(s: seq<T>, keep: T -> bool)
    ensures IsSubsequence(Filter(s, keep), s)
  {
    if s != [] {
      FilterIsSubsequence(s[1..], keep);
      var r := Filter(s, keep);
      if keep(s[0]) {
        assert r[1..] == Filter(s[1..], keep);
      }
    }
  }

  /** Filtering twice with the same test changes nothing more. */
  lemma {:induction false} FilterIdempotent<T>(s: seq<T>, keep: T -> bool)
    ensures Filter(Filter(s, keep), keep) == Filter(s, keep)
  {
    if s != [] {
      FilterIdempotent(s[1..], keep);
      if keep(s[0]) {
        assert Filter(s, keep)[1..] == Filter(s[1..], keep);
      }
    }
  }

  /** A filter that every element passes is the identity. */
  lemma {:induction false} FilterAll<T>(s: seq<T>, keep: T -> bool)
    requires forall i :: 0 <= i < |s| ==> keep(s[i])
    ensures Filter(s, keep) == s
  {
    if s != [] {
      FilterAll(s[1..], keep);
      assert s == [s[0]] + s[1..];
    }
  }

  /** Filtering a concatenation filters each part. */
  lemma {:induction false} FilterAppend<T>(a: seq<T>, b: seq<T>, keep: T -> bool)
    ensures Filter(a + b, keep) == Filter(a, keep) + Filter(b, keep)
  {
    if a != [] {
      assert (a + b)[1..] == a[1..] + b;
      FilterAppend(a[1..], b, keep);
    } else {
      assert a + b == b;
    }
  }

  /** A filter that no element passes is empty. */
  lemma {:induction false} FilterNone<T>(s: seq<T>, keep: T -> bool)
    requires forall i :: 0 <= i < |s| ==> !keep(s[i])
    ensures Filter(s, keep) == []
  {
    if s != [] {
      FilterNone(s[1..], keep);
    }
  }

  /** Two tests that agree on every element filter alike. */
  lemma {:induction false} FilterSameTest<T>(s: seq<T>, keep1: T -> bool, keep2: T -> bool)
    requires forall i :: 0 <= i < |s| ==> keep1(s[i]) == keep2(s[i])
    ensures Filter(s, keep1) == Filter(s, keep2)
  {
    if s != [] {
      FilterSameTest(s[1..], keep1, keep2);
    }
  }

  /** How many elements pass: `len([x for x in s if keep(x)])`. */
  function Count<T>(s: seq<T>, keep: T -> bool): nat {
    |Filter(s, keep)|
  }

  /** `[f(x) for x in s]` */
  function Map<T, U>(s: seq<T>, f: T -> U): (r: seq<U>)
    ensures |r| == |s|
    ensures forall i :: 0 <= i < |s| ==> r[i] == f(s[i])
  {
    seq(|s|, i requires 0 <= i < |s| => f(s[i]))
  }

  lemma MapSnoc<T, U>(s: seq<T>, n: nat, f: T -> U)
    requires n < |s|
    ensures Map(s[..n + 1], f) == Map(s[..n], f) + [f(s[n])]
  {
  }

  lemma AppendThree<T>(log: seq<T>, a: seq<T>, b: seq<T>, c: seq<T>)
    ensures log + a + b + c == log + (a + b + c)
  {
  }

  lemma CountAppend<T>(a: seq<T>, b: seq<T>, keep: T -> bool)
    ensures Count(a + b, keep) == Count(a, keep) + Count(b, keep)
  {
    FilterAppend(a, b, keep);
  }

  lemma CountCons<T>(x: T, s: seq<T>, keep: T -> bool)
    ensures Count([x] + s, keep) == (if keep(x) then 1 else 0) + Count(s, keep)
  {
    assert ([x] + s)[0] == x && ([x] + s)[1..] == s;
  }

  /** The elements whose key is `v`. */
  function KeyIs<T>(key: T -> real, v: real): T -> bool {
    y => key(y) == v
  }

  /** The key that orders the other way round. */
  function Negated<T>(key: T -> real): T -> real {
    y => -key(y)
  }

  /** Largest key first. */
  predicate SortedDesc<T>(s: seq<T>, key: T -> real) {
    forall i, j :: 0 <= i < j < |s| ==> key(s[j]) <= key(s[i])
  }

  /** `x` placed before the first element whose key is not larger than its own. */
  function InsertDesc<T>(x: T, s: seq<T>, key: T -> real): (r: seq<T>)
    ensures multiset(r) == multiset(s) + multiset{x}
  {
    if s == [] || key(s[0]) <= key(x) then [x] + s
    else
      assert s == [s[0]] + s[1..];
      [s[0]] + InsertDesc(x, s[1..], key)
  }

  /** `sorted(s, key=key, reverse=True)`: a stable sort, largest key first
      and elements with equal keys in the order they had. */
  function SortDesc<T>(s: seq<T>, key: T -> real): (r: seq<T>)
    ensures multiset(r) == multiset(s) && |r| == |s|
  {
    if s == [] then []
    else
      assert s == [s[0]] + s[1..];
      InsertDesc(s[0], SortDesc(s[1..], key), key)
  }

  /** `sorted(s, key=key)`: the stable ascending sort is the stable
      descending sort on the negated key. */
  function SortAsc<T>(s: seq<T>, key: T -> real): (r: seq<T>)
    ensures |r| == |s|
  {
    SortDesc(s, Negated(key))
  }

  lemma {:induction false} InsertDescSorted<T>(x: T, s: seq<T>, key: T -> real)
    requires SortedDesc(s, key)
    ensures SortedDesc(InsertDesc(x, s, key), key)
  {
    if s != [] && key(x) < key(s[0]) {
      var t := InsertDesc(x, s[1..], key);
      InsertDescSorted(x, s[1..], key);
      forall k | 0 <= k < |t|
        ensures key(t[k]) <= key(s[0])
      {
        assert t[k] in multiset(t);
        if t[k] != x {
          assert t[k] in multiset(s[1..]);
          var m :| 0 <= m < |s[1..]| && s[1..][m] == t[k];
          assert s[m + 1] == t[k];
        }
      }
      var r := InsertDesc(x, s, key);
      assert r == [s[0]] + t;
      forall i, j | 0 <= i < j < |r|
        ensures key(r[j]) <= key(r[i])
      {
        if i > 0 {
          assert r[i] == t[i - 1] && r[j] == t[j - 1];
        } else {
          assert r[j] == t[j - 1];
        }
      }
    } else if s != [] {
      var r := InsertDesc(x, s, key);
      assert r == [x] + s;
      forall i, j | 0 <= i < j < |r|
        ensures key(r[j]) <= key(r[i])
      {
        assert r[j] == s[j - 1];
        if i > 0 {
          assert r[i] == s[i - 1];
        }
      }
    }
  }

  /** The sort yields its input, rearranged, largest key first. */
  lemma {:induction false} SortDescSorted<T>(s: seq<T>, key: T -> real)
    ensures SortedDesc(SortDesc(s, key), key)
  {
    if s != [] {
      SortDescSorted(s[1..], key);
      InsertDescSorted(s[0], SortDesc(s[1..], key), key);
    }
  }

  /** Inserting keeps the elements of each key in order, `x` ahead of the
      ones already there. */
  lemma {:induction false} InsertDescFilter<T>(x: T, s: seq<T>, key: T -> real, v: real)
    ensures Filter(InsertDesc(x, s, key), KeyIs(key, v))
         == (if key(x) == v then [x] else []) + Filter(s, KeyIs(key, v))
  {
    var keep := KeyIs(key, v);
    var r := InsertDesc(x, s, key);
    if s == [] || key(s[0]) <= key(x) {
      assert r[0] == x && r[1..] == s;
    } else {
      assert r[0] == s[0] && r[1..] == InsertDesc(x, s[1..], key);
      InsertDescFilter(x, s[1..], key, v);
    }
  }

  /** The sort is stable: the elements of any one key keep their order. */
  lemma {:induction false} SortDescStable<T>(s: seq<T>, key: T -> real, v: real)
    ensures Filter(SortDesc(s, key), KeyIs(key, v)) == Filter(s, KeyIs(key, v))
  {
    if s != [] {
      SortDescStable(s[1..], key, v);
      InsertDescFilter(s[0], SortDesc(s[1..], key), key, v);
    }
  }

  /** The last element a filter keeps, and that no later one passes. */
  lemma {:induction false} FilterLast<T>(s: seq<T>, keep: T -> bool) returns (i: nat)
    requires Filter(s, keep) != []
    ensures i < |s| && keep(s[i]) && Filter(s, keep)[|Filter(s, keep)| - 1] == s[i]
    ensures forall j :: i < j < |s| ==> !keep(s[j])
  {
    var rest := Filter(s[1..], keep);
    if rest != [] {
      var k := FilterLast(s[1..], keep);
      i := k + 1;
    } else {
      i := 0;
      forall j | 0 < j < |s|
        ensures !keep(s[j])
      {
        assert s[j] == s[1..][j - 1];
        FilterMembership(s[1..], keep, s[j]);
      }
    }
  }

  /** A filter ends with the last element when that one passes. */
  lemma FilterEndsWithLast<T>(r: seq<T>, keep: T -> bool)
    requires r != [] && keep(r[|r| - 1])
    ensures Filter(r, keep) != [] && Filter(r, keep)[|Filter(r, keep)| - 1] == r[|r| - 1]
  {
    var n := |r| - 1;
    assert r == r[..n] + [r[n]];
    FilterAppend(r[..n], [r[n]], keep);
    assert Filter([r[n]], keep) == [r[n]];
  }

  /** The last element of the sort has the smallest key of all. */
  lemma SortDescLastIsLeast<T>(s: seq<T>, key: T -> real)
    requires s != []
    ensures |SortDesc(s, key)| == |s|
    ensures forall j :: 0 <= j < |s| ==> key(SortDesc(s, key)[|s| - 1]) <= key(s[j])
  {
    var r := SortDesc(s, key);
    SortDescSorted(s, key);
    forall j | 0 <= j < |s|
      ensures key(r[|s| - 1]) <= key(s[j])
    {
      assert s[j] in multiset(r);
      var m :| 0 <= m < |r| && r[m] == s[j];
      if m < |s| - 1 {
        assert SortedDesc(r, key);
      }
    }
  }

  /** The last element of the sort has the smallest key and is the last
      element of the input with that key. */
  lemma LastOfSortDesc<T>(s: seq<T>, key: T -> real) returns (i: nat)
    requires s != []
    ensures i < |s| && SortDesc(s, key)[|s| - 1] == s[i]
    ensures forall j :: 0 <= j < |s| ==> key(s[i]) <= key(s[j])
    ensures forall j :: i < j < |s| ==> key(s[j]) != key(s[i])
  {
    var r := SortDesc(s, key);
    SortDescLastIsLeast(s, key);
    var last := r[|r| - 1];
    var keep := KeyIs(key, key(last));
    SortDescStable(s, key, key(last));
    FilterEndsWithLast(r, keep);
    i := FilterLast(s, keep);
  }

  /** The last element of an ascending sort has the largest key and is the
      last element of the input with that key. */
  lemma LastOfSortAsc<T>(s: seq<T>, key: T -> real) returns (i: nat)
    requires s != []
    ensures i < |s| && SortAsc(s, key)[|s| - 1] == s[i]
    ensures forall j :: 0 <= j < |s| ==> key(s[j]) <= key(s[i])
    ensures forall j :: i < j < |s| ==> key(s[j]) < key(s[i])
  {
    i := LastOfSortDesc(s, Negated(key));
    forall j | 0 <= j < |s|
      ensures key(s[j]) <= key(s[i])
      ensures i < j ==> key(s[j]) < key(s[i])
    {
      assert Negated(key)(s[i]) <= Negated(key)(s[j]);
    }
  }
}
