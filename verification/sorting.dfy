/**
 * `Array.prototype.sort` with a comparator `(a, b) => key(a) - key(b)`,
 * which JavaScript guarantees to be stable, and `Array.prototype.filter`.
 * The sort is specified by stable insertion: each element, taken in order,
 * is placed after every element already placed whose key is not larger.
 */
module Sorting {

  predicate SortedBy<T>(s: seq<T>, key: T -> int) {
    forall i, j :: 0 <= i < j < |s| ==> key(s[i]) <= key(s[j])
  }

  /** The elements of `s` that satisfy `p`, in their order. */
  function Filter<T>(s: seq<T>, p: T -> bool): (r: seq<T>)
    ensures |r| <= |s|
    ensures forall i :: 0 <= i < |r| ==> p(r[i])
  {
    if |s| == 0 then []
    else
      var init, last := s[..|s| - 1], s[|s| - 1];
      assert s == init + [last];
      if p(last) then Filter(init, p) + [last] else Filter(init, p)
  }

  lemma FilterSingle<T>(x: T, p: T -> bool)
    ensures Filter([x], p) == if p(x) then [x] else []
  {
    assert [x][..0] == [];
  }

  lemma {:induction false} FilterAppend<T>(a: seq<T>, b: seq<T>, p: T -> bool)
    ensures Filter(a + b, p) == Filter(a, p) + Filter(b, p)
  {
    if |b| == 0 {
      assert a + b == a;
    } else {
      assert (a + b)[..|a + b| - 1] == a + b[..|b| - 1];
      FilterAppend(a, b[..|b| - 1], p);
    }
  }

  /** An element of `s` satisfying `p` is kept by the filter. */
  lemma {:induction false} FilterKeeps<T>(s: seq<T>, p: T -> bool, x: T)
    requires x in s && p(x)
    ensures x in Filter(s, p)
  {
    if s[|s| - 1] != x {
      assert x in s[..|s| - 1] by {
        var i :| 0 <= i < |s| && s[i] == x;
        assert s[..|s| - 1][i] == x;
      }
      FilterKeeps(s[..|s| - 1], p, x);
    }
  }

  /** The filter keeps every occurrence of a value it accepts and none of one it rejects. */
  lemma {:induction false} FilterCount<T>(s: seq<T>, p: T -> bool, x: T)
    ensures multiset(Filter(s, p))[x] == if p(x) then multiset(s)[x] else 0
  {
    if |s| > 0 {
      var init, last := s[..|s| - 1], s[|s| - 1];
      assert s == init + [last];
      FilterCount(init, p, x);
    }
  }

  /** A filter that accepts every element changes nothing. */
  lemma {:induction false} FilterUnchanged<T>(s: seq<T>, p: T -> bool)
    requires forall i :: 0 <= i < |s| ==> p(s[i])
    ensures Filter(s, p) == s
  {
    if |s| > 0 {
      var init := s[..|s| - 1];
      assert s == init + [s[|s| - 1]];
      FilterUnchanged(init, p);
    }
  }

  /** A filter that rejects every element leaves nothing. */
  lemma {:induction false} FilterNone<T>(s: seq<T>, p: T -> bool)
    requires forall i :: 0 <= i < |s| ==> !p(s[i])
    ensures Filter(s, p) == []
  {
    if |s| > 0 {
      FilterNone(s[..|s| - 1], p);
    }
  }

  /** `x` placed into the sorted `s` after every element whose key does not exceed its own. */
  function Insert<T>(x: T, s: seq<T>, key: T -> int): (r: seq<T>)
    requires SortedBy(s, key)
    ensures SortedBy(r, key)
    ensures multiset(r) == multiset(s) + multiset{x}
    decreases |s|, 0
  {
    if |s| == 0 || key(s[|s| - 1]) <= key(x) then s + [x]
    else
      var init := s[..|s| - 1];
      assert s == init + [s[|s| - 1]];
      InsertBelow(x, init, key, key(s[|s| - 1]));
      Insert(x, init, key) + [s[|s| - 1]]
  }

  /** Inserting below a bound keeps every element below it. */
  lemma InsertBelow<T>(x: T, s: seq<T>, key: T -> int, b: int)
    requires SortedBy(s, key)
    requires key(x) <= b && forall i :: 0 <= i < |s| ==> key(s[i]) <= b
    ensures forall i :: 0 <= i < |Insert(x, s, key)| ==> key(Insert(x, s, key)[i]) <= b
    decreases |s|, 1
  {
    var r := Insert(x, s, key);
    forall i | 0 <= i < |r| ensures key(r[i]) <= b {
      assert r[i] in multiset(s) + multiset{x};
      if r[i] != x {
        assert r[i] in s;
      }
    }
  }

  /** The stable sort of `s` by `key`. */
  function SortBy<T>(s: seq<T>, key: T -> int): (r: seq<T>)
    ensures SortedBy(r, key)
    ensures multiset(r) == multiset(s)
  {
    if |s| == 0 then []
    else
      assert s == s[..|s| - 1] + [s[|s| - 1]];
      Insert(s[|s| - 1], SortBy(s[..|s| - 1], key), key)
  }

  /** The elements of `s` whose key is `k`, in their order. */
  function WithKey<T>(s: seq<T>, key: T -> int, k: int): seq<T> {
    Filter(s, KeyIs(key, k))
  }

  function KeyIs<T>(key: T -> int, k: int): T -> bool {
    x => key(x) == k
  }

  lemma {:induction false} InsertWithKey<T>(x: T, s: seq<T>, key: T -> int, k: int)
    requires SortedBy(s, key)
    ensures WithKey(Insert(x, s, key), key, k) == WithKey(s, key, k) + (if key(x) == k then [x] else [])
    decreases |s|, 1
  {
    var p := KeyIs(key, k);
    FilterSingle(x, p);
    if |s| == 0 || key(s[|s| - 1]) <= key(x) {
      FilterAppend(s, [x], p);
    } else {
      InsertWithKeyBefore(x, s, key, k);
    }
  }

  lemma {:induction false} InsertWithKeyBefore<T>(x: T, s: seq<T>, key: T -> int, k: int)
    requires SortedBy(s, key)
    requires |s| > 0 && key(s[|s| - 1]) > key(x)
    ensures WithKey(Insert(x, s, key), key, k) == WithKey(s, key, k) + (if key(x) == k then [x] else [])
    decreases |s|, 0
  {
    var init := s[..|s| - 1];
    var last := s[|s| - 1];
    assert s == init + [last];
    var ins := Insert(x, init, key);
    assert Insert(x, s, key) == ins + [last];
    InsertWithKey(x, init, key, k);
    FilterPastLast(ins, init, x, last, KeyIs(key, k));
  }

  lemma FilterPastLast<T>(ins: seq<T>, init: seq<T>, x: T, last: T, p: T -> bool)
    requires Filter(ins, p) == Filter(init, p) + (if p(x) then [x] else [])
    requires p(x) ==> !p(last)
    ensures Filter(ins + [last], p) == Filter(init + [last], p) + (if p(x) then [x] else [])
  {
    var f, tail := Filter(init, p), Filter([last], p);
    FilterAppend(ins, [last], p);
    FilterAppend(init, [last], p);
    if p(x) {
      FilterSingle(last, p);
      assert tail == [];
      assert f + [x] + tail == (f + tail) + [x];
    } else {
      assert f + [] + tail == (f + tail) + [];
    }
  }

  /** Sorting keeps the relative order of elements with equal keys. */
  lemma {:induction false} SortByStable<T>(s: seq<T>, key: T -> int, k: int)
    ensures WithKey(SortBy(s, key), key, k) == WithKey(s, key, k)
  {
    if |s| > 0 {
      var init := s[..|s| - 1];
      var last := s[|s| - 1];
      SortByStable(init, key, k);
      InsertWithKey(last, SortBy(init, key), key, k);
    }
  }

  /** Sorting a sorted sequence changes nothing. */
  lemma {:induction false} SortBySorted<T>(s: seq<T>, key: T -> int)
    requires SortedBy(s, key)
    ensures SortBy(s, key) == s
  {
    if |s| > 0 {
      var init := s[..|s| - 1];
      SortBySorted(init, key);
      assert s == init + [s[|s| - 1]];
    }
  }

  /**
   * `s.slice(0, end)`: a negative end counts back from the length and is
   * clamped at zero, an end past the length is clamped to the length.
   */
  function SliceTo<T>(s: seq<T>, end: int): (r: seq<T>)
    ensures r <= s
    ensures end >= |s| ==> r == s
    ensures 0 <= end <= |s| ==> |r| == end
    ensures end < 0 ==> |r| == if |s| + end < 0 then 0 else |s| + end
  {
    var e := if end < 0 then (if |s| + end < 0 then 0 else |s| + end) else if end > |s| then |s| else end;
    s[..e]
  }
}
