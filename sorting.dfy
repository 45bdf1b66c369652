/**
 * Sequence helpers shared by the report: list comprehensions with a
 * condition, and sorting by a real-valued key as Python's
 * `sorted(xs, key=...)` and `list.sort(key=...)` do it (ascending by key,
 * an element placed after every earlier element with the same key).
 */
module Sorting {

  /** `[x for x in s if p(x)]` */
  function Filter<T>(s: seq<T>, p: T -> bool): seq<T> {
    if s == [] then []
    else Filter(s[..|s| - 1], p) + (if p(s[|s| - 1]) then [s[|s| - 1]] else [])
  }

  /** The comprehension keeps exactly the elements satisfying `p`. */
  lemma {:induction false} FilterMeaning<T>(s: seq<T>, p: T -> bool)
    ensures |Filter(s, p)| <= |s|
    ensures forall x :: x in Filter(s, p) <==> x in s && p(x)
  {
    if s != [] {
      var pre, last := s[..|s| - 1], s[|s| - 1];
      FilterMeaning(pre, p);
      assert s == pre + [last];
      var tail := if p(last) then [last] else [];
      assert Filter(s, p) == Filter(pre, p) + tail;
    }
  }

  /** The comprehension keeps the order of the list: filtering two pieces and
      joining the results is filtering the joined list. With `FilterOne`, this
      fixes the result as the satisfying elements in their original order. */
  lemma {:induction false} FilterAppend<T>(s: seq<T>, t: seq<T>, p: T -> bool)
    ensures Filter(s + t, p) == Filter(s, p) + Filter(t, p)
    decreases |t|
  {
    if t == [] {
      assert s + t == s;
    } else {
      var pre, last := t[..|t| - 1], t[|t| - 1];
      FilterAppend(s, pre, p);
      assert (s + t)[..|s + t| - 1] == s + pre;
      assert (s + t)[|s + t| - 1] == last;
    }
  }

  /** One element is kept exactly when it satisfies `p`. */
  lemma FilterOne<T>(x: T, p: T -> bool)
    ensures Filter([x], p) == if p(x) then [x] else []
  {
    assert [x][..0] == [];
  }

  /** The last element joins the comprehension exactly when it satisfies `p`. */
  lemma FilterSnoc<T>(s: seq<T>, p: T -> bool)
    requires s != []
    ensures multiset(Filter(s, p)) == multiset(Filter(s[..|s| - 1], p)) + (if p(s[|s| - 1]) then multiset{s[|s| - 1]} else multiset{})
  {
    var pre, last := s[..|s| - 1], s[|s| - 1];
    var tail := if p(last) then [last] else [];
    assert Filter(s, p) == Filter(pre, p) + tail;
    assert multiset(tail) == if p(last) then multiset{last} else multiset{};
  }

  lemma {:induction false} FilterSplitPerm<T>(s: seq<T>, p: T -> bool, q: T -> bool)
    requires forall x :: q(x) == !p(x)
    ensures multiset(Filter(s, p)) + multiset(Filter(s, q)) == multiset(s)
  {
    if s != [] {
      var pre, last := s[..|s| - 1], s[|s| - 1];
      FilterSplitPerm(pre, p, q);
      FilterSnoc(s, p);
      FilterSnoc(s, q);
      SnocMultiset(s);
      var a, b := multiset(Filter(pre, p)), multiset(Filter(pre, q));
      if p(last) {
        assert multiset(Filter(s, q)) == b;
        UnionStep(a, b, multiset(pre), multiset{last});
      } else {
        assert multiset(Filter(s, p)) == a;
        UnionStep(b, a, multiset(pre), multiset{last});
      }
    }
  }

  lemma SnocMultiset<T>(s: seq<T>)
    requires s != []
    ensures multiset(s) == multiset(s[..|s| - 1]) + multiset{s[|s| - 1]}
  {
    assert s == s[..|s| - 1] + [s[|s| - 1]];
  }

  lemma UnionStep<T>(a: multiset<T>, b: multiset<T>, c: multiset<T>, d: multiset<T>)
    requires a + b == c
    ensures (a + d) + b == c + d
    ensures b + (a + d) == c + d
  {
  }

  /** Two complementary comprehensions split the list: every element lands in exactly one. */
  lemma FilterSplit<T>(s: seq<T>, p: T -> bool, q: T -> bool)
    requires forall x :: q(x) == !p(x)
    ensures |Filter(s, p)| + |Filter(s, q)| == |s|
    ensures multiset(Filter(s, p)) + multiset(Filter(s, q)) == multiset(s)
  {
    FilterSplitPerm(s, p, q);
    assert |multiset(Filter(s, p))| == |Filter(s, p)|;
    assert |multiset(Filter(s, q))| == |Filter(s, q)|;
    assert |multiset(s)| == |s|;
  }

  /** A condition no element meets empties the list. */
  lemma {:induction false} FilterNone<T>(s: seq<T>, p: T -> bool)
    requires forall k :: 0 <= k < |s| ==> !p(s[k])
    ensures Filter(s, p) == []
  {
    if s != [] {
      FilterNone(s[..|s| - 1], p);
    }
  }

  /** A condition every element meets keeps the list. */
  lemma {:induction false} FilterAll<T>(s: seq<T>, p: T -> bool)
    requires forall k :: 0 <= k < |s| ==> p(s[k])
    ensures Filter(s, p) == s
  {
    if s != [] {
      FilterAll(s[..|s| - 1], p);
      assert s == s[..|s| - 1] + [s[|s| - 1]];
    }
  }

  predicate SortedBy<T>(s: seq<T>, key: T -> real) {
    forall i, j :: 0 <= i < j < |s| ==> key(s[i]) <= key(s[j])
  }

  /** Insert `x` into a sequence after every leading element whose key is not above its own. */
  function InsertBy<T>(x: T, s: seq<T>, key: T -> real): seq<T> {
    if s == [] then [x]
    else if key(x) < key(s[0]) then [x] + s
    else [s[0]] + InsertBy(x, s[1..], key)
  }

  /** Putting in front of a sorted sequence an element whose key is not above any
      of its keys keeps it sorted. */
  lemma SortedCons<T>(a: T, s: seq<T>, key: T -> real)
    requires SortedBy(s, key)
    requires forall k :: 0 <= k < |s| ==> key(a) <= key(s[k])
    ensures SortedBy([a] + s, key)
  {
    var r := [a] + s;
    forall i, j | 0 <= i < j < |r| ensures key(r[i]) <= key(r[j]) {
      assert r[j] == s[j - 1];
      if i > 0 {
        assert r[i] == s[i - 1];
      }
    }
  }

  /** Inserting adds exactly `x`. */
  lemma {:induction false} InsertByPerm<T>(x: T, s: seq<T>, key: T -> real)
    ensures multiset(InsertBy(x, s, key)) == multiset(s) + multiset{x}
  {
    if s != [] && key(s[0]) <= key(x) {
      InsertByPerm(x, s[1..], key);
      assert s == [s[0]] + s[1..];
    }
  }

  /** Inserting into a sorted sequence keeps it sorted and adds exactly `x`. */
  lemma {:induction false} InsertByMeaning<T>(x: T, s: seq<T>, key: T -> real)
    requires SortedBy(s, key)
    ensures SortedBy(InsertBy(x, s, key), key)
    ensures multiset(InsertBy(x, s, key)) == multiset(s) + multiset{x}
  {
    InsertByPerm(x, s, key);
    if s == [] {
    } else if key(x) < key(s[0]) {
      SortedCons(x, s, key);
    } else {
      var t := s[1..];
      var rest := InsertBy(x, t, key);
      assert SortedBy(t, key) by {
        forall i, j | 0 <= i < j < |t| ensures key(t[i]) <= key(t[j]) {
          assert t[i] == s[i + 1] && t[j] == s[j + 1];
        }
      }
      InsertByMeaning(x, t, key);
      forall k | 0 <= k < |rest| ensures key(s[0]) <= key(rest[k]) {
        assert rest[k] in multiset(rest);
        if rest[k] != x {
          assert rest[k] in multiset(t);
          var m :| 0 <= m < |t| && t[m] == rest[k];
          assert s[m + 1] == rest[k];
        }
      }
      SortedCons(s[0], rest, key);
    }
  }

  /** The elements of `s` in ascending order of `key`. */
  function SortBy<T>(s: seq<T>, key: T -> real): seq<T> {
    if s == [] then []
    else InsertBy(s[|s| - 1], SortBy(s[..|s| - 1], key), key)
  }

  /** `sorted(s, key=...)` is a permutation of `s`. */
  lemma {:induction false} SortByPerm<T>(s: seq<T>, key: T -> real)
    ensures multiset(SortBy(s, key)) == multiset(s)
  {
    if s != [] {
      var init := s[..|s| - 1];
      SortByPerm(init, key);
      InsertByPerm(s[|s| - 1], SortBy(init, key), key);
      assert s == init + [s[|s| - 1]];
    }
  }

  /** `sorted(s, key=...)` is ordered by the key and a permutation of `s`. */
  lemma {:induction false} SortByMeaning<T>(s: seq<T>, key: T -> real)
    ensures SortedBy(SortBy(s, key), key)
    ensures multiset(SortBy(s, key)) == multiset(s)
  {
    if s != [] {
      var init := s[..|s| - 1];
      SortByMeaning(init, key);
      InsertByMeaning(s[|s| - 1], SortBy(init, key), key);
      assert s == init + [s[|s| - 1]];
    }
  }

  /** The elements whose key is `v`. */
  function KeyIs<T>(key: T -> real, v: real): T -> bool {
    x => key(x) == v
  }

  /** Inserting into a sorted sequence puts `x` after every element with the same key. */
  lemma {:induction false} InsertByStable<T>(x: T, s: seq<T>, key: T -> real, v: real)
    requires SortedBy(s, key)
    ensures Filter(InsertBy(x, s, key), KeyIs(key, v)) == Filter(s, KeyIs(key, v)) + Filter([x], KeyIs(key, v))
    decreases |s|
  {
    var p := KeyIs(key, v);
    if s == [] {
      assert InsertBy(x, s, key) == [x];
    } else if key(x) < key(s[0]) {
      assert InsertBy(x, s, key) == [x] + s;
      InsertFrontStable(x, s, key, v);
    } else {
      var t := s[1..];
      var r := InsertBy(x, t, key);
      assert InsertBy(x, s, key) == [s[0]] + r;
      assert Filter(r, p) == Filter(t, p) + Filter([x], p) by {
        SortedTail(s, key);
        InsertByStable(x, t, key, v);
      }
      assert Filter([s[0]] + r, p) == Filter([s[0]], p) + Filter(r, p) by {
        FilterAppend([s[0]], r, p);
      }
      assert Filter(s, p) == Filter([s[0]], p) + Filter(t, p) by {
        FilterAppend([s[0]], t, p);
        assert [s[0]] + t == s;
      }
      var a, b, c := Filter([s[0]], p), Filter(t, p), Filter([x], p);
      assert a + (b + c) == (a + b) + c;
    }
  }

  /** `x` in front of a sorted sequence whose keys are all above its own. */
  lemma InsertFrontStable<T>(x: T, s: seq<T>, key: T -> real, v: real)
    requires s != [] && SortedBy(s, key) && key(x) < key(s[0])
    ensures Filter([x] + s, KeyIs(key, v)) == Filter(s, KeyIs(key, v)) + Filter([x], KeyIs(key, v))
  {
    var p := KeyIs(key, v);
    FilterAppend([x], s, p);
    if key(x) == v {
      forall k | 0 <= k < |s|
        ensures !p(s[k])
      {
        if k > 0 { assert key(s[0]) <= key(s[k]); }
      }
      FilterNone(s, p);
    } else {
      FilterOne(x, p);
    }
  }

  /** Dropping the first element keeps a sequence sorted. */
  lemma SortedTail<T>(s: seq<T>, key: T -> real)
    requires s != [] && SortedBy(s, key)
    ensures SortedBy(s[1..], key)
  {
    var t := s[1..];
    forall i, j | 0 <= i < j < |t| ensures key(t[i]) <= key(t[j]) {
      assert t[i] == s[i + 1] && t[j] == s[j + 1];
    }
  }

  /** `sorted` is stable: the elements sharing a key keep their order in `s`. */
  lemma {:induction false} SortByStable<T>(s: seq<T>, key: T -> real, v: real)
    ensures Filter(SortBy(s, key), KeyIs(key, v)) == Filter(s, KeyIs(key, v))
  {
    if s != [] {
      var init := s[..|s| - 1];
      assert s == init + [s[|s| - 1]];
      SortByStable(init, key, v);
      SortByMeaning(init, key);
      InsertByStable(s[|s| - 1], SortBy(init, key), key, v);
      FilterAppend(init, [s[|s| - 1]], KeyIs(key, v));
    }
  }

  lemma SortByLength<T>(s: seq<T>, key: T -> real)
    ensures |SortBy(s, key)| == |s|
  {
    SortByPerm(s, key);
    assert |multiset(SortBy(s, key))| == |multiset(s)|;
  }
}
