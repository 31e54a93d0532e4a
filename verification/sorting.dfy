/** A stable sort by a real-valued key, the behaviour both sorts of the system
    have: the database's `sort({ nextPaymentDate: 1 })` (where any order of ties
    is allowed, so a stable one is among them) and the chart's
    `Array.prototype.sort`, which ECMAScript requires to be stable. */
module Sorting {

  /** Keys are non-decreasing along `s`. */
  ghost predicate SortedBy<T>(s: seq<T>, key: T -> real) {
    forall i, j :: 0 <= i < j < |s| ==> key(s[i]) <= key(s[j])
  }

  /** The elements of `s` whose key is `k`, in their order in `s`. */
  function KeyClass<T>(s: seq<T>, key: T -> real, k: real): (r: seq<T>)
    ensures |r| <= |s|
  {
    if |s| == 0 then []
    else (if key(s[0]) == k then [s[0]] else []) + KeyClass(s[1..], key, k)
  }

  /** Putting an element no larger than all of a sorted sequence in front of
      it keeps it sorted. */
  lemma ConsSorted<T>(a: T, s: seq<T>, key: T -> real)
    requires SortedBy(s, key)
    requires forall i :: 0 <= i < |s| ==> key(a) <= key(s[i])
    ensures SortedBy([a] + s, key)
  {
    var r := [a] + s;
    forall i, j | 0 <= i < j < |r| ensures key(r[i]) <= key(r[j]) {
      if i > 0 {
        assert r[i] == s[i - 1] && r[j] == s[j - 1];
      } else {
        assert r[j] == s[j - 1];
      }
    }
  }

  /** Inserts `x` before the first element whose key is not smaller. */
  function Insert<T>(x: T, s: seq<T>, key: T -> real): (r: seq<T>)
    ensures multiset(r) == multiset(s) + multiset{x}
    ensures |r| == |s| + 1
  {
    if |s| == 0 then [x]
    else if key(s[0]) < key(x) then
      assert s == [s[0]] + s[1..];
      [s[0]] + Insert(x, s[1..], key)
    else [x] + s
  }

  /** Inserting into a sorted sequence keeps it sorted. */
  lemma {:induction false} InsertSorted<T>(x: T, s: seq<T>, key: T -> real)
    requires SortedBy(s, key)
    ensures SortedBy(Insert(x, s, key), key)
  {
    if |s| == 0 {
    } else if key(s[0]) < key(x) {
      var rest := Insert(x, s[1..], key);
      assert SortedBy(s[1..], key);
      InsertSorted(x, s[1..], key);
      forall i | 0 <= i < |rest| ensures key(s[0]) <= key(rest[i]) {
        assert rest[i] in multiset(rest);
        if rest[i] != x {
          assert rest[i] in multiset(s[1..]);
          var j :| 0 <= j < |s[1..]| && s[1..][j] == rest[i];
          assert s[j + 1] == rest[i];
        }
      }
      ConsSorted(s[0], rest, key);
    } else {
      ConsSorted(x, s, key);
    }
  }

  /** The key class of a sequence with a known first element. */
  lemma KeyClassCons<T>(a: T, s: seq<T>, key: T -> real, k: real)
    ensures KeyClass([a] + s, key, k) == (if key(a) == k then [a] else []) + KeyClass(s, key, k)
  {
    assert ([a] + s)[1..] == s;
  }

  /** Inserting `x` adds it at the front of its own key class and leaves
      every other key class alone. */
  lemma {:induction false} InsertKeyClass<T>(x: T, s: seq<T>, key: T -> real, k: real)
    ensures KeyClass(Insert(x, s, key), key, k) == (if key(x) == k then [x] else []) + KeyClass(s, key, k)
  {
    if |s| == 0 {
      KeyClassCons(x, s, key, k);
    } else if key(s[0]) < key(x) {
      var rest := Insert(x, s[1..], key);
      assert Insert(x, s, key) == [s[0]] + rest;
      InsertKeyClass(x, s[1..], key, k);
      KeyClassCons(s[0], rest, key, k);
      assert [s[0]] + s[1..] == s;
      KeyClassCons(s[0], s[1..], key, k);
      if key(x) == k {
        assert key(s[0]) != k;
        assert KeyClass(Insert(x, s, key), key, k) == KeyClass(rest, key, k);
        assert KeyClass(s, key, k) == KeyClass(s[1..], key, k);
      } else {
        assert KeyClass(rest, key, k) == KeyClass(s[1..], key, k);
      }
    } else {
      assert Insert(x, s, key) == [x] + s;
      KeyClassCons(x, s, key, k);
    }
  }

  /** Insertion sort: sorted, a permutation of the input, and stable. */
  function SortBy<T>(s: seq<T>, key: T -> real): (r: seq<T>)
    ensures SortedBy(r, key)
    ensures multiset(r) == multiset(s)
    ensures |r| == |s|
  {
    if |s| == 0 then []
    else
      assert s == [s[0]] + s[1..];
      var rest := SortBy(s[1..], key);
      InsertSorted(s[0], rest, key);
      Insert(s[0], rest, key)
  }

  /** Stability: within every key class the input order is kept. */
  lemma {:induction false} SortByStable<T>(s: seq<T>, key: T -> real, k: real)
    ensures KeyClass(SortBy(s, key), key, k) == KeyClass(s, key, k)
  {
    if |s| > 0 {
      SortByStable(s[1..], key, k);
      InsertKeyClass(s[0], SortBy(s[1..], key), key, k);
    }
  }
}
