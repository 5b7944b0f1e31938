/** Sequence helpers behind the ORM's `filter(...)` and Python's stable
    `list.sort(key=...)` / the ORM's `order_by(...)`. */
module Collections {

  /** The elements of `s` that `keep` accepts, in their original order. */
  function Filter<T>(s: seq<T>, keep: T -> bool): (r: seq<T>)
    ensures |r| <= |s|
    ensures forall i :: 0 <= i < |r| ==> r[i] in s && keep(r[i])
    ensures forall i :: 0 <= i < |s| && keep(s[i]) ==> s[i] in r
  {
    if s == [] then []
    else if keep(s[0]) then [s[0]] + Filter(s[1..], keep)
    else Filter(s[1..], keep)
  }

  /** Filtering distributes over concatenation: rows appended later come
      after the earlier ones. */
  lemma {:induction false} FilterAppend<T>(s: seq<T>, t: seq<T>, keep: T -> bool)
    ensures Filter(s + t, keep) == Filter(s, keep) + Filter(t, keep)
  {
    if s == [] {
      assert s + t == t;
    } else {
      assert (s + t)[0] == s[0];
      assert (s + t)[1..] == s[1..] + t;
      FilterAppend(s[1..], t, keep);
    }
  }

  /** Filtering keeps every accepted element as often as it occurs and
      drops every other. */
  lemma {:induction false} FilterCounts<T>(s: seq<T>, keep: T -> bool)
    ensures forall x :: multiset(Filter(s, keep))[x] == if keep(x) then multiset(s)[x] else 0
  {
    if s != [] {
      FilterCounts(s[1..], keep);
      assert s == [s[0]] + s[1..];
    }
  }

  /** An insertion sort on a real-valued key; elements with equal keys keep
      their input order, as in Python's stable sort. */
  ghost predicate SortedBy<T>(s: seq<T>, key: T -> real) {
    forall i, j :: 0 <= i < j < |s| ==> key(s[i]) <= key(s[j])
  }

  /** Inserts `x` before the first element whose key is not smaller. */
  function Insert<T>(x: T, s: seq<T>, key: T -> real): seq<T> {
    if s == [] || key(x) <= key(s[0]) then [x] + s
    else [s[0]] + Insert(x, s[1..], key)
  }

  function SortByKey<T>(s: seq<T>, key: T -> real): seq<T> {
    if s == [] then [] else Insert(s[0], SortByKey(s[1..], key), key)
  }

  lemma {:induction false} InsertPermutes<T>(x: T, s: seq<T>, key: T -> real)
    ensures multiset(Insert(x, s, key)) == multiset(s) + multiset{x}
    ensures |Insert(x, s, key)| == |s| + 1
  {
    if s == [] || key(x) <= key(s[0]) {
    } else {
      InsertPermutes(x, s[1..], key);
      assert s == [s[0]] + s[1..];
    }
  }

  lemma {:induction false} InsertElements<T>(x: T, s: seq<T>, key: T -> real)
    ensures forall e :: e in Insert(x, s, key) ==> e == x || e in s
    ensures x in Insert(x, s, key)
    ensures forall e :: e in s ==> e in Insert(x, s, key)
  {
    if s == [] || key(x) <= key(s[0]) {
    } else {
      InsertElements(x, s[1..], key);
      assert s == [s[0]] + s[1..];
    }
  }

  /** A first element no larger than anything after it extends a sorted
      sequence. */
  lemma SortedCons<T>(h: T, rest: seq<T>, key: T -> real)
    requires SortedBy(rest, key)
    requires forall e :: e in rest ==> key(h) <= key(e)
    ensures SortedBy([h] + rest, key)
  {
    var r := [h] + rest;
    forall i, j | 0 <= i < j < |r| ensures key(r[i]) <= key(r[j]) {
      assert r[j] == rest[j - 1];
      if i == 0 {
        assert r[j] in rest;
      } else {
        assert r[i] == rest[i - 1];
      }
    }
  }

  /** The first element of a sorted sequence is no larger than any other,
      and the rest is sorted. */
  lemma SortedHead<T>(s: seq<T>, key: T -> real)
    requires SortedBy(s, key) && s != []
    ensures forall e :: e in s ==> key(s[0]) <= key(e)
    ensures SortedBy(s[1..], key)
  {
    forall e | e in s ensures key(s[0]) <= key(e) {
      var k :| 0 <= k < |s| && s[k] == e;
      if k > 0 {
        assert key(s[0]) <= key(s[k]);
      }
    }
    var tail := s[1..];
    forall i, j | 0 <= i < j < |tail| ensures key(tail[i]) <= key(tail[j]) {
      assert tail[i] == s[i + 1] && tail[j] == s[j + 1];
    }
  }

  lemma {:induction false} InsertSorted<T>(x: T, s: seq<T>, key: T -> real)
    requires SortedBy(s, key)
    ensures SortedBy(Insert(x, s, key), key)
  {
    if s == [] {
      SortedCons(x, s, key);
    } else if key(x) <= key(s[0]) {
      SortedHead(s, key);
      SortedCons(x, s, key);
    } else {
      var tail := s[1..];
      SortedHead(s, key);
      InsertSorted(x, tail, key);
      InsertElements(x, tail, key);
      var rest := Insert(x, tail, key);
      assert forall e :: e in tail ==> e in s;
      SortedCons(s[0], rest, key);
    }
  }

  /** The sort returns the same elements, in non-decreasing key order. */
  lemma {:induction false} SortByKeySortsAndPermutes<T>(s: seq<T>, key: T -> real)
    ensures SortedBy(SortByKey(s, key), key)
    ensures multiset(SortByKey(s, key)) == multiset(s)
    ensures |SortByKey(s, key)| == |s|
  {
    if s != [] {
      SortByKeySortsAndPermutes(s[1..], key);
      InsertSorted(s[0], SortByKey(s[1..], key), key);
      InsertPermutes(s[0], SortByKey(s[1..], key), key);
      assert s == [s[0]] + s[1..];
    }
  }

  /** Stability on already ordered input: a sorted list is left as it is. */
  lemma {:induction false} SortByKeyOfSorted<T>(s: seq<T>, key: T -> real)
    requires SortedBy(s, key)
    ensures SortByKey(s, key) == s
  {
    if s != [] {
      assert SortedBy(s[1..], key) by {
        forall i, j | 0 <= i < j < |s[1..]| ensures key(s[1..][i]) <= key(s[1..][j]) {
          assert s[1..][i] == s[i + 1] && s[1..][j] == s[j + 1];
        }
      }
      SortByKeyOfSorted(s[1..], key);
      if |s| > 1 {
        assert key(s[0]) <= key(s[1]);
      }
    }
  }

  /** The element a sort puts first has the smallest key of all. */
  lemma SortByKeyHeadIsLeast<T>(s: seq<T>, key: T -> real, x: T)
    requires x in s
    ensures SortByKey(s, key) != []
    ensures SortByKey(s, key)[0] in s
    ensures key(SortByKey(s, key)[0]) <= key(x)
  {
    var r := SortByKey(s, key);
    SortByKeySortsAndPermutes(s, key);
    assert x in multiset(r);
    var k :| 0 <= k < |r| && r[k] == x;
    assert r[0] in multiset(s);
    if k > 0 {
      assert key(r[0]) <= key(r[k]);
    }
  }
}
