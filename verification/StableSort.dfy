/**
 Python's `list.sort(key=...)`, the order used for recovery replay and for epoch queries.
 It is stable, and stability is what the callers rely on.
 */
module StableSort {

  function Filter<T>(s: seq<T>, p: T -> bool): (r: seq<T>)
  {
    if s == [] then [] else (if p(s[0]) then [s[0]] else []) + Filter(s[1..], p)
  }

  ghost predicate Sorted<T>(s: seq<T>, key: T -> int)
  {
    forall i, j :: 0 <= i < j < |s| ==> key(s[i]) <= key(s[j])
  }

  function Insert<T>(x: T, s: seq<T>, key: T -> int): (r: seq<T>)
  {
    if s == [] || key(x) <= key(s[0]) then [x] + s else [s[0]] + Insert(x, s[1..], key)
  }

  /** Every element goes in front of the equal keys that follow it, so equal keys keep their order. */
  function Sort<T>(s: seq<T>, key: T -> int): (r: seq<T>)
  {
    if s == [] then [] else Insert(s[0], Sort(s[1..], key), key)
  }

  lemma {:induction false} FilterAppend<T>(a: seq<T>, b: seq<T>, p: T -> bool)
    ensures Filter(a + b, p) == Filter(a, p) + Filter(b, p)
  {
    if a == [] {
      assert a + b == b;
    } else {
      FilterAppend(a[1..], b, p);
      assert (a + b)[0] == a[0] && (a + b)[1..] == a[1..] + b;
    }
  }

  lemma FilterSnoc<T>(a: seq<T>, x: T, p: T -> bool)
    ensures Filter(a + [x], p) == Filter(a, p) + if p(x) then [x] else []
  {
    FilterAppend(a, [x], p);
    assert Filter([x], p) == if p(x) then [x] else [];
  }

  lemma {:induction false} FilterMember<T>(s: seq<T>, p: T -> bool, x: T)
    ensures x in Filter(s, p) <==> x in s && p(x)
  {
    if s != [] {
      FilterMember(s[1..], p, x);
      assert x in s <==> x == s[0] || x in s[1..];
    }
  }

  lemma {:induction false} FilterAll<T>(s: seq<T>, p: T -> bool)
    requires forall i :: 0 <= i < |s| ==> p(s[i])
    ensures Filter(s, p) == s
  {
    if s != [] {
      FilterAll(s[1..], p);
    }
  }

  lemma {:induction false} FilterNone<T>(s: seq<T>, p: T -> bool)
    requires forall i :: 0 <= i < |s| ==> !p(s[i])
    ensures Filter(s, p) == []
  {
    if s != [] {
      FilterNone(s[1..], p);
    }
  }

  lemma {:induction false} InsertPermutes<T>(x: T, s: seq<T>, key: T -> int)
    ensures multiset(Insert(x, s, key)) == multiset{x} + multiset(s)
  {
    if s == [] || key(x) <= key(s[0]) {
    } else {
      InsertPermutes(x, s[1..], key);
      assert s == [s[0]] + s[1..];
    }
  }

  lemma {:induction false} SortPermutes<T>(s: seq<T>, key: T -> int)
    ensures multiset(Sort(s, key)) == multiset(s)
  {
    if s != [] {
      SortPermutes(s[1..], key);
      InsertPermutes(s[0], Sort(s[1..], key), key);
      assert s == [s[0]] + s[1..];
    }
  }

  lemma {:induction false} InsertSorted<T>(x: T, s: seq<T>, key: T -> int)
    requires Sorted(s, key)
    ensures Sorted(Insert(x, s, key), key)
  {
    if s == [] || key(x) <= key(s[0]) {
    } else {
      InsertSorted(x, s[1..], key);
      InsertPermutes(x, s[1..], key);
      var r := Insert(x, s[1..], key);
      forall j | 0 <= j < |r| ensures key(s[0]) <= key(r[j]) {
        assert r[j] in multiset(r);
        assert r[j] == x || r[j] in s[1..];
      }
    }
  }

  lemma {:induction false} SortSorts<T>(s: seq<T>, key: T -> int)
    ensures Sorted(Sort(s, key), key)
  {
    if s != [] {
      SortSorts(s[1..], key);
      InsertSorted(s[0], Sort(s[1..], key), key);
    }
  }

  lemma {:induction false} InsertFilter<T>(x: T, s: seq<T>, key: T -> int, p: T -> bool)
    requires Sorted(s, key)
    ensures Filter(Insert(x, s, key), p) == if p(x) then Insert(x, Filter(s, p), key) else Filter(s, p)
  {
    if s == [] {
    } else if key(x) <= key(s[0]) {
      assert ([x] + s)[1..] == s;
      forall y | y in Filter(s, p) ensures key(x) <= key(y) {
        FilterMember(s, p, y);
      }
    } else {
      InsertFilter(x, s[1..], key, p);
      var t := Insert(x, s[1..], key);
      assert ([s[0]] + t)[1..] == t;
      if p(s[0]) {
        assert Filter(s, p)[1..] == Filter(s[1..], p);
      } else {
        assert Filter(s, p) == Filter(s[1..], p);
      }
    }
  }

  /** Filtering commutes with the sort, for every predicate. With a key-equality predicate this is stability. */
  lemma {:induction false} SortFilter<T>(s: seq<T>, key: T -> int, p: T -> bool)
    ensures Filter(Sort(s, key), p) == Sort(Filter(s, p), key)
  {
    if s != [] {
      SortFilter(s[1..], key, p);
      SortSorts(s[1..], key);
      InsertFilter(s[0], Sort(s[1..], key), key, p);
      var f := Filter(s[1..], p);
      if p(s[0]) {
        assert ([s[0]] + f)[1..] == f;
      } else {
        assert Filter(s, p) == f;
      }
    }
  }

  lemma {:induction false} SortOfSorted<T>(s: seq<T>, key: T -> int)
    requires Sorted(s, key)
    ensures Sort(s, key) == s
  {
    if s != [] {
      SortOfSorted(s[1..], key);
    }
  }

  /** Every key on the left is below every key on the right. */
  ghost predicate Below<T>(a: seq<T>, b: seq<T>, key: T -> int) {
    forall i, j :: 0 <= i < |a| && 0 <= j < |b| ==> key(a[i]) < key(b[j])
  }

  lemma {:induction false} InsertLeft<T>(x: T, a: seq<T>, b: seq<T>, key: T -> int)
    requires Below([x], b, key)
    ensures Insert(x, a + b, key) == Insert(x, a, key) + b
  {
    if a == [] {
      assert a + b == b;
      if b != [] {
        assert key([x][0]) < key(b[0]);
      }
    } else {
      assert (a + b)[0] == a[0] && (a + b)[1..] == a[1..] + b;
      InsertLeft(x, a[1..], b, key);
    }
  }

  lemma {:induction false} InsertRight<T>(x: T, a: seq<T>, b: seq<T>, key: T -> int)
    requires Below(a, [x], key)
    ensures Insert(x, a + b, key) == a + Insert(x, b, key)
  {
    if a == [] {
      assert a + b == b;
    } else {
      assert key(a[0]) < key([x][0]);
      assert (a + b)[0] == a[0] && (a + b)[1..] == a[1..] + b;
      InsertRight(x, a[1..], b, key);
    }
  }

  /** Sorting what lies in two ranges, one below the other, is sorting the two apart. */
  lemma {:induction false} SortSplits<T>(s: seq<T>, key: T -> int, low: T -> bool, high: T -> bool, both: T -> bool)
    requires forall x, y :: x in s && y in s && low(x) && high(y) ==> key(x) < key(y)
    requires forall x :: x in s ==> (both(x) <==> low(x) || high(x))
    ensures Sort(Filter(s, both), key) == Sort(Filter(s, low), key) + Sort(Filter(s, high), key)
  {
    if s != [] {
      var x, rest := s[0], s[1..];
      assert forall y :: y in rest ==> y in s;
      SortSplits(rest, key, low, high, both);
      var a, b := Sort(Filter(rest, low), key), Sort(Filter(rest, high), key);
      SortedMembers(rest, key, low);
      SortedMembers(rest, key, high);
      SortFilterHead(s, key, both);
      SortFilterHead(s, key, low);
      SortFilterHead(s, key, high);
      assert !(low(x) && high(x));
      hide Filter;
      hide Sort;
      hide Insert;
      if low(x) {
        assert Below([x], b, key);
        InsertLeft(x, a, b, key);
      } else if high(x) {
        assert Below(a, [x], key);
        InsertRight(x, a, b, key);
      }
    }
  }

  lemma SortFilterHead<T>(s: seq<T>, key: T -> int, p: T -> bool)
    requires s != []
    ensures Sort(Filter(s, p), key)
         == if p(s[0]) then Insert(s[0], Sort(Filter(s[1..], p), key), key) else Sort(Filter(s[1..], p), key)
  {
    if p(s[0]) {
      assert Filter(s, p)[1..] == Filter(s[1..], p);
    } else {
      assert Filter(s, p) == Filter(s[1..], p);
    }
  }

  lemma SortedMembers<T>(s: seq<T>, key: T -> int, p: T -> bool)
    ensures forall i :: 0 <= i < |Sort(Filter(s, p), key)| ==>
              Sort(Filter(s, p), key)[i] in s && p(Sort(Filter(s, p), key)[i])
  {
    var r := Sort(Filter(s, p), key);
    SortPermutes(Filter(s, p), key);
    forall i | 0 <= i < |r| ensures r[i] in s && p(r[i]) {
      assert r[i] in multiset(r);
      assert r[i] in Filter(s, p);
      FilterMember(s, p, r[i]);
    }
  }
}
