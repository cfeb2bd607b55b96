/** Lists brought to a canonical form: one element per key, the first one kept, in increasing key order. */
module Canonical {
  predicate HasKey<T(==)>(key: T -> int, s: seq<T>, k: int) { exists x :: x in s && key(x) == k }

  /** Every key's first element, in the order they appear. */
  function FirstOfEach<T(==)>(key: T -> int, s: seq<T>): seq<T> {
    if s == [] then []
    else
      var rest := FirstOfEach(key, s[..|s| - 1]);
      if HasKey(key, rest, key(s[|s| - 1])) then rest else rest + [s[|s| - 1]]
  }

  function Insert<T>(key: T -> int, s: seq<T>, x: T): seq<T> {
    if |s| == 0 then [x]
    else if key(s[|s| - 1]) <= key(x) then s + [x]
    else Insert(key, s[..|s| - 1], x) + [s[|s| - 1]]
  }

  /** A stable sort by key. */
  function Sort<T>(key: T -> int, s: seq<T>): seq<T> {
    if |s| == 0 then [] else Insert(key, Sort(key, s[..|s| - 1]), s[|s| - 1])
  }

  function Canon<T(==)>(key: T -> int, s: seq<T>): seq<T> { Sort(key, FirstOfEach(key, s)) }

  predicate Increasing<T>(key: T -> int, s: seq<T>) { forall i, j :: 0 <= i < j < |s| ==> key(s[i]) < key(s[j]) }

  predicate DistinctKeys<T>(key: T -> int, s: seq<T>) { forall i, j :: 0 <= i < j < |s| ==> key(s[i]) != key(s[j]) }

  /** No element before `i` has the key of `s[i]`. */
  predicate IsFirst<T>(key: T -> int, s: seq<T>, i: nat)
    requires i < |s|
  {
    forall j :: 0 <= j < i ==> key(s[j]) != key(s[i])
  }

  lemma HasKeyAppend<T(!new)>(key: T -> int, s: seq<T>, x: T, k: int)
    ensures HasKey(key, s + [x], k) <==> HasKey(key, s, k) || key(x) == k
  {
    assert forall y :: y in s + [x] <==> y in s || y == x;
    if key(x) == k { assert x in s + [x] && key(x) == k; }
    if HasKey(key, s, k) {
      var y :| y in s && key(y) == k;
      assert y in s + [x];
    }
  }

  lemma NewKeyKeepsDistinct<T(!new)>(key: T -> int, s: seq<T>, x: T)
    requires DistinctKeys(key, s) && !HasKey(key, s, key(x))
    ensures DistinctKeys(key, s + [x])
  {
    forall i | 0 <= i < |s| ensures key(s[i]) != key(x) { assert s[i] in s; }
  }

  lemma {:induction false} FirstOfEachKeys<T(!new)>(key: T -> int, s: seq<T>)
    ensures DistinctKeys(key, FirstOfEach(key, s))
    ensures forall k :: HasKey(key, FirstOfEach(key, s), k) <==> HasKey(key, s, k)
  {
    if s != [] {
      var init, last := s[..|s| - 1], s[|s| - 1];
      FirstOfEachKeys(key, init);
      var rest := FirstOfEach(key, init);
      assert s == init + [last];
      forall k ensures HasKey(key, FirstOfEach(key, s), k) <==> HasKey(key, s, k) {
        HasKeyAppend(key, init, last, k);
        HasKeyAppend(key, rest, last, k);
      }
      if !HasKey(key, rest, key(last)) { NewKeyKeepsDistinct(key, rest, last); }
    }
  }

  ghost predicate ComesFirst<T>(key: T -> int, s: seq<T>, x: T) {
    exists i :: 0 <= i < |s| && s[i] == x && IsFirst(key, s, i)
  }

  lemma ComesFirstAppend<T(!new)>(key: T -> int, s: seq<T>, last: T, x: T)
    ensures ComesFirst(key, s + [last], x) <==> ComesFirst(key, s, x) || (x == last && !HasKey(key, s, key(last)))
  {
    var all := s + [last];
    if ComesFirst(key, s, x) {
      var i :| 0 <= i < |s| && s[i] == x && IsFirst(key, s, i);
      assert all[i] == x && IsFirst(key, all, i);
    }
    if x == last && !HasKey(key, s, key(last)) {
      forall j | 0 <= j < |s| ensures key(all[j]) != key(all[|s|]) { assert s[j] in s; }
      assert all[|s|] == x && IsFirst(key, all, |s|);
    }
    if ComesFirst(key, all, x) {
      var i :| 0 <= i < |all| && all[i] == x && IsFirst(key, all, i);
      if i < |s| {
        assert s[i] == x && IsFirst(key, s, i) by { assert forall j :: 0 <= j < i ==> s[j] == all[j]; }
      } else {
        forall y | y in s ensures key(y) != key(last) {
          var j :| 0 <= j < |s| && s[j] == y;
          assert key(all[j]) != key(all[i]);
        }
      }
    }
  }

  /** Exactly the elements that come first with their key are kept. */
  lemma {:induction false} FirstOfEachElements<T(!new)>(key: T -> int, s: seq<T>, x: T)
    ensures x in FirstOfEach(key, s) <==> ComesFirst(key, s, x)
  {
    if s != [] {
      var init, last := s[..|s| - 1], s[|s| - 1];
      FirstOfEachElements(key, init, x);
      FirstOfEachKeys(key, init);
      ComesFirstAppend(key, init, last, x);
      assert s == init + [last];
    }
  }

  lemma IncreasingBelowLast<T(!new)>(key: T -> int, s: seq<T>, y: T)
    requires Increasing(key, s) && |s| > 0 && y in s[..|s| - 1]
    ensures key(y) < key(s[|s| - 1])
  {
    var i :| 0 <= i < |s| - 1 && s[i] == y;
  }

  lemma IncreasingAppend<T(!new)>(key: T -> int, s: seq<T>, x: T)
    requires Increasing(key, s) && forall y :: y in s ==> key(y) < key(x)
    ensures Increasing(key, s + [x])
  {
    forall i | 0 <= i < |s| ensures key(s[i]) < key(x) { assert s[i] in s; }
  }

  lemma {:induction false} InsertProperties<T(!new)>(key: T -> int, s: seq<T>, x: T)
    requires Increasing(key, s) && !HasKey(key, s, key(x))
    ensures Increasing(key, Insert(key, s, x))
    ensures forall y :: y in Insert(key, s, x) <==> y in s || y == x
  {
    if |s| > 0 {
      var init, last := s[..|s| - 1], s[|s| - 1];
      assert s == init + [last] && last in s;
      forall y | y in init ensures key(y) < key(last) { IncreasingBelowLast(key, s, y); }
      if key(last) > key(x) {
        HasKeyAppend(key, init, last, key(x));
        InsertProperties(key, init, x);
        forall y | y in Insert(key, init, x) ensures key(y) < key(last) { assert y in init || y == x; }
        IncreasingAppend(key, Insert(key, init, x), last);
      } else {
        IncreasingAppend(key, s, x);
      }
    }
  }

  lemma {:induction false} SortProperties<T(!new)>(key: T -> int, s: seq<T>)
    requires DistinctKeys(key, s)
    ensures Increasing(key, Sort(key, s))
    ensures forall y :: y in Sort(key, s) <==> y in s
  {
    if |s| > 0 {
      var init, last := s[..|s| - 1], s[|s| - 1];
      assert s == init + [last];
      SortProperties(key, init);
      forall y | y in init ensures key(y) != key(last) {
        var j :| 0 <= j < |init| && init[j] == y;
        assert key(s[j]) != key(s[|s| - 1]);
      }
      forall y | y in Sort(key, init) ensures key(y) != key(last) { assert y in init; }
      InsertProperties(key, Sort(key, init), last);
    }
  }

  /** The canonical form is strictly increasing and keeps exactly the first element of every key. */
  lemma CanonIsCanonical<T(!new)>(key: T -> int, s: seq<T>)
    ensures Increasing(key, Canon(key, s))
    ensures forall x :: x in Canon(key, s) <==> ComesFirst(key, s, x)
  {
    FirstOfEachKeys(key, s);
    SortProperties(key, FirstOfEach(key, s));
    forall x ensures x in Canon(key, s) <==> ComesFirst(key, s, x) { FirstOfEachElements(key, s, x); }
  }

  /** Strictly increasing lists with the same elements are the same list. */
  lemma {:induction false} IncreasingIsUnique<T(!new)>(key: T -> int, a: seq<T>, b: seq<T>)
    requires Increasing(key, a) && Increasing(key, b)
    requires forall x :: x in a <==> x in b
    ensures a == b
  {
    assert |a| == 0 || a[0] in b;
    assert |b| == 0 || b[0] in a;
    if |a| > 0 {
      var m, n := |a| - 1, |b| - 1;
      SameLast(key, a, b);
      assert a == a[..m] + [a[m]] && b == b[..n] + [b[n]];
      forall x ensures x in a[..m] <==> x in b[..n] {
        assert x in a <==> x in a[..m] || x == a[m];
        assert x in b <==> x in b[..n] || x == b[n];
        if x in a[..m] { IncreasingBelowLast(key, a, x); }
        if x in b[..n] { IncreasingBelowLast(key, b, x); }
      }
      IncreasingIsUnique(key, a[..m], b[..n]);
    }
  }

  lemma SameLast<T(!new)>(key: T -> int, a: seq<T>, b: seq<T>)
    requires Increasing(key, a) && Increasing(key, b) && |a| > 0 && |b| > 0
    requires forall x :: x in a <==> x in b
    ensures a[|a| - 1] == b[|b| - 1]
  {
    assert a[|a| - 1] in b && b[|b| - 1] in a;
  }

  lemma {:induction false} FirstOfEachOfIncreasing<T(!new)>(key: T -> int, s: seq<T>)
    requires Increasing(key, s)
    ensures FirstOfEach(key, s) == s
  {
    if s != [] {
      var init, last := s[..|s| - 1], s[|s| - 1];
      FirstOfEachOfIncreasing(key, init);
      assert s == init + [last];
      forall y | y in init ensures key(y) < key(last) { IncreasingBelowLast(key, s, y); }
    }
  }

  lemma InsertLargest<T(!new)>(key: T -> int, s: seq<T>, x: T)
    requires forall y :: y in s ==> key(y) < key(x)
    ensures Insert(key, s, x) == s + [x]
  {
    assert |s| == 0 || s[|s| - 1] in s;
  }

  lemma {:induction false} SortOfIncreasing<T(!new)>(key: T -> int, s: seq<T>)
    requires Increasing(key, s)
    ensures Sort(key, s) == s
  {
    if |s| > 0 {
      var init, last := s[..|s| - 1], s[|s| - 1];
      SortOfIncreasing(key, init);
      assert s == init + [last];
      forall y | y in init ensures key(y) < key(last) { IncreasingBelowLast(key, s, y); }
      InsertLargest(key, init, last);
    }
  }

  /** A strictly increasing list is its own canonical form. */
  lemma CanonOfIncreasing<T(!new)>(key: T -> int, s: seq<T>)
    requires Increasing(key, s)
    ensures Canon(key, s) == s
  {
    FirstOfEachOfIncreasing(key, s);
    SortOfIncreasing(key, s);
  }

  lemma CanonIsIdempotent<T(!new)>(key: T -> int, s: seq<T>)
    ensures Increasing(key, Canon(key, s)) && Canon(key, Canon(key, s)) == Canon(key, s)
  {
    FirstOfEachKeys(key, s);
    SortProperties(key, FirstOfEach(key, s));
    CanonOfIncreasing(key, Canon(key, s));
  }

  // ---- sorting in general ---------------------------------------------------------------------------

  /** The elements with key `k`, in order. */
  function OfKey<T>(key: T -> int, s: seq<T>, k: int): seq<T> {
    if |s| == 0 then []
    else OfKey(key, s[..|s| - 1], k) + if key(s[|s| - 1]) == k then [s[|s| - 1]] else []
  }

  predicate Ordered<T>(key: T -> int, s: seq<T>) { forall i, j :: 0 <= i < j < |s| ==> key(s[i]) <= key(s[j]) }

  lemma {:induction false} InsertKeepsElements<T(!new)>(key: T -> int, s: seq<T>, x: T)
    ensures forall y :: y in Insert(key, s, x) <==> y in s || y == x
  {
    if |s| > 0 && key(s[|s| - 1]) > key(x) {
      InsertKeepsElements(key, s[..|s| - 1], x);
      assert s == s[..|s| - 1] + [s[|s| - 1]];
    }
  }

  lemma {:induction false} SortKeepsElements<T(!new)>(key: T -> int, s: seq<T>)
    ensures forall y :: y in Sort(key, s) <==> y in s
  {
    if |s| > 0 {
      SortKeepsElements(key, s[..|s| - 1]);
      InsertKeepsElements(key, Sort(key, s[..|s| - 1]), s[|s| - 1]);
      assert s == s[..|s| - 1] + [s[|s| - 1]];
    }
  }

  lemma OrderedAppend<T(!new)>(key: T -> int, s: seq<T>, x: T)
    requires Ordered(key, s) && forall y :: y in s ==> key(y) <= key(x)
    ensures Ordered(key, s + [x])
  {
    forall i | 0 <= i < |s| ensures key(s[i]) <= key(x) { assert s[i] in s; }
  }

  lemma OrderedBelowLast<T(!new)>(key: T -> int, s: seq<T>, y: T)
    requires Ordered(key, s) && y in s
    ensures |s| > 0 && key(y) <= key(s[|s| - 1])
  {
    var i :| 0 <= i < |s| && s[i] == y;
  }

  lemma {:induction false} InsertKeepsOrdered<T(!new)>(key: T -> int, s: seq<T>, x: T)
    requires Ordered(key, s)
    ensures Ordered(key, Insert(key, s, x))
  {
    if |s| > 0 {
      var init, last := s[..|s| - 1], s[|s| - 1];
      assert s == init + [last];
      forall y | y in s ensures key(y) <= key(last) { OrderedBelowLast(key, s, y); }
      if key(last) > key(x) {
        InsertKeepsOrdered(key, init, x);
        InsertKeepsElements(key, init, x);
        OrderedAppend(key, Insert(key, init, x), last);
      } else {
        OrderedAppend(key, s, x);
      }
    }
  }

  lemma {:induction false} SortIsOrdered<T(!new)>(key: T -> int, s: seq<T>)
    ensures Ordered(key, Sort(key, s))
  {
    if |s| > 0 {
      SortIsOrdered(key, s[..|s| - 1]);
      InsertKeepsOrdered(key, Sort(key, s[..|s| - 1]), s[|s| - 1]);
    }
  }

  lemma OfKeyAppend<T(!new)>(key: T -> int, s: seq<T>, x: T, k: int)
    ensures OfKey(key, s + [x], k) == OfKey(key, s, k) + if key(x) == k then [x] else []
  {
    assert (s + [x])[..|s|] == s;
  }

  lemma {:induction false} InsertIsStable<T(!new)>(key: T -> int, s: seq<T>, x: T, k: int)
    ensures OfKey(key, Insert(key, s, x), k) == OfKey(key, s, k) + if key(x) == k then [x] else []
  {
    if |s| == 0 {
      OfKeyAppend(key, [], x, k);
      assert [] + [x] == [x];
    } else {
      var init, last := s[..|s| - 1], s[|s| - 1];
      if key(last) > key(x) {
        InsertIsStable(key, init, x, k);
        OfKeyAppend(key, Insert(key, init, x), last, k);
      } else {
        OfKeyAppend(key, s, x, k);
      }
    }
  }

  /** A sort keeps elements with equal keys in the order they came in. */
  lemma {:induction false} SortIsStable<T(!new)>(key: T -> int, s: seq<T>, k: int)
    ensures OfKey(key, Sort(key, s), k) == OfKey(key, s, k)
  {
    if |s| > 0 {
      SortIsStable(key, s[..|s| - 1], k);
      InsertIsStable(key, Sort(key, s[..|s| - 1]), s[|s| - 1], k);
    }
  }

  // ---- one pass that keeps first elements -----------------------------------------------------------

  /** The state of a pass that keeps first elements: what it kept, and the keys it has seen. */
  ghost predicate Tracks<T(!new)>(key: T -> int, s: seq<T>, kept: seq<T>, seen: set<int>) {
    kept == FirstOfEach(key, s) && forall k :: k in seen <==> HasKey(key, s, k)
  }

  lemma TracksStep<T(!new)>(key: T -> int, s: seq<T>, n: nat, kept: seq<T>, seen: set<int>)
    requires n < |s| && Tracks(key, s[..n], kept, seen)
    ensures Tracks(key, s[..n + 1], if key(s[n]) in seen then kept else kept + [s[n]], seen + {key(s[n])})
  {
    FirstOfEachKeys(key, s[..n]);
    assert s[..n + 1] == s[..n] + [s[n]] && s[..n + 1][..n] == s[..n];
    forall k ensures k in seen + {key(s[n])} <==> HasKey(key, s[..n + 1], k) { HasKeyAppend(key, s[..n], s[n], k); }
  }
}
