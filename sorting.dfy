// The effect of `Array.prototype.sort` with the comparators the source uses:
// `(a, b) => a - b`, `(a, b) => b - a` on numbers, and
// `(a, b) => a.startTime - b.startTime` on notes. JavaScript's sort is
// stable, so the model is an insertion sort that places each element before
// the first element with a larger key.
module Sorting {

  predicate Ascending(s: seq<int>) {
    forall i, j :: 0 <= i < j < |s| ==> s[i] <= s[j]
  }

  predicate Descending(s: seq<int>) {
    forall i, j :: 0 <= i < j < |s| ==> s[i] >= s[j]
  }

  predicate SortedBy<T>(s: seq<T>, key: T -> real) {
    forall i, j :: 0 <= i < j < |s| ==> key(s[i]) <= key(s[j])
  }

  function Reverse<T>(s: seq<T>): (r: seq<T>)
    ensures |r| == |s| && forall i :: 0 <= i < |s| ==> r[i] == s[|s| - 1 - i]
  {
    if |s| == 0 then [] else Reverse(s[1..]) + [s[0]]
  }

  lemma {:induction false} ReverseMultiset<T>(s: seq<T>)
    ensures multiset(Reverse(s)) == multiset(s)
  {
    if |s| > 0 {
      ReverseMultiset(s[1..]);
      assert s == [s[0]] + s[1..];
    }
  }

  /** `[...s].sort((a, b) => a - b)`. */
  function SortAsc(s: seq<int>): (r: seq<int>)
    ensures Ascending(r) && multiset(r) == multiset(s) && |r| == |s|
  {
    SortBy(s, AsReal)
  }

  function AsReal(x: int): real {
    x as real
  }

  /** `[...s].sort((a, b) => b - a)`: for numbers the descending order is the
      ascending order read backwards. */
  function SortDesc(s: seq<int>): (r: seq<int>)
    ensures Descending(r) && multiset(r) == multiset(s) && |r| == |s|
  {
    var a := SortAsc(s);
    ReverseMultiset(a);
    Reverse(a)
  }

  /** Two ascending orderings of the same numbers are the same sequence, so
      any correct numeric sort agrees with `SortAsc`. */
  lemma {:induction false} AscendingUnique(a: seq<int>, b: seq<int>)
    requires Ascending(a) && Ascending(b) && multiset(a) == multiset(b)
    ensures a == b
  {
    if |a| > 0 {
      assert |b| > 0 by {
        assert a[0] in multiset(a);
      }
      assert a[0] == b[0] by {
        assert a[0] in multiset(b);
        assert b[0] in multiset(a);
        var i :| 0 <= i < |b| && b[i] == a[0];
        var j :| 0 <= j < |a| && a[j] == b[0];
      }
      assert a == [a[0]] + a[1..];
      assert b == [b[0]] + b[1..];
      assert multiset(a[1..]) == multiset(a) - multiset{a[0]};
      assert multiset(b[1..]) == multiset(b) - multiset{b[0]};
      AscendingUnique(a[1..], b[1..]);
    }
  }

  /** Sorting is idempotent. */
  lemma SortAscSorted(s: seq<int>)
    requires Ascending(s)
    ensures SortAsc(s) == s
  {
    AscendingUnique(SortAsc(s), s);
  }

  function InsertBy<T>(x: T, s: seq<T>, key: T -> real): (r: seq<T>)
    requires SortedBy(s, key)
    ensures SortedBy(r, key) && multiset(r) == multiset(s) + multiset{x}
    ensures |r| == |s| + 1 && (key(r[0]) == key(x) || (|s| > 0 && r[0] == s[0]))
  {
    if |s| == 0 then [x]
    else if key(x) < key(s[0]) then [x] + s
    else
      var t := InsertBy(x, s[1..], key);
      assert s == [s[0]] + s[1..];
      assert key(s[0]) <= key(t[0]);
      [s[0]] + t
  }

  /** A stable sort by `key`. */
  function SortBy<T>(s: seq<T>, key: T -> real): (r: seq<T>)
    ensures SortedBy(r, key) && multiset(r) == multiset(s) && |r| == |s|
  {
    if |s| == 0 then []
    else
      assert s == s[..|s| - 1] + [s[|s| - 1]];
      InsertBy(s[|s| - 1], SortBy(s[..|s| - 1], key), key)
  }

  /** The elements of `s` whose key is `k`, in their order in `s`. */
  function WithKey<T>(s: seq<T>, key: T -> real, k: real): seq<T> {
    if |s| == 0 then []
    else (if key(s[0]) == k then [s[0]] else []) + WithKey(s[1..], key, k)
  }

  lemma {:induction false} WithKeyAppend<T>(a: seq<T>, b: seq<T>, key: T -> real, k: real)
    ensures WithKey(a + b, key, k) == WithKey(a, key, k) + WithKey(b, key, k)
  {
    if |a| == 0 {
      assert a + b == b;
    } else {
      var head := if key(a[0]) == k then [a[0]] else [];
      assert (a + b)[0] == a[0] && (a + b)[1..] == a[1..] + b;
      assert WithKey(a + b, key, k) == head + WithKey(a[1..] + b, key, k);
      WithKeyAppend(a[1..], b, key, k);
      assert WithKey(a, key, k) == head + WithKey(a[1..], key, k);
    }
  }

  /** A sorted sequence whose first key is above `k` has no element with key `k`. */
  lemma {:induction false} WithKeyAbove<T>(s: seq<T>, key: T -> real, k: real)
    requires SortedBy(s, key) && (|s| > 0 ==> k < key(s[0]))
    ensures WithKey(s, key, k) == []
  {
    if |s| > 1 {
      WithKeyAbove(s[1..], key, k);
    }
  }

  /** An element placed in front of larger keys comes after every element
      with its own key, since there is none. */
  lemma InsertByFrontStable<T>(x: T, s: seq<T>, key: T -> real, k: real)
    requires SortedBy(s, key) && |s| > 0 && key(x) < key(s[0])
    ensures WithKey(InsertBy(x, s, key), key, k) == WithKey(s, key, k) + WithKey([x], key, k)
  {
    assert InsertBy(x, s, key) == [x] + s;
    WithKeyAppend([x], s, key, k);
    if key(x) == k {
      WithKeyAbove(s, key, k);
    }
  }

  /** Inserting `x` puts it after every element with the same key. */
  lemma {:induction false} InsertByStable<T>(x: T, s: seq<T>, key: T -> real, k: real)
    requires SortedBy(s, key)
    ensures WithKey(InsertBy(x, s, key), key, k) == WithKey(s, key, k) + WithKey([x], key, k)
  {
    if |s| == 0 {
    } else if key(x) < key(s[0]) {
      InsertByFrontStable(x, s, key, k);
    } else {
      var t := InsertBy(x, s[1..], key);
      var head := if key(s[0]) == k then [s[0]] else [];
      assert InsertBy(x, s, key) == [s[0]] + t;
      WithKeyAppend([s[0]], t, key, k);
      InsertByStable(x, s[1..], key, k);
      WithKeyAppend([s[0]], s[1..], key, k);
      assert s == [s[0]] + s[1..];
    }
  }

  /** The sort is stable: the elements with any one key keep their order. */
  lemma {:induction false} SortByStable<T>(s: seq<T>, key: T -> real, k: real)
    ensures WithKey(SortBy(s, key), key, k) == WithKey(s, key, k)
  {
    if |s| > 0 {
      var init, last := s[..|s| - 1], s[|s| - 1];
      SortByStable(init, key, k);
      InsertByStable(last, SortBy(init, key), key, k);
      assert s == init + [last];
      WithKeyAppend(init, [last], key, k);
    }
  }
}
