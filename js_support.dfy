// Shared vocabulary for the JavaScript behaviour the modelled files rely on:
// optional values for `undefined`/`null`, results for thrown errors, the
// truncating `%` operator, `Math.round`, decimal formatting of integers
// (`${n}`), `parseInt` on a run of digits, and the few string operations the
// source performs with regular expressions; and the order in which
// `Object.keys` and its relatives list integer keys.
module JsSupport {
  import opened Sorting

  datatype Option<T> = None | Some(value: T)
  {
    function GetOr(default: T): T {
      if Some? then value else default
    }
  }

  /** A call that either returns a value or throws `error`. */
  datatype Result<T, E> = Ok(value: T) | Err(error: E)

  // ---------------------------------------------------------------------
  // Numbers

  /** JavaScript `a % b` on integers: the remainder takes the sign of `a`. */
  function JsRem(a: int, b: int): (r: int)
    requires b > 0
    ensures a >= 0 ==> r == a % b
    ensures a < 0 ==> -b < r <= 0
  {
    if a >= 0 then a % b else -((-a) % b)
  }

  /** `Math.round(x)`: the nearest integer, halves rounded up. */
  function JsRound(x: real): (r: int)
    ensures r as real - 0.5 <= x < r as real + 0.5
  {
    (x + 0.5).Floor
  }

  /** `Math.round(s / g) * g` lies within half a step of `s` (the two
      halves of the bound, then the real multiplications they need). */
  lemma RoundLower(s: real, g: real, r: real)
    requires g > 0.0 && r - 0.5 <= s / g
    ensures r * g - g / 2.0 <= s
  {
    MulMonotonic(r - 0.5, s / g, g);
    assert (r - 0.5) * g == r * g - g / 2.0;
  }

  lemma RoundUpper(s: real, g: real, r: real)
    requires g > 0.0 && s / g < r + 0.5
    ensures s < r * g + g / 2.0
  {
    MulStrict(s / g, r + 0.5, g);
    assert (r + 0.5) * g == r * g + g / 2.0;
  }

  lemma MulMonotonic(a: real, b: real, g: real)
    requires a <= b && g > 0.0
    ensures a * g <= b * g
  {
  }

  lemma MulStrict(a: real, b: real, g: real)
    requires a < b && g > 0.0
    ensures a * g < b * g
  {
  }

  /** Rounding a whole number of grid steps gives that number back. */
  lemma RoundOnGrid(steps: int, grid: real)
    requires grid > 0.0
    ensures JsRound(steps as real * grid / grid) == steps
  {
    assert steps as real * grid / grid == steps as real;
  }

  /** `Math.max(a, b)` for reals. */
  function MaxReal(a: real, b: real): (m: real)
    ensures m >= a && m >= b && (m == a || m == b)
  {
    if a >= b then a else b
  }

  /** `Math.max(lo, Math.min(hi, x))`. */
  function Clamp(x: int, lo: int, hi: int): (r: int)
    requires lo <= hi
    ensures lo <= r <= hi
    ensures lo <= x <= hi ==> r == x
    ensures x < lo ==> r == lo
    ensures x > hi ==> r == hi
  {
    if x < lo then lo else if x > hi then hi else x
  }

  function Abs(x: real): (r: real)
    ensures r >= 0.0 && (r == x || r == -x)
  {
    if x < 0.0 then -x else x
  }

  // ---------------------------------------------------------------------
  // Digits and decimal strings

  predicate IsDigit(c: char) {
    '0' <= c <= '9'
  }

  predicate AllDigits(s: string) {
    forall i :: 0 <= i < |s| ==> IsDigit(s[i])
  }

  predicate ContainsDigit(s: string) {
    exists i :: 0 <= i < |s| && IsDigit(s[i])
  }

  function DigitValue(c: char): (d: int)
    requires IsDigit(c)
    ensures 0 <= d < 10
  {
    c as int - '0' as int
  }

  function DigitChar(d: int): (c: char)
    requires 0 <= d < 10
    ensures IsDigit(c) && DigitValue(c) == d
  {
    ('0' as int + d) as char
  }

  /** `parseInt` of a non-empty run of decimal digits. */
  function DigitsValue(s: string): (n: nat)
    requires AllDigits(s)
    decreases |s|
  {
    if |s| == 0 then 0 else DigitsValue(s[..|s| - 1]) * 10 + DigitValue(s[|s| - 1])
  }

  /** The decimal spelling of a natural number. */
  function NatToString(n: nat): (s: string)
    ensures |s| > 0 && AllDigits(s)
  {
    if n < 10 then [DigitChar(n)] else NatToString(n / 10) + [DigitChar(n % 10)]
  }

  /** `${n}` for an integer `n`. */
  function IntToString(n: int): (s: string)
    ensures |s| > 0
    ensures n >= 0 <==> AllDigits(s)
    ensures n < 0 ==> s[0] == '-' && AllDigits(s[1..])
  {
    if n < 0 then
      var s := "-" + NatToString(-n);
      assert !IsDigit(s[0]) && s[1..] == NatToString(-n);
      s
    else NatToString(n)
  }

  /** Reading back the digits that `NatToString` writes gives the number. */
  lemma {:induction false} DigitsOfNatToString(n: nat)
    ensures DigitsValue(NatToString(n)) == n
  {
    if n >= 10 {
      var s := NatToString(n);
      DigitsOfNatToString(n / 10);
      assert s[..|s| - 1] == NatToString(n / 10);
    }
  }

  // ---------------------------------------------------------------------
  // Strings

  /** The start of the maximal run of digits that ends the string (`/\d+$/`). */
  function TrailingDigitsStart(s: string): (k: nat)
    ensures k <= |s| && AllDigits(s[k..])
    ensures k > 0 ==> !IsDigit(s[k - 1])
    decreases |s|
  {
    if |s| == 0 || !IsDigit(s[|s| - 1]) then |s|
    else
      var k := TrailingDigitsStart(s[..|s| - 1]);
      assert forall i :: k <= i < |s| - 1 ==> s[..|s| - 1][k..][i - k] == s[i];
      k
  }

  /** `s.replace(/\d+$/, '')`. */
  function StripTrailingDigits(s: string): (r: string)
    ensures r <= s && |r| + |s[TrailingDigitsStart(s)..]| == |s|
    ensures |r| > 0 ==> !IsDigit(r[|r| - 1])
  {
    s[..TrailingDigitsStart(s)]
  }

  /** A letter followed by a number: stripping the trailing digits of the
      spelling of a non-negative integer gives back the prefix. */
  lemma StripAppendedNumber(p: string, n: nat)
    requires |p| > 0 && !IsDigit(p[|p| - 1])
    ensures TrailingDigitsStart(p + NatToString(n)) == |p|
    ensures StripTrailingDigits(p + NatToString(n)) == p
  {
    var s := p + NatToString(n);
    TrailingRunOf(p, NatToString(n));
    assert s[..|p|] == p;
  }

  lemma {:induction false} TrailingRunOf(p: string, d: string)
    requires |p| > 0 && !IsDigit(p[|p| - 1]) && AllDigits(d)
    ensures TrailingDigitsStart(p + d) == |p|
    decreases |d|
  {
    if |d| == 0 {
      assert p + d == p;
    } else {
      assert (p + d)[..|p + d| - 1] == p + d[..|d| - 1];
      TrailingRunOf(p, d[..|d| - 1]);
    }
  }

  /** The index of the first digit, or |s| when there is none. */
  function FirstDigit(s: string): (k: nat)
    ensures k <= |s|
    ensures forall i :: 0 <= i < k ==> !IsDigit(s[i])
    ensures k < |s| ==> IsDigit(s[k])
    ensures k == |s| <==> !ContainsDigit(s)
  {
    if |s| == 0 then 0
    else if IsDigit(s[0]) then 0
    else 1 + FirstDigit(s[1..])
  }

  /** `s.replace(/\d/, '')`: drops the first digit only. */
  function RemoveFirstDigit(s: string): (r: string)
    ensures !ContainsDigit(s) ==> r == s
    ensures ContainsDigit(s) ==> |r| == |s| - 1
  {
    var k := FirstDigit(s);
    if k == |s| then s else s[..k] + s[k + 1..]
  }

  /** Dropping the first digit of a digit-free prefix followed by digits. */
  lemma {:induction false} RemoveFirstDigitAfter(p: string, d: string)
    requires !ContainsDigit(p) && |d| > 0 && IsDigit(d[0])
    ensures FirstDigit(p + d) == |p|
    ensures RemoveFirstDigit(p + d) == p + d[1..]
  {
    if |p| == 0 {
      assert p + d == d;
    } else {
      assert (p + d)[1..] == p[1..] + d;
      assert !ContainsDigit(p[1..]) by {
        assert forall i :: 0 <= i < |p[1..]| ==> p[1..][i] == p[i + 1];
      }
      RemoveFirstDigitAfter(p[1..], d);
      assert !IsDigit((p + d)[0]) by { assert (p + d)[0] == p[0]; }
    }
    var s := p + d;
    assert s[..|p|] == p && s[|p| + 1..] == d[1..];
  }

  function LowerChar(c: char): (d: char)
    ensures 'A' <= c <= 'Z' ==> d as int == c as int + 32
    ensures !('A' <= c <= 'Z') ==> d == c
  {
    if 'A' <= c <= 'Z' then (c as int + 32) as char else c
  }

  function UpperChar(c: char): (d: char)
    ensures 'a' <= c <= 'z' ==> d as int == c as int - 32
    ensures !('a' <= c <= 'z') ==> d == c
  {
    if 'a' <= c <= 'z' then (c as int - 32) as char else c
  }

  /** `toLowerCase()` on ASCII letters. */
  function ToLower(s: string): (r: string)
    ensures |r| == |s| && forall i :: 0 <= i < |s| ==> r[i] == LowerChar(s[i])
  {
    if |s| == 0 then "" else [LowerChar(s[0])] + ToLower(s[1..])
  }

  /** `toUpperCase()` on ASCII letters. */
  function ToUpper(s: string): (r: string)
    ensures |r| == |s| && forall i :: 0 <= i < |s| ==> r[i] == UpperChar(s[i])
  {
    if |s| == 0 then "" else [UpperChar(s[0])] + ToUpper(s[1..])
  }

  /** `s.split(sep)` for a one-character separator. */
  function Split(s: string, sep: char): (parts: seq<string>)
    ensures |parts| > 0
    ensures forall i :: 0 <= i < |parts| ==> sep !in parts[i]
    ensures sep !in s ==> parts == [s]
  {
    if |s| == 0 then [""]
    else
      var rest := Split(s[1..], sep);
      assert sep !in s ==> sep !in s[1..] && rest == [s[1..]] && [s[0]] + s[1..] == s;
      if s[0] == sep then [""] + rest
      else [[s[0]] + rest[0]] + rest[1..]
  }

  /** `parts.join(sep)`. */
  function Join(parts: seq<string>, sep: char): string
    requires |parts| > 0
  {
    if |parts| == 1 then parts[0] else parts[0] + [sep] + Join(parts[1..], sep)
  }

  /** Joining the pieces of a split gives back the string. */
  lemma {:induction false} JoinSplit(s: string, sep: char)
    ensures Join(Split(s, sep), sep) == s
  {
    if |s| > 0 {
      var rest := Split(s[1..], sep);
      JoinSplit(s[1..], sep);
      if s[0] != sep {
        var parts := Split(s, sep);
        if |rest| == 1 {
          assert parts == [[s[0]] + rest[0]];
        } else {
          assert parts[1..] == rest[1..];
          assert Join(rest, sep) == rest[0] + [sep] + Join(rest[1..], sep);
        }
      }
    }
  }

  // ---------------------------------------------------------------------
  // Sequences

  /** `xs.indexOf(x)`: the first position holding `x`, or -1. */
  function IndexOf<T(==)>(xs: seq<T>, x: T): (i: int)
    ensures -1 <= i < |xs|
    ensures i >= 0 ==> xs[i] == x && forall j :: 0 <= j < i ==> xs[j] != x
    ensures i == -1 <==> x !in xs
  {
    if |xs| == 0 then -1
    else if xs[0] == x then 0
    else
      var j := IndexOf(xs[1..], x);
      if j == -1 then -1 else j + 1
  }

  /** `xs.map(f)` where `f` may throw: the results in order, or the error of
      the first element that fails. */
  function AllOk<T(==), E(==)>(rs: seq<Result<T, E>>): (r: Result<seq<T>, E>)
    ensures r.Ok? <==> forall i :: 0 <= i < |rs| ==> rs[i].Ok?
    ensures r.Ok? ==> |r.value| == |rs| && forall i :: 0 <= i < |rs| ==> rs[i] == Ok(r.value[i])
    ensures r.Err? ==> exists i :: 0 <= i < |rs| && rs[i] == Err(r.error) && forall j :: 0 <= j < i ==> rs[j].Ok?
  {
    if |rs| == 0 then Ok([])
    else
      match rs[0]
      case Err(e) => Err(e)
      case Ok(x) =>
        var rest := AllOk(rs[1..]);
        assert forall i :: 1 <= i < |rs| ==> rs[i] == rs[1..][i - 1];
        match rest
        case Err(e) =>
          var i :| 0 <= i < |rs[1..]| && rs[1..][i] == Err(e) && forall j :: 0 <= j < i ==> rs[1..][j].Ok?;
          assert rs[i + 1] == Err(e) && forall j :: 0 <= j < i + 1 ==> rs[j].Ok?;
          Err(e)
        case Ok(xs) => Ok([x] + xs)
  }

  /** The entry of an association list, as a JS object literal lookup. */
  function Lookup<K(==), V>(table: seq<(K, V)>, key: K): (r: Option<V>)
    ensures r.Some? <==> exists i :: 0 <= i < |table| && table[i].0 == key
    ensures r.Some? ==> exists i :: 0 <= i < |table| && table[i] == (key, r.value)
  {
    if |table| == 0 then None
    else if table[0].0 == key then Some(table[0].1)
    else
      var r := Lookup(table[1..], key);
      assert r.Some? ==> table[1..][0..] == table[1..];
      r
  }

  /** `x || d` for an optional string: absent and "" are falsy. */
  function StringOr(x: Option<string>, d: string): (r: string)
    ensures x.Some? && x.value != "" ==> r == x.value
    ensures (x.None? || x.value == "") ==> r == d
  {
    if x.Some? && x.value != "" then x.value else d
  }

  /** `x || d` for an optional number: absent and 0 are falsy. */
  function IntOr(x: Option<int>, d: int): (r: int)
    ensures x.Some? && x.value != 0 ==> r == x.value
    ensures (x.None? || x.value == 0) ==> r == d
  {
    if x.Some? && x.value != 0 then x.value else d
  }

  /** No element occurs twice. */
  predicate NoDuplicates<T(==)>(xs: seq<T>) {
    forall i, j :: 0 <= i < j < |xs| ==> xs[i] != xs[j]
  }

  /** `order` without `key`: the keys of an object or a `Map` after
      `delete`, in insertion order. */
  function Without<T(==,!new)>(order: seq<T>, key: T): (r: seq<T>)
    ensures forall k :: k in r <==> k in order && k != key
  {
    if |order| == 0 then []
    else
      var rest := Without(order[1..], key);
      assert forall k :: k in order[1..] ==> k in order;
      if order[0] == key then rest else [order[0]] + rest
  }

  lemma {:induction false} WithoutNoDuplicates<T(!new)>(order: seq<T>, key: T)
    requires NoDuplicates(order)
    ensures NoDuplicates(Without(order, key))
  {
    if |order| > 0 {
      WithoutNoDuplicates(order[1..], key);
      var rest := Without(order[1..], key);
      if order[0] != key {
        assert order[0] !in order[1..];
        assert order[0] !in rest;
        assert Without(order, key) == [order[0]] + rest;
      }
    }
  }

  lemma {:induction false} WithoutAbsent<T(!new)>(order: seq<T>, key: T)
    requires key !in order
    ensures Without(order + [key], key) == order
  {
    if |order| > 0 {
      assert (order + [key])[1..] == order[1..] + [key];
      WithoutAbsent(order[1..], key);
      assert order == [order[0]] + order[1..];
    }
  }

  /** The distinct elements in order of first occurrence: the keys of a
      `Map` filled by `if (!m.has(k)) m.set(k, …)` over `xs`. */
  function Dedup<T(==)>(xs: seq<T>): (r: seq<T>)
    ensures NoDuplicates(r) && |r| <= |xs|
  {
    if |xs| == 0 then []
    else
      var init := Dedup(xs[..|xs| - 1]);
      var last := xs[|xs| - 1];
      if last in init then init else init + [last]
  }

  lemma {:induction false} DedupMembers<T>(xs: seq<T>)
    ensures forall x :: x in Dedup(xs) <==> x in xs
  {
    if |xs| > 0 {
      DedupMembers(xs[..|xs| - 1]);
      assert xs == xs[..|xs| - 1] + [xs[|xs| - 1]];
    }
  }

  /** `xs.filter(x => lo <= x && x <= hi)`. */
  function FilterRange(xs: seq<int>, lo: int, hi: int): seq<int> {
    if |xs| == 0 then []
    else if lo <= xs[0] <= hi then [xs[0]] + FilterRange(xs[1..], lo, hi)
    else FilterRange(xs[1..], lo, hi)
  }

  /** The filter keeps exactly the elements in range, and keeps everything
      when all are in range. */
  lemma {:induction false} FilterRangeContract(xs: seq<int>, lo: int, hi: int)
    ensures |FilterRange(xs, lo, hi)| <= |xs|
    ensures forall i :: 0 <= i < |FilterRange(xs, lo, hi)| ==> lo <= FilterRange(xs, lo, hi)[i] <= hi
    ensures forall x :: x in FilterRange(xs, lo, hi) <==> x in xs && lo <= x <= hi
    ensures (forall i :: 0 <= i < |xs| ==> lo <= xs[i] <= hi) ==> FilterRange(xs, lo, hi) == xs
  {
    if |xs| > 0 {
      FilterRangeContract(xs[1..], lo, hi);
      assert xs == [xs[0]] + xs[1..];
    }
  }

  /** Every element is smaller than the ones after it. */
  predicate StrictlyAscending(xs: seq<int>) {
    forall i, j :: 0 <= i < j < |xs| ==> xs[i] < xs[j]
  }

  /** Each element is above its predecessor. */
  predicate StepsUp(s: seq<int>) {
    forall i :: 0 < i < |s| ==> s[i - 1] < s[i]
  }

  /** A sequence that steps up at every element ascends strictly. */
  lemma {:induction false} StepsAscend(s: seq<int>)
    requires StepsUp(s)
    ensures StrictlyAscending(s)
  {
    if |s| > 1 {
      StepsAscend(s[..|s| - 1]);
      assert forall i :: 0 <= i < |s| - 1 ==> s[i] <= s[|s| - 2];
    }
  }

  /** `base + x` is in the offset sequence exactly when `x` is in `xs`. */
  lemma OffsetMembers(base: int, xs: seq<int>)
    ensures forall x :: x in Offset(base, xs) <==> x - base in xs
  {
    var offs := Offset(base, xs);
    forall x
      ensures x in offs <==> x - base in xs
    {
      if x in offs {
        var i :| 0 <= i < |offs| && offs[i] == x;
        assert xs[i] == x - base;
      }
      if x - base in xs {
        var i :| 0 <= i < |xs| && xs[i] == x - base;
        assert offs[i] == x;
      }
    }
  }

  /** The filter keeps the order of what it keeps. */
  lemma {:induction false} FilterRangeAscends(xs: seq<int>, lo: int, hi: int)
    requires StrictlyAscending(xs)
    ensures StrictlyAscending(FilterRange(xs, lo, hi))
  {
    if |xs| > 0 {
      var t := FilterRange(xs[1..], lo, hi);
      FilterRangeAscends(xs[1..], lo, hi);
      FilterRangeContract(xs[1..], lo, hi);
      if lo <= xs[0] <= hi {
        forall k | 0 <= k < |t|
          ensures xs[0] < t[k]
        {
          assert t[k] in xs[1..];
        }
        assert FilterRange(xs, lo, hi) == [xs[0]] + t;
      }
    }
  }

  /** `xs.map(i => base + i)`. */
  function Offset(base: int, xs: seq<int>): (r: seq<int>)
    ensures |r| == |xs| && forall i :: 0 <= i < |xs| ==> r[i] == base + xs[i]
  {
    if |xs| == 0 then [] else [base + xs[0]] + Offset(base, xs[1..])
  }

  // ---------------------------------------------------------------------
  // Counted loops and cyclic indexing

  /** The number of rounds of `for (let i = 0; i < n; i++)`. */
  function Rounds(n: int): nat {
    if n < 0 then 0 else n
  }

  /** Element `j` of `s` repeated end to end, that is `s[j % s.length]`
      (see CycleIsRemainder). */
  function Cycle<T>(s: seq<T>, j: nat): T
    requires |s| > 0
    decreases j
  {
    if j < |s| then s[j] else Cycle(s, j - |s|)
  }

  lemma {:induction false} CycleIsRemainder<T>(s: seq<T>, j: nat)
    requires |s| > 0
    ensures Cycle(s, j) == s[j % |s|]
    decreases j
  {
    if j >= |s| {
      CycleIsRemainder(s, j - |s|);
      RemainderShift(j - |s|, |s|);
    }
  }

  lemma RemainderShift(x: int, n: int)
    requires x >= 0 && n > 0
    ensures (x + n) % n == x % n
  {
    var q, r := x / n, x % n;
    assert x + n == (q + 1) * n + r;
    RemainderUnique(x + n, n, q + 1, r);
  }

  lemma RemainderUnique(x: int, n: int, q: int, r: int)
    requires n > 0 && 0 <= r < n && x == q * n + r
    ensures x % n == r && x / n == q
  {
    var q2, r2 := x / n, x % n;
    if q < q2 {
      MulStep(q, q2, n);
      assert false;
    } else if q > q2 {
      MulStep(q2, q, n);
      assert false;
    }
  }

  lemma {:induction false} MulStep(a: int, b: int, n: int)
    requires a < b && n > 0
    ensures a * n + n <= b * n
    decreases b - a
  {
    if a + 1 < b {
      MulStep(a, b - 1, n);
    }
  }

  // ---------------------------------------------------------------------
  // Object key order

  /** A key that JavaScript treats as an array index (a canonical
      non-negative integer below 2^32 - 1). */
  predicate IsIndexKey(c: int) {
    0 <= c < 0xFFFF_FFFF
  }

  function IndexKeys(keys: seq<int>): seq<int> {
    if |keys| == 0 then []
    else IndexKeys(keys[..|keys| - 1]) + (if IsIndexKey(keys[|keys| - 1]) then [keys[|keys| - 1]] else [])
  }

  function OtherKeys(keys: seq<int>): seq<int> {
    if |keys| == 0 then []
    else OtherKeys(keys[..|keys| - 1]) + (if IsIndexKey(keys[|keys| - 1]) then [] else [keys[|keys| - 1]])
  }

  /** The order `Object.entries` lists the keys inserted in order `keys`:
      the array-index keys ascending, then the others (here the negative
      channels) in insertion order. */
  function EntryKeys(keys: seq<int>): seq<int> {
    SortAsc(IndexKeys(keys)) + OtherKeys(keys)
  }

  lemma {:induction false} SplitKeys(keys: seq<int>)
    ensures multiset(IndexKeys(keys)) + multiset(OtherKeys(keys)) == multiset(keys)
  {
    if |keys| > 0 {
      var init := keys[..|keys| - 1];
      SplitKeys(init);
      assert keys == init + [keys[|keys| - 1]];
    }
  }

  /** `Object.entries` lists every key exactly once. */
  lemma EntryKeysPermutation(keys: seq<int>)
    ensures multiset(EntryKeys(keys)) == multiset(keys)
    ensures forall c :: c in EntryKeys(keys) <==> c in keys
  {
    SplitKeys(keys);
    assert multiset(EntryKeys(keys)) == multiset(SortAsc(IndexKeys(keys))) + multiset(OtherKeys(keys));
    forall c
      ensures c in EntryKeys(keys) <==> c in keys
    {
      assert c in EntryKeys(keys) <==> c in multiset(EntryKeys(keys));
      assert c in keys <==> c in multiset(keys);
    }
  }

  lemma {:induction false} IndexKeysAll(keys: seq<int>)
    requires forall i :: 0 <= i < |keys| ==> IsIndexKey(keys[i])
    ensures IndexKeys(keys) == keys && OtherKeys(keys) == []
  {
    if |keys| > 0 {
      var init := keys[..|keys| - 1];
      assert forall i :: 0 <= i < |init| ==> init[i] == keys[i];
      IndexKeysAll(init);
    }
  }

  /** With the usual channels 0..15 the channels are visited in ascending
      order, whatever order they were first used in. */
  lemma EntryKeysAscending(keys: seq<int>)
    requires forall i :: 0 <= i < |keys| ==> 0 <= keys[i] < 16
    ensures EntryKeys(keys) == SortAsc(keys) && Ascending(EntryKeys(keys))
  {
    IndexKeysAll(keys);
  }
}
