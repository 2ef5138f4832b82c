/** Value-level building blocks shared by every part of the model: optional
    values, JavaScript's `||` defaulting, list filtering and summing (the
    `filter` / `reduce` calls of the source), sorting, and the integer
    arithmetic behind `Math.round` and `Math.ceil`. */
module Common {

  /** A value that may be absent (`undefined`, `null` or SQL NULL). */
  datatype Option<+T> = None | Some(value: T)

  /** A result that is either a value or an error message. */
  datatype Result<+T> = Ok(value: T) | Err(message: string)

  /** JavaScript `x || d` on a number that may be absent: absent and 0 are falsy. */
  function OrNum(x: Option<int>, d: int): int
  {
    if x.Some? && x.value != 0 then x.value else d
  }

  /** JavaScript `x || d` on a string that may be absent: absent and "" are falsy. */
  function OrStr(x: Option<string>, d: string): string
  {
    if x.Some? && x.value != "" then x.value else d
  }

  /** `x || 0` is the number itself when it is present. */
  lemma OrZeroIsValue(x: Option<int>)
    ensures OrNum(x, 0) == (if x.Some? then x.value else 0)
  {
  }

  // ---------------------------------------------------------------- filter

  /** `a` occurs in `b` with its elements in the same order. */
  predicate IsSubsequence<T(==)>(a: seq<T>, b: seq<T>)
    decreases |b|
  {
    if a == [] then true
    else if b == [] then false
    else (a[0] == b[0] && IsSubsequence(a[1..], b[1..])) || IsSubsequence(a, b[1..])
  }

  /** `Array.prototype.filter`: the elements satisfying `p`, in their original order. */
  function Filter<T(!new, ==)>(s: seq<T>, p: T -> bool): (r: seq<T>)
    ensures |r| <= |s|
    ensures forall x :: x in r <==> x in s && p(x)
    ensures IsSubsequence(r, s)
  {
    if s == [] then []
    else
      assert s == [s[0]] + s[1..];
      var rest := Filter(s[1..], p);
      if p(s[0]) then
        assert ([s[0]] + rest)[1..] == rest;
        [s[0]] + rest
      else rest
  }

  /** Filtering keeps each satisfying element with its multiplicity and drops the rest. */
  lemma {:induction false} FilterMultiset<T(!new)>(s: seq<T>, p: T -> bool)
    ensures forall x :: multiset(Filter(s, p))[x] == if p(x) then multiset(s)[x] else 0
  {
    if s != [] {
      assert s == [s[0]] + s[1..];
      FilterMultiset(s[1..], p);
    }
  }

  /** Filtering distributes over concatenation, so it keeps the order of the input. */
  lemma {:induction false} FilterAppend<T(!new)>(a: seq<T>, b: seq<T>, p: T -> bool)
    ensures Filter(a + b, p) == Filter(a, p) + Filter(b, p)
  {
    if a == [] {
      assert a + b == b;
    } else {
      assert (a + b)[0] == a[0];
      assert (a + b)[1..] == a[1..] + b;
      FilterAppend(a[1..], b, p);
    }
  }

  /** Filtering a list with one element appended. */
  lemma FilterSnoc<T(!new)>(s: seq<T>, x: T, p: T -> bool)
    ensures Filter(s + [x], p) == if p(x) then Filter(s, p) + [x] else Filter(s, p)
  {
    FilterAppend(s, [x], p);
    assert [x][1..] == [];
  }

  /** Filtering with a predicate every element satisfies returns the list unchanged. */
  lemma {:induction false} FilterAll<T(!new)>(s: seq<T>, p: T -> bool)
    requires forall i :: 0 <= i < |s| ==> p(s[i])
    ensures Filter(s, p) == s
  {
    if s != [] {
      FilterAll(s[1..], p);
    }
  }

  /** Filtering with a predicate no element satisfies gives the empty list. */
  lemma {:induction false} FilterNone<T(!new)>(s: seq<T>, p: T -> bool)
    requires forall i :: 0 <= i < |s| ==> !p(s[i])
    ensures Filter(s, p) == []
  {
    if s != [] {
      FilterNone(s[1..], p);
    }
  }

  /** Filtering with predicates that agree on every element gives the same list. */
  lemma {:induction false} FilterExt<T(!new)>(s: seq<T>, p: T -> bool, q: T -> bool)
    requires forall i :: 0 <= i < |s| ==> p(s[i]) == q(s[i])
    ensures Filter(s, p) == Filter(s, q)
  {
    if s != [] {
      FilterExt(s[1..], p, q);
    }
  }

  /** Every list is a subsequence of itself. */
  lemma {:induction false} IsSubsequenceRefl<T>(s: seq<T>)
    ensures IsSubsequence(s, s)
  {
    if s != [] {
      IsSubsequenceRefl(s[1..]);
    }
  }

  /** Lists with the same elements have filters of the same length. */
  lemma FilterCountPermutation<T(!new)>(a: seq<T>, b: seq<T>, p: T -> bool)
    requires multiset(a) == multiset(b)
    ensures |Filter(a, p)| == |Filter(b, p)|
  {
    FilterMultiset(a, p);
    FilterMultiset(b, p);
    assert multiset(Filter(a, p)) == multiset(Filter(b, p));
    assert |multiset(Filter(a, p))| == |Filter(a, p)|;
    assert |multiset(Filter(b, p))| == |Filter(b, p)|;
  }

  // ------------------------------------------------------------------- sum

  /** `s.reduce((sum, x) => sum + f(x), 0)`. */
  function SumBy<T>(s: seq<T>, f: T -> int): int
  {
    if s == [] then 0 else f(s[0]) + SumBy(s[1..], f)
  }

  lemma {:induction false} SumByAppend<T>(a: seq<T>, b: seq<T>, f: T -> int)
    ensures SumBy(a + b, f) == SumBy(a, f) + SumBy(b, f)
  {
    if a == [] {
      assert a + b == b;
    } else {
      assert (a + b)[1..] == a[1..] + b;
      SumByAppend(a[1..], b, f);
    }
  }

  lemma SumByCons<T>(x: T, s: seq<T>, f: T -> int)
    ensures SumBy([x] + s, f) == f(x) + SumBy(s, f)
  {
    assert ([x] + s)[1..] == s;
  }

  /** Sums of functions that agree on every element are equal. */
  lemma {:induction false} SumByExt<T>(s: seq<T>, f: T -> int, g: T -> int)
    requires forall i :: 0 <= i < |s| ==> f(s[i]) == g(s[i])
    ensures SumBy(s, f) == SumBy(s, g)
  {
    if s != [] {
      SumByExt(s[1..], f, g);
    }
  }

  /** `Array.prototype.map`. */
  function MapSeq<A, B>(s: seq<A>, g: A -> B): (r: seq<B>)
    ensures |r| == |s|
    ensures forall i :: 0 <= i < |s| ==> r[i] == g(s[i])
  {
    if s == [] then [] else [g(s[0])] + MapSeq(s[1..], g)
  }

  /** Summing a field of mapped elements is summing the composed function. */
  lemma {:induction false} SumByMap<A, B>(s: seq<A>, g: A -> B, f: B -> int, h: A -> int)
    requires forall i :: 0 <= i < |s| ==> h(s[i]) == f(g(s[i]))
    ensures SumBy(MapSeq(s, g), f) == SumBy(s, h)
  {
    if s != [] {
      SumByMap(s[1..], g, f, h);
      SumByCons(g(s[0]), MapSeq(s[1..], g), f);
    }
  }

  /** Summing 1 per element counts the elements. */
  lemma {:induction false} SumByOne<T>(s: seq<T>, f: T -> int)
    requires forall i :: 0 <= i < |s| ==> f(s[i]) == 1
    ensures SumBy(s, f) == |s|
  {
    if s != [] {
      SumByOne(s[1..], f);
    }
  }

  /** Taking out the element at `i` takes its value out of the sum. */
  lemma SumByRemove<T>(b: seq<T>, i: int, f: T -> int)
    requires 0 <= i < |b|
    ensures SumBy(b, f) == f(b[i]) + SumBy(b[..i] + b[i + 1..], f)
  {
    var p, x, q := b[..i], b[i], b[i + 1..];
    assert b == p + [x] + q;
    SumByAppend(p + [x], q, f);
    SumByAppend(p, [x], f);
    SumByAppend(p, q, f);
    assert SumBy([x], f) == f(x) + SumBy([x][1..], f);
    assert [x][1..] == [];
  }

  /** Taking out the element at `i` takes one copy of it out of the multiset. */
  lemma MultisetRemove<T>(b: seq<T>, i: int)
    requires 0 <= i < |b|
    ensures multiset(b[..i] + b[i + 1..]) == multiset(b) - multiset{b[i]}
  {
    assert b == b[..i] + [b[i]] + b[i + 1..];
    assert multiset(b) == multiset(b[..i]) + multiset{b[i]} + multiset(b[i + 1..]);
  }

  /** A sum does not depend on the order in which the elements are visited. */
  lemma {:induction false} SumByPermutation<T>(a: seq<T>, b: seq<T>, f: T -> int)
    requires multiset(a) == multiset(b)
    ensures SumBy(a, f) == SumBy(b, f)
  {
    if a != [] {
      MultisetRemove(a, 0);
      assert a[..0] + a[1..] == a[1..];
      assert a[0] in multiset(b);
      var i :| 0 <= i < |b| && b[i] == a[0];
      MultisetRemove(b, i);
      SumByPermutation(a[1..], b[..i] + b[i + 1..], f);
      SumByRemove(b, i, f);
    }
  }

  /** Sums of non-negative quantities are non-negative. */
  lemma {:induction false} SumByNonnegative<T>(s: seq<T>, f: T -> int)
    requires forall i :: 0 <= i < |s| ==> f(s[i]) >= 0
    ensures SumBy(s, f) >= 0
  {
    if s != [] {
      SumByNonnegative(s[1..], f);
    }
  }

  /** A sum of non-negative quantities is positive exactly when one of them is. */
  lemma {:induction false} SumByPositive<T>(s: seq<T>, f: T -> int)
    requires forall i :: 0 <= i < |s| ==> f(s[i]) >= 0
    ensures SumBy(s, f) > 0 <==> exists i :: 0 <= i < |s| && f(s[i]) > 0
  {
    if s != [] {
      SumByPositive(s[1..], f);
      SumByNonnegative(s[1..], f);
      if exists i :: 0 <= i < |s| && f(s[i]) > 0 {
        var i :| 0 <= i < |s| && f(s[i]) > 0;
        if i > 0 {
          assert f(s[1..][i - 1]) > 0;
        }
      }
      if exists i :: 0 <= i < |s[1..]| && f(s[1..][i]) > 0 {
        var i :| 0 <= i < |s[1..]| && f(s[1..][i]) > 0;
        assert f(s[i + 1]) > 0;
      }
    }
  }

  /** The measure `f` on the elements satisfying `p`, and 0 on the others. */
  function When<T>(p: T -> bool, f: T -> int): T -> int
  {
    (x: T) => if p(x) then f(x) else 0
  }

  /** Summing the filtered list is summing the measure that is 0 off the filter. */
  lemma {:induction false} SumFilter<T(!new)>(s: seq<T>, p: T -> bool, f: T -> int)
    ensures SumBy(Filter(s, p), f) == SumBy(s, When(p, f))
  {
    if s != [] {
      SumFilter(s[1..], p, f);
      if p(s[0]) {
        SumByCons(s[0], Filter(s[1..], p), f);
      }
    }
  }

  /** Replacing one element changes the sum by the difference of the two measures. */
  lemma {:induction false} SumByUpdate<T>(s: seq<T>, i: int, x: T, f: T -> int)
    requires 0 <= i < |s|
    ensures SumBy(s[i := x], f) == SumBy(s, f) - f(s[i]) + f(x)
  {
    if i > 0 {
      assert s[i := x][1..] == s[1..][i - 1 := x];
      SumByUpdate(s[1..], i - 1, x, f);
    }
  }

  // --------------------------------------------------------------- reverse

  function Reverse<T>(s: seq<T>): (r: seq<T>)
    ensures |r| == |s|
    ensures forall i :: 0 <= i < |s| ==> r[i] == s[|s| - 1 - i]
  {
    if s == [] then [] else Reverse(s[1..]) + [s[0]]
  }

  /** Reversing a strictly ascending list gives a strictly descending list of the same values. */
  lemma ReverseAscending(ks: seq<int>)
    requires StrictlyAscending(ks)
    ensures StrictlyDescending(Reverse(ks))
    ensures forall k :: k in Reverse(ks) <==> k in ks
  {
    var ds := Reverse(ks);
    forall i, j | 0 <= i < j < |ds| ensures ds[i] > ds[j] {
      assert ds[i] == ks[|ks| - 1 - i] && ds[j] == ks[|ks| - 1 - j];
    }
    forall k ensures k in ds <==> k in ks {
      if k in ks {
        var i :| 0 <= i < |ks| && ks[i] == k;
        assert ds[|ks| - 1 - i] == k;
      }
    }
  }

  /** Reversing keeps every element with its multiplicity. */
  lemma ReverseMultiset<T>(s: seq<T>)
    ensures multiset(Reverse(s)) == multiset(s)
  {
    if s != [] {
      assert s == [s[0]] + s[1..];
      ReverseMultiset(s[1..]);
    }
  }

  // ------------------------------------------------------------------ sort

  /** Non-decreasing by `key`. */
  predicate SortedBy<T>(s: seq<T>, key: T -> int)
  {
    forall i, j :: 0 <= i < j < |s| ==> key(s[i]) <= key(s[j])
  }

  predicate StrictlyAscending(s: seq<int>)
  {
    forall i, j :: 0 <= i < j < |s| ==> s[i] < s[j]
  }

  predicate StrictlyDescending(s: seq<int>)
  {
    forall i, j :: 0 <= i < j < |s| ==> s[i] > s[j]
  }

  /** Inserts `x` after every leading element whose key is not greater than its own. */
  function InsertBy<T>(s: seq<T>, x: T, key: T -> int): (r: seq<T>)
    ensures multiset(r) == multiset(s) + multiset{x}
  {
    if s == [] then [x]
    else if key(x) < key(s[0]) then [x] + s
    else
      assert s == [s[0]] + s[1..];
      [s[0]] + InsertBy(s[1..], x, key)
  }

  /** A lower bound on every key of `s` and on `key(x)` bounds every key after insertion. */
  lemma {:induction false} InsertByBound<T>(s: seq<T>, x: T, key: T -> int, b: int)
    requires b <= key(x)
    requires forall i :: 0 <= i < |s| ==> b <= key(s[i])
    ensures forall i :: 0 <= i < |InsertBy(s, x, key)| ==> b <= key(InsertBy(s, x, key)[i])
  {
    if s != [] && key(x) >= key(s[0]) {
      var t := s[1..];
      assert forall i :: 0 <= i < |t| ==> t[i] == s[i + 1];
      InsertByBound(t, x, key, b);
    }
  }

  /** Inserting into a sorted list keeps it sorted. */
  lemma {:induction false} InsertBySorted<T>(s: seq<T>, x: T, key: T -> int)
    requires SortedBy(s, key)
    ensures SortedBy(InsertBy(s, x, key), key)
  {
    if s != [] && key(x) >= key(s[0]) {
      var t := s[1..];
      assert forall i :: 0 <= i < |t| ==> t[i] == s[i + 1];
      var rest := InsertBy(t, x, key);
      InsertBySorted(t, x, key);
      InsertByBound(t, x, key, key(s[0]));
      var r := [s[0]] + rest;
      forall i, j | 0 <= i < j < |r| ensures key(r[i]) <= key(r[j]) {
        assert r[j] == rest[j - 1];
        if i > 0 {
          assert r[i] == rest[i - 1];
        }
      }
    }
  }

  /** A stable sort by `key` (insertion sort), as `Array.prototype.sort` with a
      key comparator behaves. */
  function SortBy<T>(s: seq<T>, key: T -> int): (r: seq<T>)
    ensures SortedBy(r, key)
    ensures multiset(r) == multiset(s)
    ensures |r| == |s|
  {
    if s == [] then []
    else
      assert s == s[..|s| - 1] + [s[|s| - 1]];
      var sorted := SortBy(s[..|s| - 1], key);
      InsertBySorted(sorted, s[|s| - 1], key);
      var r := InsertBy(sorted, s[|s| - 1], key);
      assert |r| == |multiset(r)| == |s|;
      r
  }

  /** `SortBy` inserts the last element into the sorted rest. */
  lemma SortByLast<T>(s: seq<T>, key: T -> int)
    requires s != []
    ensures SortBy(s, key) == InsertBy(SortBy(s[..|s| - 1], key), s[|s| - 1], key)
  {
  }

  /** A prefix of a sorted list is sorted, and no key in it exceeds the last one. */
  lemma SortedInit<T>(s: seq<T>, init: seq<T>, key: T -> int)
    requires SortedBy(s, key) && s != [] && init == s[..|s| - 1]
    ensures SortedBy(init, key)
    ensures forall i :: 0 <= i < |init| ==> key(init[i]) <= key(s[|s| - 1])
  {
    forall i, j | 0 <= i < j < |init| ensures key(init[i]) <= key(init[j]) {
      assert init[i] == s[i] && init[j] == s[j];
    }
    forall i | 0 <= i < |init| ensures key(init[i]) <= key(s[|s| - 1]) {
      assert init[i] == s[i];
    }
  }

  /** Sorting a list that is already sorted changes nothing. */
  lemma {:induction false} SortBySorted<T>(s: seq<T>, key: T -> int)
    requires SortedBy(s, key)
    ensures SortBy(s, key) == s
  {
    if s != [] {
      var init := s[..|s| - 1];
      var last := s[|s| - 1];
      SortedInit(s, init, key);
      SortBySorted(init, key);
      InsertAtEnd(init, last, key);
      SortByLast(s, key);
      assert SortBy(s, key) == init + [last];
      assert init + [last] == s;
    }
  }

  /** Inserting an element no smaller than every key of a list appends it. */
  lemma {:induction false} InsertAtEnd<T>(s: seq<T>, x: T, key: T -> int)
    requires forall i :: 0 <= i < |s| ==> key(s[i]) <= key(x)
    ensures InsertBy(s, x, key) == s + [x]
  {
    if s != [] {
      InsertAtEnd(s[1..], x, key);
      assert [s[0]] + (s[1..] + [x]) == s + [x];
    }
  }

  /** Appending one element to a sorted list and sorting inserts that element
      after every element whose key is not greater than its own. */
  lemma {:induction false} SortAfterAppend<T>(s: seq<T>, x: T, key: T -> int)
    requires SortedBy(s, key)
    ensures SortBy(s + [x], key) == InsertBy(s, x, key)
  {
    var t := s + [x];
    assert t[..|t| - 1] == s;
    SortBySorted(s, key);
  }

  // ------------------------------------------------------------ arithmetic

  /** `Math.ceil(n / d)` for a positive divisor. */
  function CeilDiv(n: int, d: int): (r: int)
    requires d > 0
    ensures d * (r - 1) < n <= d * r
  {
    var q := (-n) / d;
    assert d * q <= -n < d * q + d;
    -q
  }

  /** `r` is `n / d` rounded to the nearest integer, halves upwards:
      `r - 1/2 <= n / d < r + 1/2`. */
  predicate RoundsTo(n: int, d: int, r: int)
  {
    d * (2 * r - 1) <= 2 * n < d * (2 * r + 1)
  }

  /** The rounded quotient is unique, so `RoundsTo` pins `Math.round` down. */
  lemma RoundsToUnique(n: int, d: int, r1: int, r2: int)
    requires d > 0 && RoundsTo(n, d, r1) && RoundsTo(n, d, r2)
    ensures r1 == r2
  {
    CancelFactor(d, 2 * r1 - 1, 2 * r2 + 1);
    CancelFactor(d, 2 * r2 - 1, 2 * r1 + 1);
  }

  /** A positive factor can be cancelled from a strict inequality. */
  lemma CancelFactor(d: int, a: int, b: int)
    requires d > 0 && d * a < d * b
    ensures a < b
  {
    assert d * (b - a) == d * b - d * a;
  }

  /** Nothing over any number of days rounds to 0. */
  lemma RoundsZero(d: int, r: int)
    requires d > 0 && RoundsTo(0, d, r)
    ensures r == 0
  {
    RoundsToUnique(0, d, r, 0);
  }

  /** `Math.round(n / d)` for a positive divisor: the nearest integer, with
      halves rounded up (towards positive infinity). */
  function RoundDiv(n: int, d: int): (r: int)
    requires d > 0
    ensures RoundsTo(n, d, r)
  {
    var q := (2 * n + d) / (2 * d);
    assert 2 * d * q <= 2 * n + d < 2 * d * q + 2 * d;
    q
  }

  // --------------------------------------------------------------- strings

  /** `s.substring(k)`: the suffix from index `k`, or "" when `k` is past the end. */
  function Substring(s: string, k: nat): (r: string)
    ensures k <= |s| ==> |r| == |s| - k && forall i :: 0 <= i < |r| ==> r[i] == s[k + i]
    ensures k >= |s| ==> r == ""
  {
    if k <= |s| then s[k..] else ""
  }

  /** Does `pat` occur in `s` at index `i`? */
  predicate OccursAt(s: string, pat: string, i: int)
  {
    0 <= i && i + |pat| <= |s| && s[i..i + |pat|] == pat
  }

  /** The first index at or after `from` where `pat` occurs in `s`. */
  function FindFrom(s: string, pat: string, from: nat): (r: Option<nat>)
    ensures r.Some? ==> from <= r.value && OccursAt(s, pat, r.value)
    ensures r.Some? ==> forall k :: from <= k < r.value ==> !OccursAt(s, pat, k)
    ensures r.None? ==> forall k :: from <= k ==> !OccursAt(s, pat, k)
    decreases |s| - from
  {
    if from + |pat| > |s| then None
    else if s[from..from + |pat|] == pat then Some(from)
    else FindFrom(s, pat, from + 1)
  }
}
