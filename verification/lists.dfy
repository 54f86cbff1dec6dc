/**
 * The array built-ins the mock server and the composables use: `filter`,
 * `find`/`findIndex`, a stable `sort` by a numeric key, `slice` with
 * JavaScript's index normalisation, and `Math.ceil` of a quotient.
 */
module Lists {
  import opened Wrappers

  /** `Math.ceil(a / b)` for a positive divisor. */
  function CeilDiv(a: int, b: int): (r: int)
    requires b > 0
    ensures (r - 1) * b < a <= r * b
    ensures a >= 0 ==> r >= 0
  {
    -((-a) / b)
  }

  /** How `slice` reads an index: a negative one counts from the end, and
      the result is clamped to `[0, n]`. */
  function SliceIndex(i: int, n: nat): (r: nat)
    ensures r <= n
    ensures 0 <= i <= n ==> r == i
    ensures i > n ==> r == n
  {
    if i < 0 then (if n + i < 0 then 0 else n + i) else if i > n then n else i
  }

  /** `s.slice(start, end)`. */
  function Slice<T>(s: seq<T>, start: int, end: int): (r: seq<T>)
    ensures |r| <= |s|
    ensures 0 <= start <= end ==> |r| <= end - start
    ensures SliceIndex(start, |s|) + |r| <= |s|
    ensures forall k :: 0 <= k < |r| ==> r[k] == s[SliceIndex(start, |s|) + k]
  {
    var a, b := SliceIndex(start, |s|), SliceIndex(end, |s|);
    if a < b then s[a..b] else []
  }

  /** The 1-based page `page` of `size` items: `slice((page-1)*size, (page-1)*size + size)`. */
  function Page<T>(s: seq<T>, page: int, size: int): seq<T> {
    Slice(s, (page - 1) * size, (page - 1) * size + size)
  }

  /** Pages `1..n` laid end to end. */
  function PagesUpTo<T>(s: seq<T>, size: int, n: nat): seq<T> {
    if n == 0 then [] else PagesUpTo(s, size, n - 1) + Page(s, n, size)
  }

  function Min(a: int, b: int): int {
    if a <= b then a else b
  }

  /** The first `n` pages hold exactly the first `n * size` items. */
  lemma {:induction false} PagesUpToPrefix<T>(s: seq<T>, size: int, n: nat)
    requires size > 0
    ensures PagesUpTo(s, size, n) == s[..Min(n * size, |s|)]
  {
    if n > 0 {
      PagesUpToPrefix(s, size, n - 1);
      var first := (n - 1) * size;
      MulStep(n, size);
      PageFrom(s, n, size, first);
      PrefixStep(s, first, first + size);
    }
  }

  lemma PrefixStep<T>(s: seq<T>, lo: nat, hi: nat)
    requires lo <= hi
    ensures s[..Min(lo, |s|)] + s[Min(lo, |s|)..Min(hi, |s|)] == s[..Min(hi, |s|)]
  {
  }

  /** With `Math.ceil(total / size)` pages, the pages cover the whole list,
      in order, each item once. */
  lemma PagesCoverAll<T>(s: seq<T>, size: int)
    requires size > 0
    ensures PagesUpTo(s, size, CeilDiv(|s|, size)) == s
  {
    PagesUpToPrefix(s, size, CeilDiv(|s|, size));
  }

  /** A page within range is a window of the list of at most `size` items. */
  lemma PageWindow<T>(s: seq<T>, page: int, size: int)
    requires page >= 1 && size >= 0
    ensures Page(s, page, size) == s[Min((page - 1) * size, |s|)..Min(page * size, |s|)]
    ensures |Page(s, page, size)| <= size
  {
    var lo := (page - 1) * size;
    NonNegProduct(page - 1, size);
    assert lo + size == page * size;
  }

  /** A page is the window of `size` items from its first index. */
  lemma PageFrom<T>(s: seq<T>, page: int, size: nat, first: nat)
    requires first == (page - 1) * size
    ensures Page(s, page, size) == s[Min(first, |s|)..Min(first + size, |s|)]
  {
  }

  /** One more page of `size` items starts where the previous ones end. */
  lemma MulStep(n: nat, size: nat)
    requires n > 0
    ensures (n - 1) * size + size == n * size && (n - 1) * size >= 0
  {
    NonNegProduct(n - 1, size);
  }

  lemma NonNegProduct(a: int, b: int)
    requires a >= 0 && b >= 0
    ensures a * b >= 0
  {
  }

  /** `s.filter(p)`. */
  function Filter<T>(s: seq<T>, p: T -> bool): (r: seq<T>)
    ensures |r| <= |s|
    ensures forall k :: 0 <= k < |r| ==> r[k] in s && p(r[k])
    ensures forall k :: 0 <= k < |s| && p(s[k]) ==> s[k] in r
  {
    if s == [] then [] else (if p(s[0]) then [s[0]] else []) + Filter(s[1..], p)
  }

  /** `filter` keeps the stored order: filtering a concatenation filters
      each part in turn. */
  lemma {:induction false} FilterAppend<T>(a: seq<T>, b: seq<T>, p: T -> bool)
    ensures Filter(a + b, p) == Filter(a, p) + Filter(b, p)
  {
    if a == [] {
      assert a + b == b;
    } else {
      assert (a + b)[0] == a[0];
      assert (a + b)[1..] == a[1..] + b;
      FilterAppend(a[1..], b, p);
    }
  }

  /** What `filter` keeps: exactly the items of `s` that pass. */
  lemma FilterMembers<T>(s: seq<T>, p: T -> bool)
    ensures forall x :: x in Filter(s, p) <==> x in s && p(x)
  {
    forall x | x in Filter(s, p)
      ensures x in s && p(x)
    {
      var k :| 0 <= k < |Filter(s, p)| && Filter(s, p)[k] == x;
    }
    forall x | x in s && p(x)
      ensures x in Filter(s, p)
    {
      var k :| 0 <= k < |s| && s[k] == x;
    }
  }

  /** `s.findIndex(p)`, with `-1` written `None`. */
  function FindIndex<T>(s: seq<T>, p: T -> bool): (r: Option<nat>)
    ensures r.Some? ==> r.value < |s| && p(s[r.value])
    ensures r.Some? ==> forall j :: 0 <= j < r.value ==> !p(s[j])
    ensures r.None? ==> forall j :: 0 <= j < |s| ==> !p(s[j])
  {
    if s == [] then None
    else if p(s[0]) then Some(0)
    else match FindIndex(s[1..], p)
      case None => None
      case Some(i) => Some(i + 1)
  }

  /** The list is in non-increasing order of `key`. */
  ghost predicate SortedDesc<T>(s: seq<T>, key: T -> int) {
    forall i, j :: 0 <= i < j < |s| ==> key(s[i]) >= key(s[j])
  }

  /** A window of a sorted list is sorted. */
  lemma SortedWindow<T>(s: seq<T>, key: T -> int, lo: nat, hi: nat)
    requires SortedDesc(s, key) && lo <= hi <= |s|
    ensures SortedDesc(s[lo..hi], key)
  {
    forall i, j | 0 <= i < j < hi - lo ensures key(s[lo..hi][i]) >= key(s[lo..hi][j]) {
      assert s[lo..hi][i] == s[lo + i] && s[lo..hi][j] == s[lo + j];
    }
  }

  /** Inserts `x` before the first item whose key is not greater than its own. */
  function Insert<T>(x: T, s: seq<T>, key: T -> int): (r: seq<T>)
    requires SortedDesc(s, key)
    ensures multiset(r) == multiset(s) + multiset{x}
    ensures SortedDesc(r, key)
    ensures |r| == |s| + 1
    ensures r[0] == x || (s != [] && r[0] == s[0])
  {
    if s == [] || key(x) >= key(s[0]) then
      SortedCons(x, s, key);
      [x] + s
    else
      assert s == [s[0]] + s[1..];
      SortedWindow(s, key, 1, |s|);
      var rest := Insert(x, s[1..], key);
      assert rest[0] == x || key(rest[0]) == key(s[1]) <= key(s[0]);
      SortedCons(s[0], rest, key);
      assert multiset([s[0]] + rest) == multiset{s[0]} + multiset(rest);
      [s[0]] + rest
  }

  /** A sorted list stays sorted under a head whose key is at least the first one's. */
  lemma SortedCons<T>(h: T, t: seq<T>, key: T -> int)
    requires SortedDesc(t, key)
    requires t == [] || key(h) >= key(t[0])
    ensures SortedDesc([h] + t, key)
  {
    var s := [h] + t;
    forall i, j | 0 <= i < j < |s| ensures key(s[i]) >= key(s[j]) {
      if i == 0 && j > 1 {
        assert key(t[0]) >= key(t[j - 1]);
      }
    }
  }

  /** `[...s].sort((a, b) => key(b) - key(a))`: a stable sort, largest key first. */
  function SortDesc<T>(s: seq<T>, key: T -> int): (r: seq<T>)
    ensures multiset(r) == multiset(s) && |r| == |s|
    ensures SortedDesc(r, key)
  {
    if s == [] then []
    else
      assert s == [s[0]] + s[1..];
      Insert(s[0], SortDesc(s[1..], key), key)
  }

  /** The items of `s` whose key is `k`, in their order in `s`. */
  function WithKey<T>(s: seq<T>, key: T -> int, k: int): seq<T> {
    if s == [] then [] else (if key(s[0]) == k then [s[0]] else []) + WithKey(s[1..], key, k)
  }

  /** `WithKey` of a list with a given head. */
  lemma WithKeyCons<T>(h: T, t: seq<T>, key: T -> int, k: int)
    ensures WithKey([h] + t, key, k) == (if key(h) == k then [h] else []) + WithKey(t, key, k)
  {
    assert ([h] + t)[0] == h && ([h] + t)[1..] == t;
  }

  /** Two heads commute in front of a tail when one of them is empty. */
  lemma SwapHeads<T>(a: seq<T>, b: seq<T>, c: seq<T>)
    requires a == [] || b == []
    ensures a + (b + c) == b + (a + c)
  {
    if a == [] {
      assert a + (b + c) == b + c == b + (a + c);
    } else {
      assert a + (b + c) == a + c == b + (a + c);
    }
  }

  /** Inserting puts `x` ahead of the items with its own key. */
  lemma {:induction false} InsertWithKey<T>(x: T, s: seq<T>, key: T -> int, k: int)
    requires SortedDesc(s, key)
    ensures WithKey(Insert(x, s, key), key, k) == (if key(x) == k then [x] else []) + WithKey(s, key, k)
  {
    if s == [] || key(x) >= key(s[0]) {
      assert Insert(x, s, key) == [x] + s;
      WithKeyCons(x, s, key, k);
    } else {
      SortedWindow(s, key, 1, |s|);
      var rest := Insert(x, s[1..], key);
      assert Insert(x, s, key) == [s[0]] + rest;
      InsertWithKey(x, s[1..], key, k);
      WithKeyCons(s[0], rest, key, k);
      assert s == [s[0]] + s[1..];
      WithKeyCons(s[0], s[1..], key, k);
      // `x` sorts after `s[0]`, so at most one of them has key `k`.
      SwapHeads((if key(s[0]) == k then [s[0]] else []), (if key(x) == k then [x] else []), WithKey(s[1..], key, k));
    }
  }

  /** The sort is stable: the items with any one key come out in the order
      they went in. */
  lemma {:induction false} SortStable<T>(s: seq<T>, key: T -> int, k: int)
    ensures WithKey(SortDesc(s, key), key, k) == WithKey(s, key, k)
  {
    if s != [] {
      SortStable(s[1..], key, k);
      InsertWithKey(s[0], SortDesc(s[1..], key), key, k);
    }
  }

  /** `s.flatMap(f)`: the lists `f` gives for each item, laid end to end. */
  function FlatMap<A, B>(s: seq<A>, f: A -> seq<B>): seq<B> {
    if s == [] then [] else f(s[0]) + FlatMap(s[1..], f)
  }

  lemma {:induction false} FlatMapAppend<A, B>(a: seq<A>, b: seq<A>, f: A -> seq<B>)
    ensures FlatMap(a + b, f) == FlatMap(a, f) + FlatMap(b, f)
  {
    if a == [] {
      assert a + b == b;
    } else {
      assert (a + b)[0] == a[0];
      assert (a + b)[1..] == a[1..] + b;
      FlatMapAppend(a[1..], b, f);
    }
  }

  lemma FlatMapSnoc<A, B>(s: seq<A>, j: nat, f: A -> seq<B>)
    requires j < |s|
    ensures FlatMap(s[..j + 1], f) == FlatMap(s[..j], f) + f(s[j])
  {
    FlatMapAppend(s[..j], [s[j]], f);
    assert s[..j + 1] == s[..j] + [s[j]];
    assert FlatMap([s[j]], f) == f(s[j]) + FlatMap([], f);
  }

  /** Each item's list is part of the whole. */
  lemma {:induction false} FlatMapContains<A, B>(s: seq<A>, f: A -> seq<B>, i: nat)
    requires i < |s|
    ensures multiset(f(s[i])) <= multiset(FlatMap(s, f))
  {
    if i > 0 {
      FlatMapContains(s[1..], f, i - 1);
      assert s[1..][i - 1] == s[i];
    }
  }
}
