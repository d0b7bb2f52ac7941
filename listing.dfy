/**
 * Ordering and paging of lists as the handlers do it: a stable sort by a
 * timestamp, newest first (`Array.prototype.sort`, or a Mongo sort on
 * `-createdAt`), and the page arithmetic skip = (page - 1) * limit with
 * numberOfPages = ceil(total / limit).
 */
module Listing {
  import opened Base

  predicate DescendingBy<T>(s: seq<T>, key: T -> int) {
    forall i, j :: 0 <= i < j < |s| ==> key(s[i]) >= key(s[j])
  }

  /** Places x before the first element whose key is not above x's key. */
  function InsertDesc<T>(x: T, t: seq<T>, key: T -> int): (r: seq<T>)
    ensures multiset(r) == multiset(t) + multiset{x}
    ensures |r| == |t| + 1
  {
    if |t| == 0 || key(t[0]) <= key(x) then [x] + t
    else
      assert t == [t[0]] + t[1..];
      [t[0]] + InsertDesc(x, t[1..], key)
  }

  /** Inserting into a list sorted newest first keeps it sorted, and the head is the larger of x and the old head. */
  lemma {:induction false} InsertDescSorted<T>(x: T, t: seq<T>, key: T -> int)
    requires DescendingBy(t, key)
    ensures var r := InsertDesc(x, t, key);
      DescendingBy(r, key) && key(r[0]) == (if |t| == 0 || key(t[0]) <= key(x) then key(x) else key(t[0]))
  {
    if |t| > 0 && key(t[0]) > key(x) {
      var tail := t[1..];
      assert DescendingBy(tail, key);
      InsertDescSorted(x, tail, key);
      var rest := InsertDesc(x, tail, key);
      var r := [t[0]] + rest;
      assert key(rest[0]) <= key(t[0]) by {
        if |tail| > 0 {
          assert key(tail[0]) == key(t[1]);
        }
      }
      forall i, j | 0 <= i < j < |r|
        ensures key(r[i]) >= key(r[j])
      {
        if i == 0 && j > 1 {
          assert key(rest[0]) >= key(rest[j - 1]);
        }
        if i > 0 {
          assert r[i] == rest[i - 1] && r[j] == rest[j - 1];
        }
      }
    }
  }

  /**
   * Newest first by `key`, elements with equal keys in their original order
   * (insertion sort from the back, which is stable).
   */
  function SortDesc<T>(s: seq<T>, key: T -> int): (r: seq<T>)
    ensures multiset(r) == multiset(s)
    ensures |r| == |s|
    ensures DescendingBy(r, key)
  {
    if |s| == 0 then []
    else
      assert s == [s[0]] + s[1..];
      InsertDescSorted(s[0], SortDesc(s[1..], key), key);
      InsertDesc(s[0], SortDesc(s[1..], key), key)
  }

  /** The entries of `s` whose key is k, in their order in `s`. */
  function KeyRun<T>(s: seq<T>, key: T -> int, k: int): (r: seq<T>)
    ensures |r| <= |s|
    ensures forall i :: 0 <= i < |r| ==> key(r[i]) == k
  {
    if |s| == 0 then []
    else (if key(s[0]) == k then [s[0]] else []) + KeyRun(s[1..], key, k)
  }

  /** Inserting x puts it in front of every entry with its own key and moves no other entry of any key. */
  lemma {:induction false} InsertDescKeyRun<T>(x: T, t: seq<T>, key: T -> int, k: int)
    ensures KeyRun(InsertDesc(x, t, key), key, k) == (if key(x) == k then [x] else []) + KeyRun(t, key, k)
  {
    var r := InsertDesc(x, t, key);
    if |t| == 0 || key(t[0]) <= key(x) {
      assert r[1..] == t;
    } else {
      assert r[1..] == InsertDesc(x, t[1..], key);
      InsertDescKeyRun(x, t[1..], key, k);
    }
  }

  /**
   * The sort is stable: for every key, the entries with that key come out in
   * the order they went in.
   */
  lemma {:induction false} SortDescStable<T>(s: seq<T>, key: T -> int, k: int)
    ensures KeyRun(SortDesc(s, key), key, k) == KeyRun(s, key, k)
  {
    if |s| > 0 {
      SortDescStable(s[1..], key, k);
      InsertDescKeyRun(s[0], SortDesc(s[1..], key), key, k);
    }
  }

  /** Sorting neither adds nor drops an element. */
  lemma SortDescMembers<T>(s: seq<T>, key: T -> int)
    ensures forall x :: x in SortDesc(s, key) <==> x in s
  {
    var r := SortDesc(s, key);
    forall x
      ensures x in r <==> x in s
    {
      assert x in r <==> x in multiset(r);
      assert x in s <==> x in multiset(s);
    }
  }

  /** The head of the newest-first order is an entry of the list with the largest key. */
  lemma SortDescHead<T>(s: seq<T>, key: T -> int)
    requires |s| > 0
    ensures SortDesc(s, key)[0] in s
    ensures forall i :: 0 <= i < |s| ==> key(s[i]) <= key(SortDesc(s, key)[0])
  {
    var r := SortDesc(s, key);
    assert r[0] in multiset(r);
    forall i | 0 <= i < |s|
      ensures key(s[i]) <= key(r[0])
    {
      assert s[i] in multiset(r);
      var j :| 0 <= j < |r| && r[j] == s[i];
      if j > 0 {
        assert key(r[0]) >= key(r[j]);
      }
    }
  }

  /**
   * `p` is the run of `s` from position `skip` on, `limit` items long or cut
   * short by the end of `s` (empty when `skip` is past the end).
   */
  ghost predicate Window<T>(p: seq<T>, s: seq<T>, skip: int, limit: int) {
    0 <= skip && 0 <= limit &&
    |p| == (if skip + limit <= |s| then limit else if skip <= |s| then |s| - skip else 0) &&
    forall j :: 0 <= j < |p| ==> skip + j < |s| && p[j] == s[skip + j]
  }

  /**
   * How `Array.prototype.slice` resolves one index into a list of n items:
   * a negative index counts back from the end, and the position is then
   * clamped to 0 .. n.
   */
  function SliceIndex(i: int, n: nat): (r: nat)
    ensures var k := if i < 0 then n + i else i;
      && r <= n
      && (0 <= k <= n ==> r == k)
      && (k < 0 ==> r == 0)
      && (k > n ==> r == n)
  {
    if i < 0 then (if n + i < 0 then 0 else n + i)
    else if i > n then n
    else i
  }

  /**
   * `s.slice(start, end)`: the run of `s` between the two resolved
   * indices, empty when the end does not lie after the start.
   */
  function JsSlice<T>(s: seq<T>, start: int, end: int): (r: seq<T>)
    ensures |r| <= |s|
    ensures var b, e := SliceIndex(start, |s|), SliceIndex(end, |s|);
      Window(r, s, b, if b < e then e - b else 0)
  {
    var b, e := SliceIndex(start, |s|), SliceIndex(end, |s|);
    if b < e then s[b..e] else []
  }

  /**
   * The page-th page of `limit` items: `s.slice(skip, skip + limit)` with
   * skip = (page - 1) * limit, i.e. the run of `s` between the two resolved
   * slice indices.
   */
  function Page<T>(s: seq<T>, page: int, limit: int): (r: seq<T>)
    ensures var skip := (page - 1) * limit;
      var b, e := SliceIndex(skip, |s|), SliceIndex(skip + limit, |s|);
      Window(r, s, b, if b < e then e - b else 0)
  {
    var skip := (page - 1) * limit;
    JsSlice(s, skip, skip + limit)
  }

  /** `Math.ceil(total / limit)`, the reported number of pages. */
  function PageCount(total: nat, limit: int): (r: int)
    requires limit != 0
    ensures limit > 0 ==> r >= 0 && limit * (r - 1) < total <= limit * r
  {
    CeilRatio(total, limit)
  }

  lemma MulMono(a: int, b: int, l: int)
    requires a <= b && l >= 0
    ensures a * l <= b * l
  {
  }

  /** A product is negative exactly when its factors have opposite signs, neither being zero. */
  lemma NegativeProduct(a: int, b: int)
    ensures a * b < 0 <==> (a < 0 && b > 0) || (a > 0 && b < 0)
  {
    if a < 0 && b > 0 {
      MulMono(a, 0, b);
    } else if a > 0 && b < 0 {
      MulMono(b, 0, a);
    } else if a >= 0 && b >= 0 {
      MulMono(0, a, b);
    } else if a <= 0 && b <= 0 {
      MulMono(0, -a, -b);
    }
  }

  /**
   * For positive page and limit, a page holds the items from position
   * (page - 1) * limit on, at most `limit` of them, and it is non-empty exactly
   * for the pages 1 .. numberOfPages.
   */
  lemma PageContents<T>(s: seq<T>, page: int, limit: int)
    requires page >= 1 && limit >= 1
    ensures var p := Page(s, page, limit);
      |p| <= limit &&
      Window(p, s, (page - 1) * limit, limit) &&
      (forall j :: 0 <= j < |p| ==> p[j] == s[(page - 1) * limit + j]) &&
      (|p| > 0 <==> page <= PageCount(|s|, limit))
  {
    PageWindow(s, page, limit);
    var c := PageCount(|s|, limit);
    if page <= c {
      MulMono(page - 1, c - 1, limit);
    } else {
      MulMono(c, page - 1, limit);
    }
  }

  /** The page-th page is the window of `limit` items from (page - 1) * limit. */
  lemma PageWindow<T>(s: seq<T>, page: int, limit: int)
    ensures page >= 1 && limit >= 1 ==> Window(Page(s, page, limit), s, (page - 1) * limit, limit)
  {
    if page >= 1 && limit >= 1 {
      var skip := (page - 1) * limit;
      assert skip >= 0 by { MulMono(0, page - 1, limit); }
      var b, e := SliceIndex(skip, |s|), SliceIndex(skip + limit, |s|);
      assert b == (if skip <= |s| then skip else |s|);
      assert e == (if skip + limit <= |s| then skip + limit else |s|);
      assert Window(Page(s, page, limit), s, b, if b < e then e - b else 0);
    }
  }

  /**
   * Page -1 is not empty: its skip of -2 * limit counts from the end, so it
   * is the second-to-last run of `limit` items.
   */
  lemma PageMinusOne<T>(s: seq<T>, limit: int)
    requires limit >= 1 && |s| >= 2 * limit
    ensures Window(Page(s, -1, limit), s, |s| - 2 * limit, limit)
  {
    var b := |s| - 2 * limit;
    assert (-1 - 1) * limit == -2 * limit;
    assert SliceIndex(-2 * limit, |s|) == b;
    assert SliceIndex(-2 * limit + limit, |s|) == b + limit;
  }

  /** A page of a sorted list is sorted and holds only items of the list. */
  lemma PageOfSorted<T>(s: seq<T>, page: int, limit: int, key: T -> int)
    requires DescendingBy(s, key)
    ensures DescendingBy(Page(s, page, limit), key)
    ensures forall x :: x in Page(s, page, limit) ==> x in s
  {
  }

  /** A page of the sorted matches is sorted and holds only matches. */
  lemma SortedFilterPage<T(!new)>(s: seq<T>, p: T -> bool, key: T -> int, page: int, limit: int)
    ensures var q := Page(SortDesc(Filter(s, p), key), page, limit);
      DescendingBy(q, key) && forall x :: x in q ==> x in s && p(x)
  {
    var matching := Filter(s, p);
    var mine := SortDesc(matching, key);
    PageOfSorted(mine, page, limit, key);
    forall x | x in Page(mine, page, limit)
      ensures x in s && p(x)
    {
      assert x in multiset(mine);
      assert x in multiset(matching);
    }
  }

  /** Every item sits on exactly one page: item k is entry k % limit of page k / limit + 1. */
  lemma PageCovers<T>(s: seq<T>, limit: int, k: int)
    requires limit >= 1 && 0 <= k < |s|
    ensures var p := Page(s, k / limit + 1, limit);
      k % limit < |p| && p[k % limit] == s[k]
  {
    var page := k / limit + 1;
    assert (page - 1) * limit + k % limit == k;
    PageContents(s, page, limit);
    var p := Page(s, page, limit);
    assert (page - 1) * limit <= k;
    assert |p| == (if k - k % limit + limit <= |s| then limit else |s| - (k - k % limit));
  }

  /** `s.reduce((sum, x) => sum + f(x), 0)`, folded left to right. */
  function Sum<T>(s: seq<T>, f: T -> int): int {
    if |s| == 0 then 0 else Sum(s[..|s| - 1], f) + f(s[|s| - 1])
  }

  /** One more step of a left-to-right running sum. */
  lemma SumNext<T>(s: seq<T>, i: nat, f: T -> int)
    requires i < |s|
    ensures Sum(s[..i + 1], f) == Sum(s[..i], f) + f(s[i])
  {
    assert s[..i + 1][..i] == s[..i];
  }

  /** The number of elements satisfying p. */
  function Count<T>(s: seq<T>, p: T -> bool): (r: nat)
    ensures r <= |s|
  {
    if |s| == 0 then 0 else Count(s[..|s| - 1], p) + (if p(s[|s| - 1]) then 1 else 0)
  }

  /** A predicate implied by another holds at least as often. */
  lemma {:induction false} CountMono<T>(s: seq<T>, p: T -> bool, q: T -> bool)
    requires forall x :: p(x) ==> q(x)
    ensures Count(s, p) <= Count(s, q)
  {
    if |s| > 0 {
      CountMono(s[..|s| - 1], p, q);
    }
  }

  /** An element satisfying p makes the count positive. */
  lemma {:induction false} CountPositive<T>(s: seq<T>, p: T -> bool, k: nat)
    requires k < |s| && p(s[k])
    ensures Count(s, p) > 0
  {
    if k < |s| - 1 {
      CountPositive(s[..|s| - 1], p, k);
    }
  }

  /** A count of zero means no element satisfies p. */
  lemma {:induction false} CountZero<T>(s: seq<T>, p: T -> bool)
    requires forall k :: 0 <= k < |s| ==> !p(s[k])
    ensures Count(s, p) == 0
  {
    if |s| > 0 {
      CountZero(s[..|s| - 1], p);
    }
  }

  /** Summing a pointwise difference is the difference of the sums. */
  lemma {:induction false} SumDifference<T>(s: seq<T>, f: T -> int, g: T -> int, h: T -> int)
    requires forall x :: h(x) == f(x) - g(x)
    ensures Sum(s, h) == Sum(s, f) - Sum(s, g)
  {
    if |s| > 0 {
      SumDifference(s[..|s| - 1], f, g, h);
    }
  }

  /** Sums and counts over a concatenation split in two. */
  lemma {:induction false} SumAppend<T>(s: seq<T>, t: seq<T>, f: T -> int)
    ensures Sum(s + t, f) == Sum(s, f) + Sum(t, f)
  {
    if |t| > 0 {
      assert (s + t)[..|s + t| - 1] == s + t[..|t| - 1];
      SumAppend(s, t[..|t| - 1], f);
    } else {
      assert s + t == s;
    }
  }

  /** `s.filter(p)`: the elements satisfying p, in their original order. */
  function Filter<T(!new)>(s: seq<T>, p: T -> bool): (r: seq<T>)
    ensures |r| == Count(s, p)
    ensures forall x :: x in r <==> x in s && p(x)
  {
    if |s| == 0 then []
    else
      assert s == s[..|s| - 1] + [s[|s| - 1]];
      Filter(s[..|s| - 1], p) + (if p(s[|s| - 1]) then [s[|s| - 1]] else [])
  }

  /** Filtering a concatenation filters each part and keeps them in order. */
  lemma {:induction false} FilterAppend<T(!new)>(s: seq<T>, t: seq<T>, p: T -> bool)
    ensures Filter(s + t, p) == Filter(s, p) + Filter(t, p)
    decreases |t|
  {
    if |t| == 0 {
      assert s + t == s;
    } else {
      var u := t[..|t| - 1];
      assert (s + t)[..|s + t| - 1] == s + u;
      assert (s + t)[|s + t| - 1] == t[|t| - 1];
      FilterAppend(s, u, p);
    }
  }

  /** Filtering by a predicate every element satisfies keeps the list as it is. */
  lemma {:induction false} FilterAll<T(!new)>(s: seq<T>, p: T -> bool)
    requires forall k :: 0 <= k < |s| ==> p(s[k])
    ensures Filter(s, p) == s
  {
    if |s| > 0 {
      FilterAll(s[..|s| - 1], p);
      assert s == s[..|s| - 1] + [s[|s| - 1]];
    }
  }

  /** The position of the first element satisfying p (`find`, `findIndex`), if any. */
  function FirstIndex<T>(s: seq<T>, p: T -> bool): (r: Option<nat>)
    ensures r.None? <==> forall k :: 0 <= k < |s| ==> !p(s[k])
    ensures r.Some? ==> r.value < |s| && p(s[r.value]) && forall k :: 0 <= k < r.value ==> !p(s[k])
  {
    if |s| == 0 then None
    else if p(s[0]) then Some(0)
    else match FirstIndex(s[1..], p)
      case None => None
      case Some(k) => Some(k + 1)
  }

  /** The sequence without its k-th element (a document deleted from a collection). */
  function RemoveAt<T>(s: seq<T>, k: nat): (r: seq<T>)
    requires k < |s|
    ensures |r| == |s| - 1
    ensures forall j :: 0 <= j < |r| ==> r[j] == (if j < k then s[j] else s[j + 1])
  {
    s[..k] + s[k + 1..]
  }

  predicate Distinct<T(==)>(xs: seq<T>) {
    forall i, j :: 0 <= i < j < |xs| ==> xs[i] != xs[j]
  }

  /** `if (!xs.includes(x)) xs.push(x)`. */
  function Include(xs: seq<string>, x: string): (r: seq<string>)
    ensures x in r
    ensures x in xs ==> r == xs
    ensures x !in xs ==> r == xs + [x]
  {
    if x in xs then xs else xs + [x]
  }

  /** Including a value adds that value and no other, and keeps a list free of repeats. */
  lemma IncludeMembers(xs: seq<string>, x: string, y: string)
    ensures y in Include(xs, x) <==> y in xs || y == x
    ensures Distinct(xs) ==> Distinct(Include(xs, x))
  {
  }

}
