/**
 * Sequence operations standing for the JavaScript array methods the shop
 * relies on: `find` (first element satisfying a test), `filter` (the
 * elements satisfying a test, in order) and `reduce` (a left fold with an
 * accumulator).
 */
module Lists {
  import opened Wrappers

  /** The position `Array.prototype.find` stops at: the first element satisfying `p`. */
  function FirstIndex<T>(s: seq<T>, p: T -> bool): (r: Option<nat>)
    ensures r.Some? ==> r.value < |s| && p(s[r.value])
    ensures r.Some? ==> forall j :: 0 <= j < r.value ==> !p(s[j])
    ensures r.None? <==> forall j :: 0 <= j < |s| ==> !p(s[j])
  {
    if s == [] then None
    else if p(s[0]) then Some(0)
    else match FirstIndex(s[1..], p)
      case None => None
      case Some(k) => Some(k + 1)
  }

  /** `Array.prototype.filter`: the elements satisfying `p`, in their original order. */
  function Filter<T(!new)>(s: seq<T>, p: T -> bool): (r: seq<T>)
    ensures |r| <= |s|
    ensures forall k :: 0 <= k < |r| ==> p(r[k])
    ensures forall x :: x in r <==> x in s && p(x)
  {
    if s == [] then []
    else if p(s[0]) then [s[0]] + Filter(s[1..], p)
    else Filter(s[1..], p)
  }

  /** Filtering commutes with concatenation, so the original order is kept. */
  lemma {:induction false} FilterConcat<T(!new)>(a: seq<T>, b: seq<T>, p: T -> bool)
    ensures Filter(a + b, p) == Filter(a, p) + Filter(b, p)
  {
    if a == [] {
      assert a + b == b;
    } else {
      assert (a + b)[1..] == a[1..] + b;
      FilterConcat(a[1..], b, p);
    }
  }

  /** A filter that every element passes returns its input unchanged. */
  lemma {:induction false} FilterKeepsAll<T(!new)>(s: seq<T>, p: T -> bool)
    requires forall j :: 0 <= j < |s| ==> p(s[j])
    ensures Filter(s, p) == s
  {
    if s != [] {
      FilterKeepsAll(s[1..], p);
    }
  }

  /** A filter that every element fails returns nothing. */
  lemma {:induction false} FilterDropsAll<T(!new)>(s: seq<T>, p: T -> bool)
    requires forall j :: 0 <= j < |s| ==> !p(s[j])
    ensures Filter(s, p) == []
  {
    if s != [] {
      FilterDropsAll(s[1..], p);
    }
  }

  /** When exactly the first `k` elements pass, the filter returns that prefix. */
  lemma FilterPrefix<T(!new)>(s: seq<T>, k: nat, p: T -> bool)
    requires k <= |s|
    requires forall j :: 0 <= j < k ==> p(s[j])
    requires forall j :: k <= j < |s| ==> !p(s[j])
    ensures Filter(s, p) == s[..k]
  {
    var leading, rest := s[..k], s[k..];
    assert forall j :: 0 <= j < |leading| ==> leading[j] == s[j];
    assert forall j :: 0 <= j < |rest| ==> rest[j] == s[j + k];
    FilterKeepsAll(leading, p);
    FilterDropsAll(rest, p);
    assert s == leading + rest;
    FilterConcat(leading, rest, p);
    assert leading + [] == leading;
  }

  /** Filtering out the one failing element of a sequence removes just it, keeping the order of the others. */
  lemma FilterDropsOne<T(!new)>(a: seq<T>, x: T, b: seq<T>, p: T -> bool)
    requires forall j :: 0 <= j < |a| ==> p(a[j])
    requires forall j :: 0 <= j < |b| ==> p(b[j])
    requires !p(x)
    ensures Filter(a + [x] + b, p) == a + b
  {
    calc {
      Filter(a + [x] + b, p);
      { FilterConcat(a + [x], b, p); }
      Filter(a + [x], p) + Filter(b, p);
      { FilterConcat(a, [x], p); }
      Filter(a, p) + Filter([x], p) + Filter(b, p);
      { FilterKeepsAll(a, p); FilterKeepsAll(b, p); assert [x][1..] == []; }
      a + [] + b;
      { assert a + [] == a; }
      a + b;
    }
  }

  /** Two tests that agree on every element select the same elements. */
  lemma {:induction false} FilterAgrees<T(!new)>(s: seq<T>, p: T -> bool, q: T -> bool)
    requires forall j :: 0 <= j < |s| ==> p(s[j]) == q(s[j])
    ensures Filter(s, p) == Filter(s, q)
  {
    if s != [] {
      FilterAgrees(s[1..], p, q);
    }
  }

  /** The structural sum of `w` over `s`, the reference meaning of a fold. */
  function Sum<T>(s: seq<T>, w: T -> int): int
  {
    if s == [] then 0 else w(s[0]) + Sum(s[1..], w)
  }

  /**
   * `s.reduce((acc, x) => acc + w(x), acc)`: the left fold JavaScript runs,
   * which adds up to the accumulator plus the structural sum.
   */
  function Reduce<T>(acc: int, s: seq<T>, w: T -> int): (r: int)
    ensures r == acc + Sum(s, w)
    decreases s
  {
    if s == [] then acc else Reduce(acc + w(s[0]), s[1..], w)
  }

  lemma {:induction false} SumConcat<T>(a: seq<T>, b: seq<T>, w: T -> int)
    ensures Sum(a + b, w) == Sum(a, w) + Sum(b, w)
  {
    if a == [] {
      assert a + b == b;
    } else {
      assert (a + b)[1..] == a[1..] + b;
      SumConcat(a[1..], b, w);
    }
  }

  /** Replacing one element changes the sum by exactly the difference of the two weights. */
  lemma {:induction false} SumUpdate<T>(s: seq<T>, i: nat, x: T, w: T -> int)
    requires i < |s|
    ensures Sum(s[i := x], w) == Sum(s, w) - w(s[i]) + w(x)
  {
    if i == 0 {
      assert s[i := x][1..] == s[1..];
    } else {
      assert s[i := x][1..] == s[1..][i - 1 := x];
      SumUpdate(s[1..], i - 1, x, w);
    }
  }

  /** A sum of weights that are each at least one is at least the number of elements. */
  lemma {:induction false} SumAtLeastLength<T>(s: seq<T>, w: T -> int)
    requires forall j :: 0 <= j < |s| ==> w(s[j]) >= 1
    ensures Sum(s, w) >= |s|
  {
    if s != [] {
      SumAtLeastLength(s[1..], w);
    }
  }
}
