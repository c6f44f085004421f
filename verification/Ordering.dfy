/** Orders, sorting and "the first n of a set", shared by every other module.

    A comparison is passed around as a function `lt`. The lemmas about sets of
    first elements are what the bounded history and the line selection rest on. */
module Ordering {

  ghost predicate Transitive<T(!new)>(lt: (T, T) -> bool) {
    forall x, y, z :: lt(x, y) && lt(y, z) ==> lt(x, z)
  }

  ghost predicate StrictOrder<T(!new)>(lt: (T, T) -> bool) {
    && Transitive(lt)
    && (forall x :: !lt(x, x))
  }

  ghost predicate StrictTotal<T(!new)>(lt: (T, T) -> bool) {
    && StrictOrder(lt)
    && (forall x, y :: lt(x, y) || x == y || lt(y, x))
  }

  /** Strictly increasing, hence free of duplicates. */
  ghost predicate Ascending<T>(lt: (T, T) -> bool, xs: seq<T>) {
    forall i, j | 0 <= i < j < |xs| :: lt(xs[i], xs[j])
  }

  /** What a library sort leaves behind: no later element is smaller. */
  ghost predicate NonDescending<T>(lt: (T, T) -> bool, xs: seq<T>) {
    forall i, j | 0 <= i < j < |xs| :: !lt(xs[j], xs[i])
  }

  function Elems<T>(xs: seq<T>): set<T> {
    set x | x in xs
  }

  function Min(a: nat, b: nat): nat {
    if a < b then a else b
  }

  function Max(a: int, b: int): int {
    if a > b then a else b
  }

  function Last<T>(xs: seq<T>): T
    requires xs != []
  {
    xs[|xs| - 1]
  }

  function LastOr<T>(xs: seq<T>, default: T): T {
    if xs == [] then default else Last(xs)
  }

  // ---------------------------------------------------------------- sorting

  function InsertBy<T>(lt: (T, T) -> bool, x: T, xs: seq<T>): (r: seq<T>)
    ensures multiset(r) == multiset(xs) + multiset{x}
  {
    if xs == [] then [x]
    else if lt(x, xs[0]) then [x] + xs
    else
      assert xs == [xs[0]] + xs[1..];
      [xs[0]] + InsertBy(lt, x, xs[1..])
  }

  lemma {:induction false} InsertKeepsOrder<T(!new)>(lt: (T, T) -> bool, x: T, xs: seq<T>)
    requires StrictOrder(lt) && NonDescending(lt, xs)
    ensures NonDescending(lt, InsertBy(lt, x, xs))
  {
    var r := InsertBy(lt, x, xs);
    if xs == [] {
    } else if lt(x, xs[0]) {
      forall k | 0 <= k < |xs| ensures !lt(xs[k], x) {
        var h, y := xs[0], xs[k];
        assert lt(y, x) ==> lt(y, h);
      }
    } else {
      InsertKeepsOrder(lt, x, xs[1..]);
      var rest := InsertBy(lt, x, xs[1..]);
      forall k | 0 <= k < |rest| ensures !lt(rest[k], xs[0]) {
        assert rest[k] in multiset(rest);
        if rest[k] != x {
          assert rest[k] in multiset(xs[1..]);
          var m :| 0 <= m < |xs[1..]| && xs[1..][m] == rest[k];
          assert xs[m + 1] == rest[k];
        }
      }
    }
  }

  /** The standard library's stable sort. */
  function StableSort<T>(lt: (T, T) -> bool, xs: seq<T>): (r: seq<T>)
    ensures multiset(r) == multiset(xs)
    ensures |r| == |xs|
  {
    if xs == [] then []
    else
      var last := |xs| - 1;
      assert xs == xs[..last] + [xs[last]];
      var r := InsertBy(lt, xs[last], StableSort(lt, xs[..last]));
      assert |multiset(r)| == |multiset(xs)|;
      r
  }

  lemma {:induction false} SortOrders<T(!new)>(lt: (T, T) -> bool, xs: seq<T>)
    requires StrictOrder(lt)
    ensures NonDescending(lt, StableSort(lt, xs))
  {
    if xs != [] {
      var last := |xs| - 1;
      SortOrders(lt, xs[..last]);
      InsertKeepsOrder(lt, xs[last], StableSort(lt, xs[..last]));
    }
  }

  lemma SameElems<T>(xs: seq<T>, ys: seq<T>)
    requires multiset(xs) == multiset(ys)
    ensures Elems(xs) == Elems(ys)
  {
    forall x: T ensures x in Elems(xs) <==> x in Elems(ys) {
      assert x in xs <==> x in multiset(xs);
      assert x in ys <==> x in multiset(ys);
    }
  }

  lemma SortKeepsElems<T>(lt: (T, T) -> bool, xs: seq<T>)
    ensures Elems(StableSort(lt, xs)) == Elems(xs)
  {
    SameElems(StableSort(lt, xs), xs);
  }

  lemma NoElems<T>(xs: seq<T>)
    ensures Elems(xs) == {} <==> xs == []
  {
    if xs != [] {
      assert xs[0] in Elems(xs);
    }
  }

  lemma {:induction false} AscendingUnique<T(!new)>(lt: (T, T) -> bool, xs: seq<T>, ys: seq<T>)
    requires StrictTotal(lt)
    requires Ascending(lt, xs) && Ascending(lt, ys)
    requires Elems(xs) == Elems(ys)
    ensures xs == ys
  {
    NoElems(xs);
    NoElems(ys);
    if xs != [] {
      assert xs[0] in Elems(ys) && ys[0] in Elems(xs);
      assert xs[0] == ys[0];
      TailElems(lt, xs);
      TailElems(lt, ys);
      AscendingUnique(lt, xs[1..], ys[1..]);
      assert xs == [xs[0]] + xs[1..] && ys == [ys[0]] + ys[1..];
    }
  }

  lemma TailElems<T(!new)>(lt: (T, T) -> bool, xs: seq<T>)
    requires StrictTotal(lt) && Ascending(lt, xs) && xs != []
    ensures Elems(xs[1..]) == Elems(xs) - {xs[0]}
  {
    forall x ensures x in xs[1..] <==> x in xs && x != xs[0] {
      if x in xs && x != xs[0] {
        var i :| 0 <= i < |xs| && xs[i] == x;
        assert xs[1..][i - 1] == x;
      }
      if x in xs[1..] {
        var i :| 0 <= i < |xs[1..]| && xs[1..][i] == x;
        assert lt(xs[0], xs[i + 1]);
      }
    }
  }

  lemma {:induction false} AscendingSize<T(!new)>(lt: (T, T) -> bool, xs: seq<T>)
    requires StrictTotal(lt) && Ascending(lt, xs)
    ensures |Elems(xs)| == |xs|
  {
    if xs == [] {
      assert Elems(xs) == {};
    } else {
      TailElems(lt, xs);
      AscendingSize(lt, xs[1..]);
      assert Elems(xs) == Elems(xs[1..]) + {xs[0]};
    }
  }

  /** Sorting elements that are pairwise comparable gives an ascending sequence. */
  lemma ComparableSortAscends<T(!new)>(lt: (T, T) -> bool, xs: seq<T>)
    requires StrictOrder(lt)
    requires forall i, j | 0 <= i < j < |xs| :: lt(xs[i], xs[j]) || lt(xs[j], xs[i])
    ensures Ascending(lt, StableSort(lt, xs))
    ensures Elems(StableSort(lt, xs)) == Elems(xs)
  {
    SortKeepsElems(lt, xs);
    SortOrders(lt, xs);
    var r := StableSort(lt, xs);
    DistinctSize(xs);
    forall i, j | 0 <= i < j < |r| ensures lt(r[i], r[j]) {
      if r[i] == r[j] {
        RepeatShrinks(r, i, j);
        assert false;
      }
      assert r[i] in Elems(xs) && r[j] in Elems(xs);
      var p :| 0 <= p < |xs| && xs[p] == r[i];
      var q :| 0 <= q < |xs| && xs[q] == r[j];
      assert p < q || q < p;
    }
  }

  lemma DistinctSortAscends<T(!new)>(lt: (T, T) -> bool, xs: seq<T>)
    requires StrictTotal(lt)
    requires forall i, j | 0 <= i < j < |xs| :: xs[i] != xs[j]
    ensures Ascending(lt, StableSort(lt, xs))
    ensures Elems(StableSort(lt, xs)) == Elems(xs)
  {
    ComparableSortAscends(lt, xs);
  }

  lemma {:induction false} DistinctSize<T>(xs: seq<T>)
    requires forall i, j | 0 <= i < j < |xs| :: xs[i] != xs[j]
    ensures |Elems(xs)| == |xs|
  {
    if xs == [] {
      assert Elems(xs) == {};
    } else {
      var n := |xs| - 1;
      DistinctSize(xs[..n]);
      assert xs == xs[..n] + [xs[n]];
      assert Elems(xs) == Elems(xs[..n]) + {xs[n]};
    }
  }

  lemma {:induction false} ElemsBound<T>(xs: seq<T>)
    ensures |Elems(xs)| <= |xs|
  {
    if xs == [] {
      assert Elems(xs) == {};
    } else {
      var n := |xs| - 1;
      ElemsBound(xs[..n]);
      assert xs == xs[..n] + [xs[n]];
      assert Elems(xs) == Elems(xs[..n]) + {xs[n]};
    }
  }

  lemma RepeatShrinks<T>(xs: seq<T>, i: nat, j: nat)
    requires i < j < |xs| && xs[i] == xs[j]
    ensures |Elems(xs)| < |xs|
  {
    var rest := xs[..j] + xs[j + 1..];
    ElemsBound(rest);
    forall x ensures x in xs <==> x in rest {
      if x in xs {
        var k :| 0 <= k < |xs| && xs[k] == x;
        if k < j { assert rest[k] == x; }
        else if k == j { assert rest[i] == x; }
        else { assert rest[k - 1] == x; }
      }
    }
    assert Elems(xs) == Elems(rest);
  }

  lemma AddElem<T>(xs: seq<T>, x: T)
    ensures Elems(xs + [x]) == Elems(xs) + {x}
  {
  }

  ghost function Listed<T>(s: set<T>): (r: seq<T>)
    ensures Elems(r) == s
    ensures |r| == |s|
  {
    if s == {} then []
    else
      var x :| x in s;
      AddElem(Listed(s - {x}), x);
      Listed(s - {x}) + [x]
  }

  lemma ListedIsDistinct<T>(s: set<T>)
    ensures forall i, j | 0 <= i < j < |Listed(s)| :: Listed(s)[i] != Listed(s)[j]
  {
    var r := Listed(s);
    forall i, j | 0 <= i < j < |r| ensures r[i] != r[j] {
      if r[i] == r[j] {
        RepeatShrinks(r, i, j);
        assert false;
      }
    }
  }

  /** The one ascending enumeration of a finite set (`ORDER BY` on a key). */
  ghost function Sorted<T>(lt: (T, T) -> bool, s: set<T>): (r: seq<T>)
    ensures Elems(r) == s
    ensures |r| == |s|
  {
    SortKeepsElems(lt, Listed(s));
    StableSort(lt, Listed(s))
  }

  lemma SortedAscends<T(!new)>(lt: (T, T) -> bool, s: set<T>)
    requires StrictTotal(lt)
    ensures Ascending(lt, Sorted(lt, s))
  {
    ListedIsDistinct(s);
    DistinctSortAscends(lt, Listed(s));
  }

  lemma SortedIs<T(!new)>(lt: (T, T) -> bool, xs: seq<T>, s: set<T>)
    requires StrictTotal(lt)
    requires Ascending(lt, xs) && Elems(xs) == s
    ensures xs == Sorted(lt, s)
  {
    SortedAscends(lt, s);
    AscendingUnique(lt, xs, Sorted(lt, s));
  }

  // ------------------------------------------------ the first n of a set

  /** `first` holds the n smallest elements of `all`, or all of it when smaller. */
  ghost predicate IsFirst<T(!new)>(lt: (T, T) -> bool, first: set<T>, all: set<T>, n: nat) {
    && first <= all
    && |first| == Min(|all|, n)
    && forall x, y | x in first && y in all && y !in first :: lt(x, y)
  }

  lemma SubsetSize<T>(a: set<T>, b: set<T>)
    requires a <= b
    ensures |a| <= |b|
    ensures |a| == |b| ==> a == b
  {
    assert b == a + (b - a);
    assert |b| == |a| + |b - a|;
  }

  lemma FirstClash<T(!new)>(lt: (T, T) -> bool, x: T, y: T)
    requires StrictTotal(lt)
    ensures !(lt(x, y) && lt(y, x))
  {
    assert lt(x, y) && lt(y, x) ==> lt(x, x);
  }

  lemma FirstNested<T(!new)>(lt: (T, T) -> bool, a: set<T>, b: set<T>, all: set<T>, n: nat, m: nat)
    requires StrictTotal(lt) && n <= m
    requires IsFirst(lt, a, all, n) && IsFirst(lt, b, all, m)
    ensures a <= b
    ensures n == m ==> a == b
  {
    if !(a <= b) {
      var x :| x in a && x !in b;
      if b <= a {
        SubsetSize(b, a);
        assert false;
      } else {
        var y :| y in b && y !in a;
        FirstClash(lt, x, y);
        assert false;
      }
    }
    SubsetSize(a, b);
  }

  /** Keeping only the first n before adding an element loses nothing. */
  lemma FirstInsert<T(!new)>(lt: (T, T) -> bool, a: set<T>, b: set<T>, all: set<T>, d: T, n: nat)
    requires StrictTotal(lt)
    requires IsFirst(lt, a, all, n)
    requires IsFirst(lt, b, a + {d}, n)
    ensures IsFirst(lt, b, all + {d}, n)
  {
    SubsetSize(a, all);
    SubsetSize(a, a + {d});
    SubsetSize(all, all + {d});
    forall x, y | x in b && y in all + {d} && y !in b ensures lt(x, y) {
      if y !in a + {d} && x !in a {
        assert x == d && |b| == |a| == n;
        if a + {d} <= b {
          SubsetSize(a + {d}, b);
        }
        var z :| z in a + {d} && z !in b;
        assert lt(d, z) && lt(z, y);
      }
    }
    SubsetSize(b, a + {d});
  }

  /** The first n elements of the ascending enumeration are the first n. */
  lemma PrefixIsFirst<T(!new)>(lt: (T, T) -> bool, xs: seq<T>, n: nat)
    requires StrictTotal(lt) && Ascending(lt, xs)
    ensures IsFirst(lt, Elems(xs[..Min(|xs|, n)]), Elems(xs), n)
  {
    var k := Min(|xs|, n);
    AscendingSize(lt, xs);
    AscendingSize(lt, xs[..k]);
    forall x, y | x in xs[..k] && y in xs && y !in xs[..k] ensures lt(x, y) {
      var i :| 0 <= i < k && xs[i] == x;
      var j :| 0 <= j < |xs| && xs[j] == y;
      assert forall m | 0 <= m < k :: xs[m] == xs[..k][m];
    }
  }

  /** The last n elements of the ascending enumeration are the first n in the opposite order. */
  lemma SuffixIsFirst<T(!new)>(lt: (T, T) -> bool, gt: (T, T) -> bool, xs: seq<T>, n: nat)
    requires StrictTotal(lt) && Ascending(lt, xs)
    requires forall x, y :: gt(x, y) <==> lt(y, x)
    ensures IsFirst(gt, Elems(xs[|xs| - Min(|xs|, n)..]), Elems(xs), n)
  {
    var k := |xs| - Min(|xs|, n);
    AscendingSize(lt, xs);
    AscendingSize(lt, xs[k..]);
    assert forall m | k <= m < |xs| :: xs[m] == xs[k..][m - k];
    forall x, y | x in xs[k..] && y in xs && y !in xs[k..] ensures gt(x, y) {
      var i :| 0 <= i < |xs[k..]| && xs[k..][i] == x;
      var j :| 0 <= j < |xs| && xs[j] == y;
      assert j < k && lt(xs[j], xs[i + k]);
    }
  }

  // ------------------------------------------------- strings, byte by byte

  /** String comparison as the source language defines it: lexicographic by code point. */
  predicate StrLt(a: string, b: string) {
    if b == "" then false
    else if a == "" then true
    else if a[0] == b[0] then StrLt(a[1..], b[1..])
    else a[0] < b[0]
  }

  lemma {:induction false} StrTransitive(a: string, b: string, c: string)
    requires StrLt(a, b) && StrLt(b, c)
    ensures StrLt(a, c)
  {
    if a != "" && b != "" && c != "" && a[0] == b[0] == c[0] {
      StrTransitive(a[1..], b[1..], c[1..]);
    }
  }

  lemma {:induction false} StrTrichotomy(a: string, b: string)
    ensures !StrLt(a, a)
    ensures StrLt(a, b) || a == b || StrLt(b, a)
  {
    if a != "" {
      StrTrichotomy(a[1..], if b == "" then "" else b[1..]);
      if b != "" {
        assert a == [a[0]] + a[1..] && b == [b[0]] + b[1..];
      }
    }
  }

  lemma StrIsStrictTotal()
    ensures StrictTotal(StrLt)
  {
    forall a, b, c | StrLt(a, b) && StrLt(b, c) ensures StrLt(a, c) {
      StrTransitive(a, b, c);
    }
    forall a, b ensures !StrLt(a, a) && (StrLt(a, b) || a == b || StrLt(b, a)) {
      StrTrichotomy(a, b);
    }
  }

  /** A shared prefix does not affect the comparison; an earlier difference decides it. */
  lemma {:induction false} StrLtPrefix(p: string, a: string, b: string)
    ensures StrLt(p + a, p + b) <==> StrLt(a, b)
  {
    if p == "" {
      assert p + a == a && p + b == b;
    } else {
      assert (p + a)[1..] == p[1..] + a && (p + b)[1..] == p[1..] + b;
      StrLtPrefix(p[1..], a, b);
    }
  }

  lemma {:induction false} StrLtSuffix(a: string, b: string, s: string, t: string)
    requires |a| == |b| && StrLt(a, b)
    ensures StrLt(a + s, b + t)
  {
    assert (a + s)[0] == a[0] && (b + t)[0] == b[0];
    if a[0] == b[0] {
      assert (a + s)[1..] == a[1..] + s && (b + t)[1..] == b[1..] + t;
      StrLtSuffix(a[1..], b[1..], s, t);
    }
  }

  lemma AppendAscends<T(!new)>(lt: (T, T) -> bool, xs: seq<T>, x: T)
    requires StrictTotal(lt) && Ascending(lt, xs)
    requires xs != [] ==> lt(xs[|xs| - 1], x)
    ensures Ascending(lt, xs + [x])
  {
    forall i | 0 <= i < |xs| ensures lt(xs[i], x) {
      assert i == |xs| - 1 || lt(xs[i], xs[|xs| - 1]);
    }
  }

  /** The library's `dedup`: drop each element equal to its predecessor. */
  method Dedup<T(!new, ==)>(lt: (T, T) -> bool, xs: seq<T>) returns (r: seq<T>)
    requires StrictTotal(lt) && NonDescending(lt, xs)
    ensures r == Sorted(lt, Elems(xs))
  {
    r := [];
    for i := 0 to |xs|
      invariant Ascending(lt, r)
      invariant Elems(r) == Elems(xs[..i])
      invariant if i == 0 then r == [] else r != [] && r[|r| - 1] == xs[i - 1]
    {
      assert xs[..i + 1] == xs[..i] + [xs[i]];
      AddElem(xs[..i], xs[i]);
      if r == [] || r[|r| - 1] != xs[i] {
        if i > 0 {
          var last := xs[i - 1];
          assert !lt(xs[i], last);
          assert lt(last, xs[i]);
        }
        AppendAscends(lt, r, xs[i]);
        AddElem(r, xs[i]);
        r := r + [xs[i]];
      }
    }
    assert xs[..|xs|] == xs;
    SortedIs(lt, r, Elems(xs));
  }

  /** `sort` followed by `dedup`: the ascending enumeration of what the vector holds. */
  method SortDedup(xs: seq<string>) returns (r: seq<string>)
    ensures r == Sorted(StrLt, Elems(xs))
  {
    SortKeepsElems(StrLt, xs);
    r := Dedup(StrLt, StableSort(StrLt, xs)) by {
      StrIsStrictTotal();
      SortOrders(StrLt, xs);
    }
  }

  lemma SortedStrings(s: set<string>)
    ensures Ascending(StrLt, Sorted(StrLt, s))
  {
    StrIsStrictTotal();
    SortedAscends(StrLt, s);
  }
}
