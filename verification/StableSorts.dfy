/** Stable sorting by insertion: stays(a, b) says that a may stand before b, ties included. */
module StableSorts {
  import opened Prelude

  function InsertBy<T>(sorted: seq<T>, x: T, stays: (T, T) -> bool): seq<T> {
    if sorted == [] then [x]
    else
      var n := |sorted| - 1;
      if stays(sorted[n], x) then sorted + [x] else InsertBy(sorted[..n], x, stays) + [sorted[n]]
  }

  function SortBy<T>(s: seq<T>, stays: (T, T) -> bool): seq<T> {
    if s == [] then [] else InsertBy(SortBy(s[..|s| - 1], stays), s[|s| - 1], stays)
  }

  ghost predicate TotalPreorder<T(!new)>(stays: (T, T) -> bool) {
    && (forall a, b :: stays(a, b) || stays(b, a))
    && (forall a, b, c :: stays(a, b) && stays(b, c) ==> stays(a, c))
  }

  predicate Ordered<T>(s: seq<T>, stays: (T, T) -> bool) {
    forall i, j :: 0 <= i < j < |s| ==> stays(s[i], s[j])
  }

  lemma {:induction false} InsertMembers<T>(sorted: seq<T>, x: T, stays: (T, T) -> bool)
    ensures forall y :: y in InsertBy(sorted, x, stays) <==> y == x || y in sorted
  {
    if sorted != [] {
      var n := |sorted| - 1;
      InsertMembers(sorted[..n], x, stays);
      assert forall y :: y in sorted <==> y == sorted[n] || y in sorted[..n];
    }
  }

  lemma {:induction false} InsertOrders<T(!new)>(sorted: seq<T>, x: T, stays: (T, T) -> bool)
    requires TotalPreorder(stays) && Ordered(sorted, stays)
    ensures Ordered(InsertBy(sorted, x, stays), stays)
  {
    if sorted != [] {
      var n := |sorted| - 1;
      if !stays(sorted[n], x) {
        InsertOrders(sorted[..n], x, stays);
        InsertMembers(sorted[..n], x, stays);
        var rest := InsertBy(sorted[..n], x, stays);
        forall i | 0 <= i < |rest| ensures stays(rest[i], sorted[n]) {
          assert rest[i] in rest;
        }
      }
    }
  }

  lemma {:induction false} InsertTotal<T>(sorted: seq<T>, x: T, stays: (T, T) -> bool, weight: T -> real)
    ensures Sum(InsertBy(sorted, x, stays), weight) == Sum(sorted, weight) + weight(x)
  {
    if sorted == [] {
    } else {
      var n := |sorted| - 1;
      InsertTotal(sorted[..n], x, stays, weight);
      SumLast(sorted, weight);
      SumSnoc(sorted, x, weight);
      SumSnoc(InsertBy(sorted[..n], x, stays), sorted[n], weight);
    }
  }

  lemma {:induction false} InsertKeepsTies<T>(sorted: seq<T>, x: T, stays: (T, T) -> bool, tied: T -> bool)
    requires forall a, b :: (a in sorted || a == x) && (b in sorted || b == x) && tied(a) && tied(b) ==> stays(a, b)
    ensures Filter(InsertBy(sorted, x, stays), tied) == Filter(sorted + [x], tied)
  {
    if sorted == [] {
      assert sorted + [x] == [x];
    } else {
      var n := |sorted| - 1;
      var last := sorted[n];
      if !stays(last, x) {
        InsertKeepsTies(sorted[..n], x, stays, tied);
        assert sorted == sorted[..n] + [last];
        assert Filter([last], tied) == (if tied(last) then [last] else []);
        assert Filter([x], tied) == (if tied(x) then [x] else []);
        FilterAppend(InsertBy(sorted[..n], x, stays), [last], tied);
        FilterAppend(sorted[..n], [x], tied);
        FilterAppend(sorted[..n], [last], tied);
        FilterAppend(sorted, [x], tied);
      }
    }
  }

  lemma {:induction false} SortMembers<T(!new)>(s: seq<T>, stays: (T, T) -> bool)
    ensures forall y :: y in SortBy(s, stays) <==> y in s
  {
    if s != [] {
      var n := |s| - 1;
      SortMembers(s[..n], stays);
      InsertMembers(SortBy(s[..n], stays), s[n], stays);
      assert forall y :: y in s <==> y == s[n] || y in s[..n];
    }
  }

  lemma {:induction false} SortOrders<T(!new)>(s: seq<T>, stays: (T, T) -> bool)
    requires TotalPreorder(stays)
    ensures Ordered(SortBy(s, stays), stays)
  {
    if s != [] {
      SortOrders(s[..|s| - 1], stays);
      InsertOrders(SortBy(s[..|s| - 1], stays), s[|s| - 1], stays);
    }
  }

  /** Sorting loses and duplicates nothing: every total is kept. */
  lemma {:induction false} SortTotal<T>(s: seq<T>, stays: (T, T) -> bool, weight: T -> real)
    ensures Sum(SortBy(s, stays), weight) == Sum(s, weight)
  {
    if s == [] {
    } else {
      SortTotal(s[..|s| - 1], stays, weight);
      InsertTotal(SortBy(s[..|s| - 1], stays), s[|s| - 1], stays, weight);
      SumLast(s, weight);
    }
  }

  /** Elements that are mutually tied keep their order. */
  lemma {:induction false} SortKeepsTies<T(!new)>(s: seq<T>, stays: (T, T) -> bool, tied: T -> bool)
    requires forall a, b :: a in s && b in s && tied(a) && tied(b) ==> stays(a, b)
    ensures Filter(SortBy(s, stays), tied) == Filter(s, tied)
  {
    if s == [] {
    } else {
      var n := |s| - 1;
      var sorted := SortBy(s[..n], stays);
      SortKeepsTies(s[..n], stays, tied);
      SortMembers(s[..n], stays);
      InsertKeepsTies(sorted, s[n], stays, tied);
      assert s == s[..n] + [s[n]];
      FilterAppend(sorted, [s[n]], tied);
      FilterAppend(s[..n], [s[n]], tied);
    }
  }

  /** What is in order already stays as it is. */
  lemma {:induction false} SortKeepsOrder<T>(s: seq<T>, stays: (T, T) -> bool)
    requires Ordered(s, stays)
    ensures SortBy(s, stays) == s
  {
    if s == [] {
    } else {
      var n := |s| - 1;
      SortKeepsOrder(s[..n], stays);
      assert s == s[..n] + [s[n]];
    }
  }

  /** A part picked from what is in order is in order. */
  lemma {:induction false} FilterOrdered<T(!new)>(s: seq<T>, stays: (T, T) -> bool, test: T -> bool)
    requires Ordered(s, stays)
    ensures Ordered(Filter(s, test), stays)
  {
    if s == [] {
    } else {
      FilterOrdered(s[1..], stays, test);
      FilterMembers(s[1..], test);
      var rest := Filter(s[1..], test);
      forall j | 0 <= j < |rest| ensures stays(s[0], rest[j]) {
        assert rest[j] in rest;
        var i :| 0 <= i < |s[1..]| && s[1..][i] == rest[j];
        assert s[i + 1] == rest[j];
      }
    }
  }

  lemma {:induction false} InsertKeepsDistinct<T, K>(sorted: seq<T>, x: T, stays: (T, T) -> bool, keyOf: T -> K)
    requires DistinctBy(sorted, keyOf) && forall i :: 0 <= i < |sorted| ==> keyOf(sorted[i]) != keyOf(x)
    ensures DistinctBy(InsertBy(sorted, x, stays), keyOf)
    ensures forall k :: 0 <= k < |InsertBy(sorted, x, stays)| ==>
              InsertBy(sorted, x, stays)[k] == x || InsertBy(sorted, x, stays)[k] in sorted
  {
    if sorted != [] {
      var n := |sorted| - 1;
      InsertKeepsDistinct(sorted[..n], x, stays, keyOf);
    }
  }

  /** Sorting keeps distinct keys distinct and adds no element. */
  lemma {:induction false} SortKeepsDistinct<T, K>(s: seq<T>, stays: (T, T) -> bool, keyOf: T -> K)
    requires DistinctBy(s, keyOf)
    ensures DistinctBy(SortBy(s, stays), keyOf)
    ensures forall k :: 0 <= k < |SortBy(s, stays)| ==> SortBy(s, stays)[k] in s
  {
    if s != [] {
      var n := |s| - 1;
      SortKeepsDistinct(s[..n], stays, keyOf);
      InsertKeepsDistinct(SortBy(s[..n], stays), s[n], stays, keyOf);
    }
  }
}
