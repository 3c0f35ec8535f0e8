/**
 Combinatorially symmetric cross-validation: the half-size subsets of the blocks, their
 enumeration, and which of them are visited as splits.
 */
module Cscv {
  import opened Prelude

  // ---------- Subsets ----------

  function Binomial(n: nat, k: nat): nat {
    if k == 0 then 1 else if n == 0 then 0 else Binomial(n - 1, k - 1) + Binomial(n - 1, k)
  }

  lemma {:induction false} BinomialTooMany(n: nat, k: nat)
    requires k > n
    ensures Binomial(n, k) == 0
  {
    if n > 0 {
      BinomialTooMany(n - 1, k - 1);
      BinomialTooMany(n - 1, k);
    }
  }

  lemma {:induction false} BinomialSymmetric(n: nat, k: nat)
    requires k <= n
    ensures Binomial(n, k) == Binomial(n, n - k)
  {
    if k == 0 {
      BinomialAll(n);
    } else if k == n {
      BinomialAll(n);
    } else {
      BinomialSymmetric(n - 1, k - 1);
      BinomialSymmetric(n - 1, k);
    }
  }

  lemma {:induction false} BinomialAll(n: nat)
    ensures Binomial(n, n) == 1
  {
    if n > 0 {
      BinomialAll(n - 1);
      BinomialTooMany(n - 1, n);
    }
  }

  /** The h-element subsets of lo..s-1 in lexicographic order, each in increasing order. */
  function Combinations(lo: int, s: int, h: nat): seq<seq<int>>
    requires lo <= s
    decreases s - lo
  {
    if h == 0 then [[]]
    else if lo == s then []
    else Prefixed(lo, Combinations(lo + 1, s, h - 1)) + Combinations(lo + 1, s, h)
  }

  predicate IsCombination(a: seq<int>, lo: int, s: int, h: nat) {
    |a| == h && StrictlyIncreasing(a) && forall x :: x in a ==> lo <= x < s
  }

  lemma {:induction false} CombinationsCount(lo: int, s: int, h: nat)
    requires lo <= s
    ensures |Combinations(lo, s, h)| == Binomial(s - lo, h)
    decreases s - lo
  {
    if h > 0 && lo < s {
      CombinationsCount(lo + 1, s, h - 1);
      CombinationsCount(lo + 1, s, h);
      PrefixedAt(lo, Combinations(lo + 1, s, h - 1));
    }
  }

  lemma PrefixIncreasing(x: int, tail: seq<int>)
    requires StrictlyIncreasing(tail) && forall y :: y in tail ==> x < y
    ensures StrictlyIncreasing([x] + tail)
    ensures forall y :: y in [x] + tail <==> y == x || y in tail
  {
    assert forall j :: 0 <= j < |tail| ==> tail[j] in tail;
  }

  lemma PrefixedCombination(lo: int, s: int, h: nat, tail: seq<int>)
    requires h > 0 && lo < s && IsCombination(tail, lo + 1, s, h - 1)
    ensures IsCombination([lo] + tail, lo, s, h)
  {
    PrefixIncreasing(lo, tail);
  }

  lemma PrefixedDistinct(x: int, tails: seq<seq<int>>, rest: seq<seq<int>>)
    requires Distinct(tails) && Distinct(rest) && forall j :: 0 <= j < |rest| ==> x !in rest[j]
    ensures Distinct(Prefixed(x, tails) + rest)
  {
    PrefixedAt(x, tails);
    var first := Prefixed(x, tails);
    forall i, j | 0 <= i < j < |first| ensures first[i] != first[j] {
      assert first[i][1..] == tails[i] && first[j][1..] == tails[j];
    }
    forall i, j | 0 <= i < |first| && 0 <= j < |rest| ensures first[i] != rest[j] {
      assert first[i][0] in first[i];
    }
  }

  /** A list of different combinations. */
  predicate AreCombinations(list: seq<seq<int>>, lo: int, s: int, h: nat) {
    Distinct(list) && forall i :: 0 <= i < |list| ==> IsCombination(list[i], lo, s, h)
  }

  lemma JoinCombinations(lo: int, s: int, h: nat, tails: seq<seq<int>>, rest: seq<seq<int>>)
    requires h > 0 && lo < s && AreCombinations(tails, lo + 1, s, h - 1) && AreCombinations(rest, lo + 1, s, h)
    ensures AreCombinations(Prefixed(lo, tails) + rest, lo, s, h)
  {
    hide Distinct;
    PrefixedAt(lo, tails);
    forall i | 0 <= i < |tails| ensures IsCombination([lo] + tails[i], lo, s, h) {
      PrefixedCombination(lo, s, h, tails[i]);
    }
    forall j | 0 <= j < |rest| ensures IsCombination(rest[j], lo, s, h) && lo !in rest[j] {
      assert IsCombination(rest[j], lo + 1, s, h);
    }
    PrefixedDistinct(lo, tails, rest);
    hide IsCombination, Prefixed;
  }

  /** What is enumerated is a combination, and no combination is enumerated twice. */
  lemma {:induction false} CombinationsAre(lo: int, s: int, h: nat)
    requires lo <= s
    ensures AreCombinations(Combinations(lo, s, h), lo, s, h)
    decreases s - lo
  {
    if h > 0 && lo < s {
      var tails, rest := Combinations(lo + 1, s, h - 1), Combinations(lo + 1, s, h);
      assert Combinations(lo, s, h) == Prefixed(lo, tails) + rest;
      hide *;
      CombinationsAre(lo + 1, s, h - 1);
      CombinationsAre(lo + 1, s, h);
      JoinCombinations(lo, s, h, tails, rest);
    }
  }

  lemma SetOfPrefixed(x: int, tail: seq<int>)
    ensures SetOf([x] + tail) == {x} + SetOf(tail)
  {
  }

  predicate Within(x: set<int>, lo: int, s: int) {
    forall e :: e in x ==> lo <= e < s
  }

  lemma NoMembers(x: set<int>)
    ensures (forall e :: e !in x) ==> |x| == 0
  {
    if forall e :: e !in x {
      assert x == {};
    }
  }

  lemma WithoutLeast(x: set<int>, lo: int, s: int)
    requires Within(x, lo, s) && |x| > 0
    ensures lo < s && Within(x - {lo}, lo + 1, s)
    ensures lo in x ==> |x - {lo}| == |x| - 1 && {lo} + (x - {lo}) == x
    ensures lo !in x ==> x - {lo} == x
  {
    NoMembers(x);
  }

  /** Every subset of the right size is enumerated. */
  lemma {:induction false} CombinationsComplete(lo: int, s: int, h: nat, x: set<int>) returns (i: nat)
    requires lo <= s && |x| == h && Within(x, lo, s)
    ensures i < |Combinations(lo, s, h)| && SetOf(Combinations(lo, s, h)[i]) == x
    decreases s - lo
  {
    if h == 0 {
      i := 0;
      assert SetOf(Combinations(lo, s, h)[i]) == {} == x;
    } else {
      WithoutLeast(x, lo, s);
      var tails, rest := Combinations(lo + 1, s, h - 1), Combinations(lo + 1, s, h);
      assert Combinations(lo, s, h) == Prefixed(lo, tails) + rest;
      hide SetOf, Combinations, Within;
      PrefixedAt(lo, tails);
      if lo in x {
        i := CombinationsComplete(lo + 1, s, h - 1, x - {lo});
        SetOfPrefixed(lo, tails[i]);
      } else {
        var j := CombinationsComplete(lo + 1, s, h, x);
        i := |tails| + j;
        assert (Prefixed(lo, tails) + rest)[i] == rest[j];
      }
    }
  }

  lemma DistinctSets(lo: int, s: int, h: nat, i: nat, j: nat)
    requires lo <= s && i < j < |Combinations(lo, s, h)|
    ensures SetOf(Combinations(lo, s, h)[i]) != SetOf(Combinations(lo, s, h)[j])
  {
    CombinationsAre(lo, s, h);
    var a, b := Combinations(lo, s, h)[i], Combinations(lo, s, h)[j];
    if SetOf(a) == SetOf(b) {
      forall t ensures t in a <==> t in b {
        assert t in SetOf(a) <==> t in SetOf(b);
      }
      SameMembersSameSequence(a, b);
    }
  }

  lemma {:induction false} IncreasingSize(a: seq<int>)
    requires StrictlyIncreasing(a)
    ensures |SetOf(a)| == |a|
  {
    if a == [] {
    } else {
      IncreasingSize(a[1..]);
      assert SetOf(a) == {a[0]} + SetOf(a[1..]);
    }
  }

  // ---------- Which splits are visited ----------

  function Range(n: nat): (r: set<int>)
    ensures forall x :: x in r <==> 0 <= x < n
    ensures |r| == n
  {
    if n == 0 then {} else Range(n - 1) + {n - 1}
  }

  /** The blocks outside a split, in increasing order. */
  function Outside(s: nat, inside: seq<int>): seq<int> {
    if s == 0 then []
    else Outside(s - 1, inside) + (if s - 1 in inside then [] else [s - 1])
  }

  lemma {:induction false} OutsideMembers(s: nat, inside: seq<int>)
    ensures forall x :: x in Outside(s, inside) <==> 0 <= x < s && x !in inside
    ensures StrictlyIncreasing(Outside(s, inside))
  {
    if s > 0 {
      OutsideMembers(s - 1, inside);
      var before := Outside(s - 1, inside);
      assert forall k :: 0 <= k < |before| ==> before[k] in before;
    }
  }

  lemma OutsideIsComplement(s: nat, inside: seq<int>)
    ensures SetOf(Outside(s, inside)) == Range(s) - SetOf(inside)
  {
    OutsideMembers(s, inside);
  }

  function Keys(halves: seq<seq<int>>): set<set<int>> {
    if halves == [] then {} else {SetOf(halves[0])} + Keys(halves[1..])
  }

  lemma {:induction false} KeysMember(halves: seq<seq<int>>, i: nat)
    requires i < |halves|
    ensures SetOf(halves[i]) in Keys(halves)
  {
    if i > 0 {
      KeysMember(halves[1..], i - 1);
    }
  }

  /** A split is skipped when it or its mirror image has been visited. */
  function Visit(s: nat, halves: seq<seq<int>>, seen: set<set<int>>): seq<seq<int>>
    decreases |halves|
  {
    if halves == [] then []
    else if SetOf(halves[0]) in seen || SetOf(Outside(s, halves[0])) in seen then Visit(s, halves[1..], seen)
    else [halves[0]] + Visit(s, halves[1..], seen + {SetOf(halves[0])})
  }

  /** The splits the loop visits. */
  function Splits(s: nat): seq<seq<int>> {
    Visit(s, Combinations(0, s, s / 2), {})
  }

  /** The half-size subsets that contain block 0, in order. */
  function WithBlockZero(s: nat): seq<seq<int>>
    requires s >= 2
  {
    Prefixed(0, Combinations(1, s, s / 2 - 1))
  }

  lemma KeysOf(halves: seq<seq<int>>)
    ensures Keys(halves) == if halves == [] then {} else {SetOf(halves[0])} + Keys(halves[1..])
  {
  }

  lemma InItsSet(s: seq<int>, x: int)
    requires x in s
    ensures x in SetOf(s)
  {
  }

  /** While the splits contain block 0 none of them or of their mirrors has been seen. */
  lemma {:induction false} VisitsFirstHalf(s: nat, first: seq<seq<int>>, rest: seq<seq<int>>, seen: set<set<int>>)
    requires forall i :: 0 <= i < |first| ==> 0 in first[i] && SetOf(first[i]) !in seen
    requires forall i, j :: 0 <= i < j < |first| ==> SetOf(first[i]) != SetOf(first[j])
    requires forall x :: x in seen ==> 0 in x
    ensures Visit(s, first + rest, seen) == first + Visit(s, rest, seen + Keys(first))
    decreases |first|
  {
    hide SetOf, Outside, Keys, Visit;
    KeysOf(first);
    if first == [] {
      assert first + rest == rest && seen + Keys(first) == seen;
    } else {
      var key, tail := SetOf(first[0]), first[1..];
      InItsSet(first[0], 0);
      assert forall i :: 0 <= i < |tail| ==> tail[i] == first[i + 1];
      VisitsNew(s, first + rest, seen);
      assert (first + rest)[1..] == tail + rest;
      VisitsFirstHalf(s, tail, rest, seen + {key});
      assert (seen + {key}) + Keys(tail) == seen + Keys(first);
      assert first == [first[0]] + tail;
    }
  }

  lemma VisitsNew(s: nat, halves: seq<seq<int>>, seen: set<set<int>>)
    requires halves != [] && 0 in halves[0] && SetOf(halves[0]) !in seen
    requires forall x :: x in seen ==> 0 in x
    ensures Visit(s, halves, seen) == [halves[0]] + Visit(s, halves[1..], seen + {SetOf(halves[0])})
  {
    OutsideMembers(s, halves[0]);
    assert 0 !in SetOf(Outside(s, halves[0]));
  }

  lemma {:induction false} SkipsMirrors(s: nat, rest: seq<seq<int>>, seen: set<set<int>>)
    requires forall i :: 0 <= i < |rest| ==> SetOf(Outside(s, rest[i])) in seen
    ensures Visit(s, rest, seen) == []
    decreases |rest|
  {
    if rest != [] {
      SkipsMirrors(s, rest[1..], seen);
    }
  }

  /** For even s the mirror of a half without block 0 is a half with it. */
  lemma MirrorIsFirstHalf(s: nat, a: seq<int>)
    requires s >= 2 && s % 2 == 0 && IsCombination(a, 1, s, s / 2)
    ensures exists i :: 0 <= i < |WithBlockZero(s)| && SetOf(WithBlockZero(s)[i]) == SetOf(Outside(s, a))
  {
    OutsideIsComplement(s, a);
    IncreasingSize(a);
    assert SetOf(a) <= Range(s);
    assert 0 !in a;
    FoundIffZero(s, Range(s) - SetOf(a));
  }

  /**
   For every even number of blocks the loop visits exactly the half-size subsets that contain
   block 0, in lexicographic order.
   */
  lemma VisitsHalvesWithBlockZero(s: nat)
    requires s >= 2 && s % 2 == 0
    ensures Splits(s) == WithBlockZero(s)
  {
    var first, rest := WithBlockZero(s), Combinations(1, s, s / 2);
    assert Combinations(0, s, s / 2) == first + rest;
    PrefixedAt(0, Combinations(1, s, s / 2 - 1));
    forall i, j | 0 <= i < j < |first| ensures SetOf(first[i]) != SetOf(first[j]) {
      DistinctSets(0, s, s / 2, i, j);
    }
    VisitsFirstHalf(s, first, rest, {});
    CombinationsAre(1, s, s / 2);
    forall j | 0 <= j < |rest| ensures SetOf(Outside(s, rest[j])) in {} + Keys(first) {
      MirrorIsFirstHalf(s, rest[j]);
      var i :| 0 <= i < |first| && SetOf(first[i]) == SetOf(Outside(s, rest[j]));
      KeysMember(first, i);
    }
    SkipsMirrors(s, rest, {} + Keys(first));
  }

  /**
   The splits are a transversal of the mirror pairs: each half-size subset is visited or its
   mirror is, never both, no split is visited twice, and there are half as many splits as
   half-size subsets.
   */
  lemma SplitsAreTransversal(s: nat, x: set<int>)
    requires s >= 2 && s % 2 == 0
    requires x <= Range(s) && |x| == s / 2
    ensures 2 * |Splits(s)| == Binomial(s, s / 2)
    ensures (exists i :: 0 <= i < |Splits(s)| && SetOf(Splits(s)[i]) == x) <==> 0 in x
    ensures (exists i :: 0 <= i < |Splits(s)| && SetOf(Splits(s)[i]) == Range(s) - x) <==> 0 !in x
    ensures forall i, j :: 0 <= i < j < |Splits(s)| ==> SetOf(Splits(s)[i]) != SetOf(Splits(s)[j])
  {
    hide Splits, SetOf, WithBlockZero, Binomial;
    VisitsHalvesWithBlockZero(s);
    SplitsHalve(s);
    SplitsDistinct(s);
    assert |Range(s) - x| == s / 2;
    FoundIffZero(s, x);
    FoundIffZero(s, Range(s) - x);
  }

  /** There are half as many splits as half-size subsets. */
  lemma SplitsHalve(s: nat)
    requires s >= 2 && s % 2 == 0
    ensures 2 * |WithBlockZero(s)| == Binomial(s, s / 2)
  {
    var h := s / 2;
    PrefixedAt(0, Combinations(1, s, h - 1));
    CombinationsCount(1, s, h - 1);
    hide Combinations, Prefixed;
    BinomialSymmetric(s - 1, h);
    assert Binomial(s, h) == Binomial(s - 1, h - 1) + Binomial(s - 1, h);
  }

  lemma SplitsDistinct(s: nat)
    requires s >= 2 && s % 2 == 0
    ensures forall i, j :: 0 <= i < j < |WithBlockZero(s)| ==> SetOf(WithBlockZero(s)[i]) != SetOf(WithBlockZero(s)[j])
  {
    var h := s / 2;
    assert Combinations(0, s, h) == WithBlockZero(s) + Combinations(1, s, h);
    forall i, j | 0 <= i < j < |WithBlockZero(s)| ensures SetOf(WithBlockZero(s)[i]) != SetOf(WithBlockZero(s)[j]) {
      DistinctSets(0, s, h, i, j);
    }
  }

  lemma RangeWithin(s: nat, x: set<int>)
    requires x <= Range(s)
    ensures Within(x, 0, s)
  {
  }

  /** Every half-size subset with block 0 is among those listed. */
  lemma FoundWithZero(s: nat, x: set<int>)
    requires s >= 2 && s % 2 == 0 && x <= Range(s) && |x| == s / 2 && 0 in x
    ensures exists i :: 0 <= i < |WithBlockZero(s)| && SetOf(WithBlockZero(s)[i]) == x
  {
    RangeWithin(s, x);
    WithoutLeast(x, 0, s);
    var tails := Combinations(1, s, s / 2 - 1);
    PrefixedAt(0, tails);
    assert WithBlockZero(s) == Prefixed(0, tails);
    hide *;
    var i := CombinationsComplete(1, s, s / 2 - 1, x - {0});
    SetOfPrefixed(0, tails[i]);
    assert SetOf(WithBlockZero(s)[i]) == x;
  }

  lemma ListedHaveZero(s: nat, i: nat)
    requires s >= 2 && i < |WithBlockZero(s)|
    ensures 0 in SetOf(WithBlockZero(s)[i])
  {
    PrefixedAt(0, Combinations(1, s, s / 2 - 1));
  }

  lemma FoundIffZero(s: nat, x: set<int>)
    requires s >= 2 && s % 2 == 0 && x <= Range(s) && |x| == s / 2
    ensures (exists i :: 0 <= i < |WithBlockZero(s)| && SetOf(WithBlockZero(s)[i]) == x) <==> 0 in x
  {
    hide *;
    if 0 in x {
      FoundWithZero(s, x);
    } else {
      forall i | 0 <= i < |WithBlockZero(s)| ensures SetOf(WithBlockZero(s)[i]) != x {
        ListedHaveZero(s, i);
      }
    }
  }
}
