/**
 The probability of backtest overfitting: on every split the in-sample winner's relative
 rank out of sample, and the share of splits where it is at most one half. The square root
 in the Sharpe ratio is a parameter that is positive on positive numbers.
 */
module Pbo {
  import opened Prelude
  import opened Cscv

  /** A per-bar Sharpe ratio, minus infinity when undefined. */
  datatype Perf = NegInf | Val(v: real)

  predicate Less(a: Perf, b: Perf) {
    b.Val? && (a.NegInf? || a.v < b.v)
  }

  /** Per configuration and block: sum of returns, sum of squared returns, number of bars. */
  datatype Stats = Stats(sumR: seq<seq<real>>, sumR2: seq<seq<real>>, n: seq<seq<real>>)

  predicate Rectangular(rows: seq<seq<real>>, configs: nat, s: nat) {
    |rows| == configs && forall c :: 0 <= c < configs ==> |rows[c]| == s
  }

  predicate WellShaped(stats: Stats, s: nat) {
    && Rectangular(stats.sumR, |stats.sumR|, s)
    && Rectangular(stats.sumR2, |stats.sumR|, s)
    && Rectangular(stats.n, |stats.sumR|, s)
  }

  function At(row: seq<real>): int -> real {
    (b: int) => if 0 <= b < |row| then row[b] else 0.0
  }

  /** A block statistic pooled over some blocks. */
  function Pooled(row: seq<real>, blocks: seq<int>): real {
    Sum(blocks, At(row))
  }

  ghost predicate PositiveRoot(root: real -> real) {
    forall x: real :: x > 0.0 ==> root(x) > 0.0
  }

  /** The variance of n returns from their sum and the sum of their squares. */
  function VarianceOf(sumR: real, sumR2: real, n: real): real
    requires n > 0.0
  {
    var mean := sumR / n;
    sumR2 / n - mean * mean
  }

  function Performance(sumR: real, sumR2: real, n: real, root: real -> real): Perf
    requires PositiveRoot(root)
  {
    if n <= 1.0 then NegInf
    else
      var mean, variance := sumR / n, VarianceOf(sumR, sumR2, n);
      if variance <= 0.0 then NegInf
      else
        assert variance * n / (n - 1.0) > 0.0 by {
          PositiveQuotient(variance, n);
        }
        Val(mean / root(variance * n / (n - 1.0)))
  }

  lemma PositiveQuotient(variance: real, n: real)
    requires variance > 0.0 && n > 1.0
    ensures variance * n / (n - 1.0) > 0.0
  {
    assert variance * n > 0.0;
    QuotientSign(variance * n, n - 1.0);
  }

  lemma QuotientSign(x: real, y: real)
    requires y > 0.0
    ensures x > 0.0 ==> x / y > 0.0
    ensures x >= 0.0 ==> x / y >= 0.0
    ensures x / y * y == x
  {
    var q := x / y;
    assert q * y == x;
    if q <= 0.0 {
      NonNegativeTimes(-q, y);
      assert (-q) * y == -x;
    }
  }

  function PerformanceOn(stats: Stats, s: nat, c: nat, blocks: seq<int>, root: real -> real): Perf
    requires WellShaped(stats, s) && c < |stats.sumR| && PositiveRoot(root)
  {
    Performance(Pooled(stats.sumR[c], blocks), Pooled(stats.sumR2[c], blocks), Pooled(stats.n[c], blocks), root)
  }

  function Performances(stats: Stats, s: nat, blocks: seq<int>, root: real -> real): (r: seq<Perf>)
    requires WellShaped(stats, s) && PositiveRoot(root)
    ensures |r| == |stats.sumR|
    ensures forall c :: 0 <= c < |r| ==> r[c] == PerformanceOn(stats, s, c, blocks, root)
  {
    seq(|stats.sumR|, c requires 0 <= c < |stats.sumR| => PerformanceOn(stats, s, c, blocks, root))
  }

  // ---------- The winner ----------

  function ArgMax(perfs: seq<Perf>): (best: nat)
    requires perfs != []
    ensures best < |perfs|
  {
    if |perfs| == 1 then 0
    else
      var n := |perfs| - 1;
      var b := ArgMax(perfs[..n]);
      if Less(perfs[b], perfs[n]) then n else b
  }

  /** The winner is the first of the best. */
  lemma {:induction false} ArgMaxIsFirstBest(perfs: seq<Perf>)
    requires perfs != []
    ensures forall i :: 0 <= i < |perfs| ==> !Less(perfs[ArgMax(perfs)], perfs[i])
    ensures forall i :: 0 <= i < ArgMax(perfs) ==> Less(perfs[i], perfs[ArgMax(perfs)])
  {
    if |perfs| > 1 {
      var n := |perfs| - 1;
      ArgMaxIsFirstBest(perfs[..n]);
      assert forall i :: 0 <= i < n ==> perfs[..n][i] == perfs[i];
    }
  }

  // ---------- The rank ----------

  function Finite(): Perf -> bool {
    (p: Perf) => p.Val?
  }

  function LowerThan(star: Perf): Perf -> bool {
    (p: Perf) => p.Val? && Less(p, star)
  }

  /** The winner's relative rank among the finite performances: 1 is best, 0 is worst. */
  function RankOf(perfs: seq<Perf>, star: nat): real
    requires star < |perfs|
  {
    var others := Count(perfs, Finite()) - 1;
    Count(perfs, LowerThan(perfs[star])) as real / (if others > 1 then others else 1) as real
  }

  lemma {:induction false} LowerAmongFinite(perfs: seq<Perf>, star: Perf)
    ensures Count(perfs, LowerThan(star)) <= Count(perfs, Finite())
    ensures star in perfs && star.Val? ==> Count(perfs, LowerThan(star)) < Count(perfs, Finite())
  {
    if perfs != [] {
      LowerAmongFinite(perfs[1..], star);
    }
  }

  /** With a minus-infinite star nothing is lower. */
  lemma {:induction false} NoneLower(perfs: seq<Perf>, star: Perf)
    requires star.NegInf?
    ensures Count(perfs, LowerThan(star)) == 0
  {
    if perfs != [] {
      NoneLower(perfs[1..], star);
    }
  }

  /** Exactly one finite performance is not lower when all others are, and conversely. */
  lemma {:induction false} AllLowerIff(perfs: seq<Perf>, star: nat)
    requires star < |perfs| && perfs[star].Val?
    ensures Count(perfs, LowerThan(perfs[star])) == Count(perfs, Finite()) - 1
            <==> forall i :: 0 <= i < |perfs| && i != star && perfs[i].Val? ==> Less(perfs[i], perfs[star])
  {
    var x := perfs[star];
    var before, after := perfs[..star], perfs[star + 1..];
    assert perfs == before + ([x] + after);
    CountAppend(before, [x] + after, LowerThan(x));
    CountAppend(before, [x] + after, Finite());
    CountAppend([x], after, LowerThan(x));
    CountAppend([x], after, Finite());
    LowerCountIff(before, x);
    LowerCountIff(after, x);
    assert Count([x], LowerThan(x)) == 0 && Count([x], Finite()) == 1;
    assert forall i :: 0 <= i < |before| ==> before[i] == perfs[i];
    assert forall i :: 0 <= i < |after| ==> after[i] == perfs[star + 1 + i];
    if forall i :: 0 <= i < |perfs| && i != star && perfs[i].Val? ==> Less(perfs[i], x) {
    } else {
      var i :| 0 <= i < |perfs| && i != star && perfs[i].Val? && !Less(perfs[i], x);
      assert if i < star then before[i] == perfs[i] else after[i - star - 1] == perfs[i];
    }
  }

  lemma {:induction false} LowerCountIff(perfs: seq<Perf>, star: Perf)
    ensures Count(perfs, LowerThan(star)) <= Count(perfs, Finite())
    ensures Count(perfs, LowerThan(star)) == Count(perfs, Finite())
            <==> forall i :: 0 <= i < |perfs| && perfs[i].Val? ==> Less(perfs[i], star)
  {
    if perfs != [] {
      LowerCountIff(perfs[1..], star);
      assert forall i :: 1 <= i < |perfs| ==> perfs[i] == perfs[1..][i - 1];
    }
  }

  /**
   Every rank lies between 0 and 1. With at least two finite performances, the star's own
   among them, it is 1 exactly when every other finite one is strictly lower, and 0 exactly
   when none is.
   */
  lemma RankInUnitInterval(perfs: seq<Perf>, star: nat)
    requires star < |perfs|
    ensures 0.0 <= RankOf(perfs, star) <= 1.0
    ensures perfs[star].Val? && Count(perfs, Finite()) >= 2 ==>
              && (RankOf(perfs, star) == 1.0 <==>
                    forall i :: 0 <= i < |perfs| && i != star && perfs[i].Val? ==> Less(perfs[i], perfs[star]))
              && (RankOf(perfs, star) == 0.0 <==> forall p :: p in perfs && p.Val? ==> !Less(p, perfs[star]))
  {
    LowerAmongFinite(perfs, perfs[star]);
    CountZero(perfs, LowerThan(perfs[star]));
    if perfs[star].NegInf? {
      NoneLower(perfs, perfs[star]);
    } else {
      AllLowerIff(perfs, star);
    }
    var lower := Count(perfs, LowerThan(perfs[star])) as real;
    var others := Count(perfs, Finite()) - 1;
    QuotientInUnit(lower, (if others > 1 then others else 1) as real);
  }

  function IsFinite(perfs: seq<Perf>): set<int> {
    set i | 0 <= i < |perfs| && perfs[i].Val?
  }

  function IsLower(perfs: seq<Perf>, star: nat): set<int>
    requires star < |perfs|
  {
    set i | 0 <= i < |perfs| && perfs[i].Val? && perfs[star].Val? && perfs[i].v < perfs[star].v
  }

  /** The rank is the number of finite performances strictly below the star's, out of the finite others. */
  lemma RankCounts(perfs: seq<Perf>, star: nat)
    requires star < |perfs|
    ensures var others := |IsFinite(perfs)| - 1;
            RankOf(perfs, star) * (if others > 1 then others else 1) as real == |IsLower(perfs, star)| as real
  {
    CountPlaces(perfs, Finite());
    CountPlaces(perfs, LowerThan(perfs[star]));
    assert Places(perfs, Finite()) == IsFinite(perfs);
    assert Places(perfs, LowerThan(perfs[star])) == IsLower(perfs, star);
    var others := |IsFinite(perfs)| - 1;
    QuotientSign(|IsLower(perfs, star)| as real, (if others > 1 then others else 1) as real);
  }

  lemma QuotientInUnit(x: real, y: real)
    requires 0.0 <= x <= y && y > 0.0
    ensures 0.0 <= x / y <= 1.0
    ensures x / y == 1.0 <==> x == y
    ensures x / y == 0.0 <==> x == 0.0
  {
    QuotientSign(x, y);
    QuotientSign(y - x, y);
    var a, b := x / y, (y - x) / y;
    assert (a + b - 1.0) * y == a * y + b * y - y;
    ZeroFactor(a + b - 1.0, y);
  }

  lemma ZeroFactor(z: real, y: real)
    requires z * y == 0.0 && y > 0.0
    ensures z == 0.0
  {
  }

  // ---------- Splits use every block once ----------

  lemma LargestIsLast(inside: seq<int>, s: int)
    requires StrictlyIncreasing(inside) && s - 1 in inside && forall x :: x in inside ==> 0 <= x < s
    ensures var init := inside[..|inside| - 1];
            inside == init + [s - 1] && StrictlyIncreasing(init) && forall x :: x in init ==> 0 <= x < s - 1
  {
    var n := |inside| - 1;
    var init := inside[..n];
    assert inside[n] == s - 1 by {
      var k :| 0 <= k < |inside| && inside[k] == s - 1;
      assert inside[n] in inside;
    }
    forall x | x in init ensures 0 <= x < s - 1 {
      var k :| 0 <= k < n && init[k] == x;
      assert x == inside[k] && x in inside;
    }
  }

  lemma NothingInside(row: seq<real>, inside: seq<int>)
    requires forall x :: x in inside ==> 0 <= x < 0
    ensures Pooled(row, inside) + Pooled(row, Outside(0, inside)) == Sum(row[..0], Itself())
  {
    assert forall i :: 0 <= i < |inside| ==> inside[i] in inside;
  }

  lemma PooledSnoc(row: seq<real>, blocks: seq<int>, b: nat)
    requires b < |row|
    ensures Pooled(row, blocks + [b]) == Pooled(row, blocks) + row[b]
  {
    SumSnoc(blocks, b, At(row));
  }

  lemma RowSnoc(row: seq<real>, s: nat)
    requires 0 < s <= |row|
    ensures Sum(row[..s], Itself()) == Sum(row[..s - 1], Itself()) + row[s - 1]
  {
    assert row[..s][..s - 1] == row[..s - 1];
    SumLast(row[..s], Itself());
  }

  lemma OutsideStep(s: nat, inside: seq<int>)
    requires s > 0
    ensures Outside(s, inside) == if s - 1 in inside then Outside(s - 1, inside) else Outside(s - 1, inside) + [s - 1]
  {
  }

  /** In-sample and out-of-sample statistics together are the statistics of all blocks. */
  lemma {:induction false} SidesPoolToAll(row: seq<real>, s: nat, inside: seq<int>)
    requires s <= |row| && StrictlyIncreasing(inside) && forall x :: x in inside ==> 0 <= x < s
    ensures Pooled(row, inside) + Pooled(row, Outside(s, inside)) == Sum(row[..s], Itself())
  {
    hide *;
    if s == 0 {
      NothingInside(row, inside);
    } else {
      RowSnoc(row, s);
      OutsideStep(s, inside);
      if s - 1 in inside {
        LargestIsLast(inside, s);
        var init := inside[..|inside| - 1];
        SidesPoolToAll(row, s - 1, init);
        OutsideIgnoresLater(s - 1, init, s - 1);
        PooledSnoc(row, init, s - 1);
      } else {
        SidesPoolToAll(row, s - 1, inside);
        PooledSnoc(row, Outside(s - 1, inside), s - 1);
      }
    }
  }

  lemma {:induction false} OutsideIgnoresLater(s: nat, inside: seq<int>, x: int)
    requires x >= s
    ensures Outside(s, inside + [x]) == Outside(s, inside)
  {
    if s > 0 {
      OutsideIgnoresLater(s - 1, inside, x);
    }
  }

  // ---------- The probability of overfitting ----------

  /** The out-of-sample rank of a split's in-sample winner. */
  function WinnerRank(stats: Stats, s: nat, split: seq<int>, root: real -> real): real
    requires WellShaped(stats, s) && stats.sumR != [] && PositiveRoot(root)
  {
    var star := ArgMax(Performances(stats, s, split, root));
    RankOf(Performances(stats, s, Outside(s, split), root), star)
  }

  /** Whether the in-sample winner of a split ranks at or below the median out of sample. */
  predicate Overfits(stats: Stats, s: nat, split: seq<int>, root: real -> real)
    requires WellShaped(stats, s) && stats.sumR != [] && PositiveRoot(root)
  {
    WinnerRank(stats, s, split, root) <= 0.5
  }

  /** The configurations whose performance over the blocks is defined. */
  function DefinedOn(stats: Stats, s: nat, blocks: seq<int>, root: real -> real): set<int>
    requires WellShaped(stats, s) && PositiveRoot(root)
  {
    set c: int | 0 <= c < |stats.sumR| && PerformanceOn(stats, s, c, blocks, root).Val?
  }

  function BelowOn(stats: Stats, s: nat, blocks: seq<int>, star: nat, root: real -> real): set<int>
    requires WellShaped(stats, s) && PositiveRoot(root) && star < |stats.sumR|
  {
    set c: int | 0 <= c < |stats.sumR| && Less(PerformanceOn(stats, s, c, blocks, root), PerformanceOn(stats, s, star, blocks, root))
                 && PerformanceOn(stats, s, c, blocks, root).Val?
  }

  /**
   A split's verdict: some configuration is the first of those that perform best on the
   split's own blocks; the rank is the share, among the others whose performance on the
   remaining blocks is defined, of those that it beats there; and the split overfits exactly
   when it beats at most half of them.
   */
  lemma WinnerRankMeans(stats: Stats, s: nat, split: seq<int>, root: real -> real) returns (star: nat)
    requires WellShaped(stats, s) && stats.sumR != [] && PositiveRoot(root)
    ensures star < |stats.sumR|
    ensures forall c :: 0 <= c < |stats.sumR| ==>
              !Less(PerformanceOn(stats, s, star, split, root), PerformanceOn(stats, s, c, split, root))
    ensures forall c :: 0 <= c < star ==>
              Less(PerformanceOn(stats, s, c, split, root), PerformanceOn(stats, s, star, split, root))
    ensures var outside := Outside(s, split);
            var others := |DefinedOn(stats, s, outside, root)| - 1;
            var beaten, of := |BelowOn(stats, s, outside, star, root)|, if others > 1 then others else 1;
            && WinnerRank(stats, s, split, root) * of as real == beaten as real
            && (Overfits(stats, s, split, root) <==> 2 * beaten <= of)
  {
    hide PerformanceOn;
    var inside, outside := Performances(stats, s, split, root), Performances(stats, s, Outside(s, split), root);
    star := ArgMax(inside);
    ArgMaxIsFirstBest(inside);
    RankCounts(outside, star);
    assert IsFinite(outside) == DefinedOn(stats, s, Outside(s, split), root);
    assert IsLower(outside, star) == BelowOn(stats, s, Outside(s, split), star, root);
    var others := |DefinedOn(stats, s, Outside(s, split), root)| - 1;
    HalfIff(WinnerRank(stats, s, split, root), |BelowOn(stats, s, Outside(s, split), star, root)|, if others > 1 then others else 1);
  }

  lemma HalfIff(rank: real, beaten: nat, of: nat)
    requires of > 0 && rank * of as real == beaten as real
    ensures rank <= 0.5 <==> 2 * beaten <= of
  {
    HalfOf(rank, of as real, beaten as real);
    HalfCast(beaten, of);
  }

  lemma HalfOf(rank: real, n: real, b: real)
    requires n > 0.0 && rank * n == b
    ensures rank <= 0.5 <==> b <= 0.5 * n
  {
    var gap := 0.5 - rank;
    assert gap * n == 0.5 * n - b;
    if gap >= 0.0 {
      NonNegativeTimes(gap, n);
    } else {
      NonNegativeTimes(-gap, n);
      assert -gap * n == -(gap * n);
    }
  }

  lemma HalfCast(k: nat, n: nat)
    ensures k as real <= 0.5 * n as real <==> 2 * k <= n
  {
    assert 2.0 * k as real == (2 * k) as real;
  }

  const RANK_MARGIN := 0.000001

  /** The odds of a rank, which is first kept away from 0 and 1. */
  function Odds(rank: real): (odds: real)
    ensures odds > 0.0
  {
    var w := Min(Max(rank, RANK_MARGIN), 1.0 - RANK_MARGIN);
    PositiveQuotientOf(w, 1.0 - w);
    w / (1.0 - w)
  }

  lemma PositiveQuotientOf(x: real, y: real)
    requires x > 0.0 && y > 0.0
    ensures x / y > 0.0
  {
    QuotientSign(x, y);
  }

  /** The odds of a rank between the margins are rank to one minus rank; beyond them those of the margin. */
  lemma OddsOfRank(rank: real)
    ensures 0.000001 <= rank <= 0.999999 ==> Odds(rank) * (1.0 - rank) == rank
    ensures rank < 0.000001 ==> Odds(rank) * 999999.0 == 1.0
    ensures rank > 0.999999 ==> Odds(rank) == 999999.0
  {
    if 0.000001 <= rank <= 0.999999 {
      QuotientSign(rank, 1.0 - rank);
    }
  }

  /** The odds are at most even exactly when the rank is at most one half. */
  lemma EvenOddsIff(rank: real)
    ensures Odds(rank) <= 1.0 <==> rank <= 0.5
  {
    var w := Min(Max(rank, RANK_MARGIN), 1.0 - RANK_MARGIN);
    QuotientAtMostOne(w, 1.0 - w);
  }

  lemma QuotientAtMostOne(x: real, y: real)
    requires x > 0.0 && y > 0.0
    ensures x / y <= 1.0 <==> x <= y
  {
    if x <= y {
      QuotientInUnit(x, y);
    } else {
      var q := x / y;
      QuotientSign(x - y, y);
      assert (q - 1.0) * y == x - y && q * y == x;
      assert (q - 1.0 - (x - y) / y) * y == 0.0;
      ZeroFactor(q - 1.0 - (x - y) / y, y);
    }
  }

  /** A logarithm as far as the referee needs one: increasing on the positive reals and zero at one. */
  ghost predicate LogLike(log: real -> real) {
    log(1.0) == 0.0 && forall x: real, y: real :: 0.0 < x < y ==> log(x) < log(y)
  }

  /** The log odds of every visited split's rank, in order. */
  function Logits(stats: Stats, s: nat, splits: seq<seq<int>>, root: real -> real, log: real -> real): seq<real>
    requires WellShaped(stats, s) && stats.sumR != [] && PositiveRoot(root)
  {
    if splits == [] then []
    else
      var n := |splits| - 1;
      Logits(stats, s, splits[..n], root, log) + [log(Odds(WinnerRank(stats, s, splits[n], root)))]
  }

  lemma {:induction false} LogitsAt(stats: Stats, s: nat, splits: seq<seq<int>>, root: real -> real, log: real -> real)
    requires WellShaped(stats, s) && stats.sumR != [] && PositiveRoot(root)
    ensures |Logits(stats, s, splits, root, log)| == |splits|
    ensures forall i :: 0 <= i < |splits| ==>
              Logits(stats, s, splits, root, log)[i] == log(Odds(WinnerRank(stats, s, splits[i], root)))
  {
    hide Odds, WinnerRank, WellShaped, PositiveRoot;
    if splits != [] {
      LogitsAt(stats, s, splits[..|splits| - 1], root, log);
    }
  }

  function AtMostZero(): real -> bool {
    (x: real) => x <= 0.0
  }

  /** The two verdicts agree: the overfit splits are exactly those whose logit is not positive. */
  lemma {:induction false} LogitsCountOverfits(stats: Stats, s: nat, splits: seq<seq<int>>, root: real -> real, log: real -> real)
    requires WellShaped(stats, s) && stats.sumR != [] && PositiveRoot(root) && LogLike(log)
    ensures Count(Logits(stats, s, splits, root, log), AtMostZero()) == OverfitCount(stats, s, splits, root)
  {
    hide WinnerRank, Odds, LogLike, Count;
    if splits == [] {
      NothingCounted(AtMostZero());
    } else {
      var n := |splits| - 1;
      var rank := WinnerRank(stats, s, splits[n], root);
      LogitsCountOverfits(stats, s, splits[..n], root, log);
      assert splits == splits[..n] + [splits[n]];
      OverfitSnoc(stats, s, splits[..n], splits[n], root);
      OneLogit(rank, log);
      CountAppend(Logits(stats, s, splits[..n], root, log), [log(Odds(rank))], AtMostZero());
    }
  }

  lemma NothingCounted(test: real -> bool)
    ensures Count([], test) == 0
  {
  }

  lemma OneLogit(rank: real, log: real -> real)
    requires LogLike(log)
    ensures Count([log(Odds(rank))], AtMostZero()) == if rank <= 0.5 then 1 else 0
  {
    EvenOddsIff(rank);
    hide Odds;
    assert log(Odds(rank)) <= 0.0 <==> Odds(rank) <= 1.0;
  }

  function OverfitCount(stats: Stats, s: nat, splits: seq<seq<int>>, root: real -> real): nat
    requires WellShaped(stats, s) && stats.sumR != [] && PositiveRoot(root)
  {
    if splits == [] then 0
    else (if Overfits(stats, s, splits[0], root) then 1 else 0) + OverfitCount(stats, s, splits[1..], root)
  }

  lemma {:induction false} OverfitAtMostAll(stats: Stats, s: nat, splits: seq<seq<int>>, root: real -> real)
    requires WellShaped(stats, s) && stats.sumR != [] && PositiveRoot(root)
    ensures OverfitCount(stats, s, splits, root) <= |splits|
  {
    if splits != [] {
      OverfitAtMostAll(stats, s, splits[1..], root);
    }
  }

  datatype PboResult = PboResult(pbo: Option<real>, nSplits: nat, s: nat, logitMean: Option<real>)

  datatype PboError = WrongShape | NoConfigs

  method FindArgMax(perfs: seq<Perf>) returns (best: nat)
    requires perfs != []
    ensures best == ArgMax(perfs)
  {
    best := 0;
    assert perfs[..1] == [perfs[0]];
    for i := 1 to |perfs|
      invariant best < i && best == ArgMax(perfs[..i])
    {
      assert perfs[..i + 1][..i] == perfs[..i];
      if Less(perfs[best], perfs[i]) {
        best := i;
      }
    }
    assert perfs[..|perfs|] == perfs;
  }

  /** The out-of-sample rank of a split's in-sample winner. */
  method RankWinner(stats: Stats, s: nat, split: seq<int>, outside: seq<int>, root: real -> real) returns (rank: real)
    requires WellShaped(stats, s) && stats.sumR != [] && PositiveRoot(root) && outside == Outside(s, split)
    ensures rank == WinnerRank(stats, s, split, root) && 0.0 <= rank <= 1.0
    ensures rank <= 0.5 <==> Overfits(stats, s, split, root)
  {
    var inSample := Performances(stats, s, split, root);
    var outOfSample := Performances(stats, s, outside, root);
    var star := FindArgMax(inSample);
    rank := RankOf(outOfSample, star);
    RankInUnitInterval(outOfSample, star);
  }

  lemma NoOverfits(stats: Stats, s: nat, root: real -> real, log: real -> real)
    requires WellShaped(stats, s) && stats.sumR != [] && PositiveRoot(root)
    ensures OverfitCount(stats, s, [], root) == 0 && Logits(stats, s, [], root, log) == []
  {
  }

  lemma LogitsSnoc(stats: Stats, s: nat, splits: seq<seq<int>>, split: seq<int>, root: real -> real, log: real -> real)
    requires WellShaped(stats, s) && stats.sumR != [] && PositiveRoot(root)
    ensures Logits(stats, s, splits + [split], root, log)
         == Logits(stats, s, splits, root, log) + [log(Odds(WinnerRank(stats, s, split, root)))]
  {
    hide Odds, WinnerRank;
    assert (splits + [split])[..|splits|] == splits;
  }

  /** One turn of the loop over the halves. */
  lemma VisitTurn(s: nat, halves: seq<seq<int>>, i: nat, seen: set<set<int>>)
    requires i < |halves|
    ensures var rest := halves[i + 1..];
            Visit(s, halves[i..], seen)
            == if SetOf(halves[i]) in seen || SetOf(Outside(s, halves[i])) in seen then Visit(s, rest, seen)
               else [halves[i]] + Visit(s, rest, seen + {SetOf(halves[i])})
  {
    assert halves[i..][1..] == halves[i + 1..];
  }

  lemma VisitEnds(s: nat, halves: seq<seq<int>>, seen: set<set<int>>)
    ensures Visit(s, halves[|halves|..], seen) == []
  {
  }

  lemma VisitStarts(s: nat)
    ensures Splits(s) == [] + Visit(s, Combinations(0, s, s / 2)[0..], {})
  {
    assert Combinations(0, s, s / 2)[0..] == Combinations(0, s, s / 2);
  }

  /** The CSCV loop: all half-size subsets in turn, skipping those whose mirror has been visited. */
  method CountOverfits(stats: Stats, s: nat, root: real -> real, log: real -> real)
    returns (below: nat, nSplits: nat, logits: seq<real>)
    requires WellShaped(stats, s) && stats.sumR != [] && PositiveRoot(root)
    ensures nSplits == |Splits(s)| && below == OverfitCount(stats, s, Splits(s), root)
    ensures logits == Logits(stats, s, Splits(s), root, log)
  {
    hide *;
    NoOverfits(stats, s, root, log);
    VisitStarts(s);
    var halves := Combinations(0, s, s / 2);
    var seen: set<set<int>> := {};
    below, nSplits, logits := 0, 0, [];
    ghost var visited: seq<seq<int>> := [];
    for i := 0 to |halves|
      invariant Splits(s) == visited + Visit(s, halves[i..], seen)
      invariant nSplits == |visited| && below == OverfitCount(stats, s, visited, root)
      invariant logits == Logits(stats, s, visited, root, log)
    {
      var split := halves[i];
      var outside := Outside(s, split);
      var key := SetOf(split);
      VisitTurn(s, halves, i, seen);
      if key in seen || SetOf(outside) in seen {
        continue;
      }
      seen := seen + {key};
      var rank := RankWinner(stats, s, split, outside, root);
      logits := logits + [log(Odds(rank))];
      if rank <= 0.5 {
        below := below + 1;
      }
      nSplits := nSplits + 1;
      LogitsSnoc(stats, s, visited, split, root, log);
      OverfitSnoc(stats, s, visited, split, root);
      assert visited + ([split] + Visit(s, halves[i + 1..], seen)) == (visited + [split]) + Visit(s, halves[i + 1..], seen);
      visited := visited + [split];
    }
    VisitEnds(s, halves, seen);
    assert Splits(s) == visited;
  }

  /** A total divided by a number of items; nothing when there are none. */
  function Mean(total: real, n: nat): (r: Option<real>)
    ensures r.Some? <==> n > 0
    ensures r.Some? ==> r.value * n as real == total
  {
    if n == 0 then None
    else
      QuotientSign(total, n as real);
      Some(total / n as real)
  }

  lemma MeanInUnit(k: nat, n: nat)
    requires k <= n && n > 0
    ensures 0.0 <= Mean(k as real, n).value <= 1.0
  {
    QuotientInUnit(k as real, n as real);
  }

  /**
   The probability of overfitting: the share of visited splits that overfit, always between
   0 and 1. For an even number of blocks the splits are half of all half-size subsets. The
   mean logit is the mean log odds of the ranks, and with a logarithm that deserves the name
   the probability is the share of logits that are not positive.
   */
  method PboCscv(stats: Stats, s: nat, blocks: nat, root: real -> real, log: real -> real)
    returns (r: Result<PboResult, PboError>)
    requires WellShaped(stats, blocks) && PositiveRoot(root)
    ensures blocks != s ==> r == Err(WrongShape)
    ensures blocks == s && stats.sumR == [] ==> r == Err(NoConfigs)
    ensures blocks == s && stats.sumR != [] ==>
              && r.Ok? && r.value.s == s && r.value.nSplits == |Splits(s)| && r.value.pbo.Some?
              && r.value.pbo.value * |Splits(s)| as real == OverfitCount(stats, s, Splits(s), root) as real
              && 0.0 <= r.value.pbo.value <= 1.0
              && r.value.logitMean.Some?
              && r.value.logitMean.value * |Splits(s)| as real == Sum(Logits(stats, s, Splits(s), root, log), Itself())
              && (LogLike(log) ==>
                    r.value.pbo.value * |Splits(s)| as real
                    == Count(Logits(stats, s, Splits(s), root, log), AtMostZero()) as real)
    ensures r.Ok? && s >= 2 && s % 2 == 0 ==> 2 * r.value.nSplits == Binomial(s, s / 2)
  {
    hide *;
    if blocks != s {
      return Err(WrongShape);
    }
    if stats.sumR == [] {
      return Err(NoConfigs);
    }
    var below, nSplits, logits := CountOverfits(stats, s, root, log);
    OverfitAtMostAll(stats, s, Splits(s), root);
    SomeSplit(s);
    MeanInUnit(below, nSplits);
    LogitsAt(stats, s, Splits(s), root, log);
    if s >= 2 && s % 2 == 0 {
      HalfOfAll(s);
    }
    if LogLike(log) {
      LogitsCountOverfits(stats, s, Splits(s), root, log);
    }
    r := Ok(PboResult(Mean(below as real, nSplits), nSplits, s, Mean(Sum(logits, Itself()), |logits|)));
  }

  /** There is always a split to visit. */
  lemma SomeSplit(s: nat)
    ensures Splits(s) != []
  {
    CombinationsCount(0, s, s / 2);
    PositiveBinomial(s, s / 2);
  }

  lemma HalfOfAll(s: nat)
    requires s >= 2 && s % 2 == 0
    ensures 2 * |Splits(s)| == Binomial(s, s / 2)
  {
    CombinationsCount(0, s, s / 2);
    PositiveBinomial(s, s / 2);
    CombinationsAre(0, s, s / 2);
    var a := Combinations(0, s, s / 2)[0];
    IncreasingSize(a);
    SplitsAreTransversal(s, SetOf(a));
  }

  lemma {:induction false} PositiveBinomial(n: nat, k: nat)
    requires k <= n
    ensures Binomial(n, k) > 0
  {
    if k > 0 {
      PositiveBinomial(n - 1, k - 1);
    }
  }

  lemma {:induction false} OverfitSnoc(stats: Stats, s: nat, splits: seq<seq<int>>, split: seq<int>, root: real -> real)
    requires WellShaped(stats, s) && stats.sumR != [] && PositiveRoot(root)
    ensures OverfitCount(stats, s, splits + [split], root)
         == OverfitCount(stats, s, splits, root) + (if Overfits(stats, s, split, root) then 1 else 0)
  {
    if splits == [] {
      assert [] + [split] == [split];
    } else {
      assert (splits + [split])[1..] == splits[1..] + [split];
      OverfitSnoc(stats, s, splits[1..], split, root);
    }
  }
}
