/**
 Embargoed block statistics: each bar's offset within its calendar block is computed with a
 running maximum, the first bars of every block are dropped, and what is kept is pooled
 per block.
 */
module Embargo {
  import opened Prelude

  // ---------- Block labels ----------

  function Clipped(b: int, blocks: nat): int {
    if b < 0 then 0 else if b > blocks - 1 then blocks - 1 else b
  }

  /** The calendar block of a bar, clipped to the label range. */
  function BlockOf(seconds: real, span: real, blocks: nat): int
    requires span > 0.0 && blocks > 0
  {
    Clipped((seconds / span * blocks as real).Floor, blocks)
  }

  lemma QuotientGrows(a: real, b: real, span: real)
    requires span > 0.0 && a <= b
    ensures a / span <= b / span
  {
    var x, y := a / span, b / span;
    assert x * span == a && y * span == b;
    assert (y - x) * span == b - a;
  }

  lemma ProductGrows(a: real, b: real, k: real)
    requires k >= 0.0 && a <= b
    ensures a * k <= b * k
  {
    assert (b - a) * k >= 0.0;
  }

  lemma ShareOf(seconds: real, span: real, k: real)
    requires span > 0.0
    ensures seconds / span * k * span == seconds * k
  {
    var q := seconds / span;
    assert q * span == seconds;
    assert q * k * span == q * span * k;
  }

  lemma ProductOrder(a: real, b: real, span: real)
    requires span > 0.0
    ensures a <= b <==> a * span <= b * span
  {
    if a <= b {
      ProductGrows(a, b, span);
    } else {
      var gap := a - b;
      assert gap * span > 0.0;
      assert a * span == b * span + gap * span;
    }
  }

  /**
   The blocks are equal shares of the calendar: within the span a bar is in block b exactly
   when b shares of the span have passed and b + 1 have not; before it the first block counts,
   and from its end on the last.
   */
  lemma BlocksAreEqualShares(seconds: real, span: real, blocks: nat, b: int)
    requires span > 0.0 && blocks > 0
    ensures 0.0 <= seconds < span ==>
              (BlockOf(seconds, span, blocks) == b <==> b as real * span <= seconds * blocks as real < (b + 1) as real * span)
    ensures seconds < 0.0 ==> BlockOf(seconds, span, blocks) == 0
    ensures seconds >= span ==> BlockOf(seconds, span, blocks) == blocks - 1
  {
    ShareOf(seconds, span, blocks as real);
    EqualShare(seconds / span * blocks as real, seconds, span, blocks, b);
  }

  lemma EqualShare(x: real, seconds: real, span: real, blocks: nat, b: int)
    requires span > 0.0 && blocks > 0 && x * span == seconds * blocks as real
    ensures 0.0 <= seconds < span ==>
              (Clipped(x.Floor, blocks) == b <==> b as real * span <= seconds * blocks as real < (b + 1) as real * span)
    ensures seconds < 0.0 ==> Clipped(x.Floor, blocks) == 0
    ensures seconds >= span ==> Clipped(x.Floor, blocks) == blocks - 1
  {
    hide Clipped;
    var k := blocks as real;
    Compare(0.0, x, span, seconds * k);
    Compare(k, x, span, seconds * k);
    Compare(b as real, x, span, seconds * k);
    Compare((b + 1) as real, x, span, seconds * k);
    InSpan(seconds, span, k);
    ClippedFloor(x, blocks, b);
  }

  lemma Compare(b: real, x: real, span: real, scaled: real)
    requires span > 0.0 && x * span == scaled
    ensures b <= x <==> b * span <= scaled
  {
    ProductOrder(b, x, span);
  }

  lemma InSpan(seconds: real, span: real, k: real)
    requires k > 0.0
    ensures seconds < 0.0 <==> seconds * k < 0.0
    ensures seconds >= span <==> k * span <= seconds * k
  {
    ProductOrder(0.0, seconds, k);
    ProductOrder(span, seconds, k);
  }

  /** A clipped floor, for a number within the range, below it and beyond it. */
  lemma ClippedFloor(x: real, blocks: nat, b: int)
    requires blocks > 0
    ensures var clipped := Clipped(x.Floor, blocks);
            && (0.0 <= x < blocks as real ==> (clipped == b <==> b as real <= x < (b + 1) as real))
            && (x < 0.0 ==> clipped == 0)
            && (x >= blocks as real ==> clipped == blocks - 1)
  {
    FloorIs(x, b);
  }

  lemma FloorIs(x: real, b: int)
    ensures x.Floor == b <==> b as real <= x < (b + 1) as real
  {
  }

  /** Later bars are never in an earlier block, and every label is in range. */
  lemma LabelsNondecreasing(a: real, b: real, span: real, blocks: nat)
    requires span > 0.0 && blocks > 0 && a <= b
    ensures 0 <= BlockOf(a, span, blocks) <= BlockOf(b, span, blocks) < blocks
  {
    QuotientGrows(a, b, span);
    ProductGrows(a / span, b / span, blocks as real);
    FloorGrows(a / span * blocks as real, b / span * blocks as real);
  }

  lemma FloorGrows(x: real, y: real)
    requires x <= y
    ensures x.Floor <= y.Floor
  {
  }

  predicate Nondecreasing(labels: seq<int>) {
    forall i, j :: 0 <= i < j < |labels| ==> labels[i] <= labels[j]
  }

  // ---------- Offsets ----------

  /** A bar starts a run of labels when it is the first bar or its label differs from the one before. */
  predicate Starts(labels: seq<int>, i: nat)
    requires i < |labels|
  {
    i == 0 || labels[i] != labels[i - 1]
  }

  /** The latest start at or before a bar. */
  function RunStart(labels: seq<int>, i: nat): (start: nat)
    requires i < |labels|
    ensures start <= i && Starts(labels, start)
    ensures forall k :: start < k <= i ==> !Starts(labels, k)
  {
    if Starts(labels, i) then i else RunStart(labels, i - 1)
  }

  /** From its run's start on, every bar carries the same label, and none before the start belongs to the run. */
  lemma {:induction false} RunHasOneLabel(labels: seq<int>, i: nat)
    requires i < |labels|
    ensures forall k :: RunStart(labels, i) <= k <= i ==> labels[k] == labels[i]
  {
    if !Starts(labels, i) {
      RunHasOneLabel(labels, i - 1);
    }
  }

  /** For nondecreasing labels the run start is the first bar of the block. */
  lemma RunStartIsBlockStart(labels: seq<int>, i: nat)
    requires i < |labels| && Nondecreasing(labels)
    ensures labels[RunStart(labels, i)] == labels[i]
    ensures forall k :: 0 <= k < |labels| && labels[k] == labels[i] ==> RunStart(labels, i) <= k
  {
    RunHasOneLabel(labels, i);
    var start := RunStart(labels, i);
    if start > 0 {
      assert labels[start - 1] < labels[start];
    }
  }

  predicate Kept(labels: seq<int>, emb: int, i: nat)
    requires i < |labels|
  {
    i - RunStart(labels, i) >= emb
  }

  /**
   Embargo separation: two kept bars of different blocks are more than emb bars apart.
   */
  lemma KeptBarsAreSeparated(labels: seq<int>, emb: int, i: nat, j: nat)
    requires i < j < |labels| && labels[i] != labels[j]
    requires Kept(labels, emb, i) && Kept(labels, emb, j)
    ensures j - i > emb
  {
    RunHasOneLabel(labels, j);
    assert RunStart(labels, j) > i;
  }

  /** The embargo is exact: with nondecreasing labels a bar is dropped only within emb bars of its block's start. */
  lemma KeptIffPastEmbargo(labels: seq<int>, emb: int, i: nat)
    requires i < |labels| && Nondecreasing(labels)
    ensures Kept(labels, emb, i) <==> exists first :: 0 <= first <= i - emb && first <= i && labels[first] == labels[i] &&
                                        (forall k :: 0 <= k < first ==> labels[k] != labels[i])
  {
    RunStartIsBlockStart(labels, i);
    var start := RunStart(labels, i);
    if Kept(labels, emb, i) {
      assert 0 <= start <= i - emb && labels[start] == labels[i];
    }
    if exists first :: 0 <= first <= i - emb && first <= i && labels[first] == labels[i] &&
                       (forall k :: 0 <= k < first ==> labels[k] != labels[i]) {
      var first :| 0 <= first <= i - emb && first <= i && labels[first] == labels[i] &&
                   (forall k :: 0 <= k < first ==> labels[k] != labels[i]);
      assert start <= first;
      assert first <= start;
    }
  }

  // ---------- Pooling ----------

  function KeptIndices(labels: seq<int>, emb: int, n: nat): seq<nat>
    requires n <= |labels|
  {
    if n == 0 then []
    else KeptIndices(labels, emb, n - 1) + (if Kept(labels, emb, n - 1) then [n - 1] else [])
  }

  function InBlock(labels: seq<int>, b: int): nat -> bool {
    (i: nat) => i < |labels| && labels[i] == b
  }

  /** The kept bars of one block. */
  function BlockIndices(labels: seq<int>, emb: int, b: int): seq<nat> {
    Filter(KeptIndices(labels, emb, |labels|), InBlock(labels, b))
  }

  function Return(series: seq<real>): nat -> real {
    (i: nat) => if i < |series| then series[i] else 0.0
  }

  function Squared(series: seq<real>): nat -> real {
    (i: nat) => if i < |series| then series[i] * series[i] else 0.0
  }

  /** A statistic summed over the blocks below n. */
  function OverBlocks(kept: seq<nat>, labels: seq<int>, n: nat, weight: nat -> real): real {
    if n == 0 then 0.0
    else OverBlocks(kept, labels, n - 1, weight) + Sum(Filter(kept, InBlock(labels, n - 1)), weight)
  }

  /** Adding a bar to the kept ones adds its weight to exactly its own block. */
  lemma {:induction false} OverBlocksCons(kept: seq<nat>, labels: seq<int>, n: nat, weight: nat -> real)
    requires kept != [] && kept[0] < |labels| && labels[kept[0]] >= 0
    ensures OverBlocks(kept, labels, n, weight)
         == OverBlocks(kept[1..], labels, n, weight) + (if labels[kept[0]] < n then weight(kept[0]) else 0.0)
  {
    if n > 0 {
      OverBlocksCons(kept, labels, n - 1, weight);
      var rest := Filter(kept[1..], InBlock(labels, n - 1));
      assert ([kept[0]] + rest)[1..] == rest;
    }
  }

  /** The per-block statistics partition those over all kept bars. */
  lemma {:induction false} BlocksPartition(kept: seq<nat>, labels: seq<int>, n: nat, weight: nat -> real)
    requires forall i: nat :: i in kept ==> i < |labels| && 0 <= labels[i] < n
    ensures OverBlocks(kept, labels, n, weight) == Sum(kept, weight)
  {
    if kept == [] {
      NoBlocks(labels, n, weight);
    } else {
      assert kept[0] in kept;
      assert forall i: nat :: i in kept[1..] ==> i in kept;
      BlocksPartition(kept[1..], labels, n, weight);
      OverBlocksCons(kept, labels, n, weight);
    }
  }

  lemma {:induction false} NoBlocks(labels: seq<int>, n: nat, weight: nat -> real)
    ensures OverBlocks([], labels, n, weight) == 0.0
  {
    if n > 0 {
      NoBlocks(labels, n - 1, weight);
    }
  }

  lemma {:induction false} KeptInRange(labels: seq<int>, emb: int, n: nat)
    requires n <= |labels|
    ensures forall i: nat :: i in KeptIndices(labels, emb, n) <==> i < n && Kept(labels, emb, i)
  {
    if n > 0 {
      KeptInRange(labels, emb, n - 1);
    }
  }

  /** The kept flags, by the running maximum of the start positions. */
  method KeptFlags(labels: seq<int>, emb: int) returns (keep: seq<bool>)
    ensures |keep| == |labels|
    ensures forall i :: 0 <= i < |labels| ==> (keep[i] <==> Kept(labels, emb, i))
  {
    keep := [];
    var start := 0;
    for i := 0 to |labels|
      invariant |keep| == i
      invariant i > 0 ==> start == RunStart(labels, i - 1)
      invariant i == 0 ==> start == 0
      invariant forall k :: 0 <= k < i ==> (keep[k] <==> Kept(labels, emb, k))
    {
      var change := i == 0 || labels[i] != labels[i - 1];
      var candidate := if change then i else 0;
      if candidate > start {
        start := candidate;
      }
      assert start == RunStart(labels, i);
      var order := i - start;
      keep := keep + [order >= emb];
    }
  }

  /**
   Accumulates the kept returns per block into fresh arrays: each block's sum, sum of squares
   and count over its own kept bars, which together partition all kept bars.
   */
  method AccumulateBlocks(series: seq<real>, labels: seq<int>, emb: int, blocks: nat)
    returns (sumR: array<real>, sumR2: array<real>, n: array<real>)
    requires |series| == |labels|
    requires forall i :: 0 <= i < |labels| ==> 0 <= labels[i] < blocks
    ensures sumR.Length == sumR2.Length == n.Length == blocks
    ensures forall b :: 0 <= b < blocks ==>
              && sumR[b] == Sum(BlockIndices(labels, emb, b), Return(series))
              && sumR2[b] == Sum(BlockIndices(labels, emb, b), Squared(series))
              && n[b] == Sum(BlockIndices(labels, emb, b), One<nat>())
    ensures Sum(sumR[..], Itself()) == Sum(KeptIndices(labels, emb, |labels|), Return(series))
    ensures Sum(sumR2[..], Itself()) == Sum(KeptIndices(labels, emb, |labels|), Squared(series))
    ensures Sum(n[..], Itself()) == |KeptIndices(labels, emb, |labels|)| as real
  {
    hide *;
    var keep := KeptFlags(labels, emb);
    sumR := new real[blocks](i => 0.0);
    sumR2 := new real[blocks](i => 0.0);
    n := new real[blocks](i => 0.0);
    for b := 0 to blocks
      invariant forall c :: 0 <= c < b ==>
                  && sumR[c] == Sum(BlockIndices(labels, emb, c), Return(series))
                  && sumR2[c] == Sum(BlockIndices(labels, emb, c), Squared(series))
                  && n[c] == Sum(BlockIndices(labels, emb, c), One<nat>())
    {
      var s, s2, k := PoolBlock(series, labels, keep, emb, b);
      sumR[b] := s;
      sumR2[b] := s2;
      n[b] := k;
    }
    BlocksTotal(sumR[..], labels, emb, Return(series));
    BlocksTotal(sumR2[..], labels, emb, Squared(series));
    BlocksTotal(n[..], labels, emb, One<nat>());
    SumOnes(KeptIndices(labels, emb, |labels|));
  }

  lemma {:induction false} SumOnes(s: seq<nat>)
    ensures Sum(s, One<nat>()) == |s| as real
  {
    if s == [] {
    } else {
      SumOnes(s[1..]);
    }
  }

  lemma {:induction false} CellsAreBlocks(cells: seq<real>, kept: seq<nat>, labels: seq<int>, weight: nat -> real)
    requires forall b :: 0 <= b < |cells| ==> cells[b] == Sum(Filter(kept, InBlock(labels, b)), weight)
    ensures Sum(cells, Itself()) == OverBlocks(kept, labels, |cells|, weight)
  {
    if cells == [] {
    } else {
      var b := |cells| - 1;
      CellsAreBlocks(cells[..b], kept, labels, weight);
      SumLast(cells, Itself());
    }
  }

  /** Cells that hold a statistic of each block's kept bars add up to that of all kept bars. */
  lemma BlocksTotal(cells: seq<real>, labels: seq<int>, emb: int, weight: nat -> real)
    requires forall i :: 0 <= i < |labels| ==> 0 <= labels[i] < |cells|
    requires forall b :: 0 <= b < |cells| ==> cells[b] == Sum(BlockIndices(labels, emb, b), weight)
    ensures Sum(cells, Itself()) == Sum(KeptIndices(labels, emb, |labels|), weight)
  {
    var kept := KeptIndices(labels, emb, |labels|);
    KeptInRange(labels, emb, |labels|);
    forall b | 0 <= b < |cells| ensures cells[b] == Sum(Filter(kept, InBlock(labels, b)), weight) {
      assert BlockIndices(labels, emb, b) == Filter(kept, InBlock(labels, b));
    }
    CellsAreBlocks(cells, kept, labels, weight);
    BlocksPartition(kept, labels, |cells|, weight);
  }

  method PoolBlock(series: seq<real>, labels: seq<int>, keep: seq<bool>, emb: int, b: int)
    returns (sum: real, squares: real, count: real)
    requires |series| == |labels| == |keep|
    requires forall i :: 0 <= i < |labels| ==> (keep[i] <==> Kept(labels, emb, i))
    ensures sum == Sum(BlockIndices(labels, emb, b), Return(series))
    ensures squares == Sum(BlockIndices(labels, emb, b), Squared(series))
    ensures count == Sum(BlockIndices(labels, emb, b), One<nat>())
  {
    hide Sum, Filter, KeptIndices, Kept, InBlock;
    sum, squares, count := 0.0, 0.0, 0.0;
    BlockStart(labels, emb, b, Return(series));
    BlockStart(labels, emb, b, Squared(series));
    BlockStart(labels, emb, b, One<nat>());
    for i := 0 to |labels|
      invariant sum == Sum(Filter(KeptIndices(labels, emb, i), InBlock(labels, b)), Return(series))
      invariant squares == Sum(Filter(KeptIndices(labels, emb, i), InBlock(labels, b)), Squared(series))
      invariant count == Sum(Filter(KeptIndices(labels, emb, i), InBlock(labels, b)), One<nat>())
    {
      BlockSnoc(labels, emb, i, b, Return(series));
      BlockSnoc(labels, emb, i, b, Squared(series));
      BlockSnoc(labels, emb, i, b, One<nat>());
      if keep[i] && labels[i] == b {
        sum := sum + series[i];
        squares := squares + series[i] * series[i];
        count := count + 1.0;
      }
    }
  }

  lemma BlockStart(labels: seq<int>, emb: int, b: int, weight: nat -> real)
    ensures Sum(Filter(KeptIndices(labels, emb, 0), InBlock(labels, b)), weight) == 0.0
  {
  }

  lemma BlockSnoc(labels: seq<int>, emb: int, i: nat, b: int, weight: nat -> real)
    requires i < |labels|
    ensures Sum(Filter(KeptIndices(labels, emb, i + 1), InBlock(labels, b)), weight)
         == Sum(Filter(KeptIndices(labels, emb, i), InBlock(labels, b)), weight)
            + (if Kept(labels, emb, i) && labels[i] == b then weight(i) else 0.0)
  {
    var before := KeptIndices(labels, emb, i);
    FilterAppend(before, [i], InBlock(labels, b));
    SumSnoc(Filter(before, InBlock(labels, b)), i, weight);
    assert Filter([i], InBlock(labels, b)) == (if labels[i] == b then [i] else []);
    var own := Filter(before, InBlock(labels, b));
    assert before + [] == before && own + [] == own;
  }
}
