/**
 Parameter grids and selection: the grid is enumerated completely and in lexicographic
 order, and the selection is a first maximum.
 */
module Grids {
  import opened Prelude
  import opened StableSorts

  // ---------- Ordering the keys ----------

  predicate LexLeq(a: string, b: string) {
    a == "" || (b != "" && (a[0] < b[0] || (a[0] == b[0] && LexLeq(a[1..], b[1..]))))
  }

  lemma {:induction false} LexTotal(a: string, b: string)
    ensures LexLeq(a, b) || LexLeq(b, a)
    ensures LexLeq(a, b) && LexLeq(b, a) ==> a == b
  {
    if a != "" && b != "" && a[0] == b[0] {
      LexTotal(a[1..], b[1..]);
      assert a == [a[0]] + a[1..] && b == [b[0]] + b[1..];
    }
  }

  /** The strings first differ at place i, where the first has the smaller character. */
  predicate SmallerAt(a: string, b: string, i: int) {
    0 <= i < |a| && i < |b| && a[..i] == b[..i] && a[i] < b[i]
  }

  lemma SmallerLater(a: string, b: string, i: int)
    requires a != "" && b != "" && a[0] == b[0]
    ensures SmallerAt(a, b, i) <==> SmallerAt(a[1..], b[1..], i - 1)
  {
    if 1 <= i <= |a| && i <= |b| {
      assert a[..i] == [a[0]] + a[1..][..i - 1] && b[..i] == [b[0]] + b[1..][..i - 1];
    }
  }

  lemma PrefixLater(a: string, b: string)
    requires a != "" && b != "" && a[0] == b[0]
    ensures a <= b <==> a[1..] <= b[1..]
  {
    assert a == [a[0]] + a[1..] && b == [b[0]] + b[1..];
  }

  /** The order of the keys: at the first place where they differ the smaller character decides, and a prefix comes first. */
  lemma {:induction false} LexLeqIff(a: string, b: string)
    ensures LexLeq(a, b) <==> a <= b || exists i :: SmallerAt(a, b, i)
  {
    if a != "" && b != "" && a[0] == b[0] {
      LexLeqIff(a[1..], b[1..]);
      PrefixLater(a, b);
      hide SmallerAt;
      if i :| SmallerAt(a[1..], b[1..], i) {
        SmallerLater(a, b, i + 1);
      }
      if i :| SmallerAt(a, b, i) {
        SmallerLater(a, b, i);
      }
    } else if a != "" && b != "" && a[0] < b[0] {
      assert SmallerAt(a, b, 0);
    }
  }

  lemma {:induction false} LexTransitive(a: string, b: string, c: string)
    requires LexLeq(a, b) && LexLeq(b, c)
    ensures LexLeq(a, c)
  {
    if a != "" && a[0] == b[0] && b[0] == c[0] {
      LexTransitive(a[1..], b[1..], c[1..]);
    }
  }

  // ---------- The Cartesian product ----------

  /** One key of the grid with its candidate values. */
  datatype Axis<V> = Axis(key: string, choices: seq<V>)

  predicate KeyLeq<V>(a: Axis<V>, b: Axis<V>) {
    LexLeq(a.key, b.key)
  }

  function PrefixedByEach<V>(choices: seq<V>, tails: seq<seq<V>>): seq<seq<V>> {
    if choices == [] then [] else Prefixed(choices[0], tails) + PrefixedByEach(choices[1..], tails)
  }

  /** All combinations of one value per axis; the last axis varies fastest. */
  function Product<V>(axes: seq<Axis<V>>): seq<seq<V>> {
    if axes == [] then [[]] else PrefixedByEach(axes[0].choices, Product(axes[1..]))
  }

  function SortedAxes<V>(grid: seq<Axis<V>>): seq<Axis<V>> {
    SortBy(grid, KeyLeq)
  }

  function Zip<V>(axes: seq<Axis<V>>, values: seq<V>): map<string, V>
    requires |axes| == |values|
  {
    if axes == [] then map[] else Zip(axes[1..], values[1..])[axes[0].key := values[0]]
  }

  /** The combinations of the i-th choice occupy the i-th block of the enumeration. */
  lemma {:induction false} BlockAt<V>(choices: seq<V>, tails: seq<seq<V>>, i: nat, k: nat)
    requires i < |choices| && k < |tails|
    ensures 0 <= i * |tails| + k < |PrefixedByEach(choices, tails)|
    ensures PrefixedByEach(choices, tails)[i * |tails| + k] == [choices[i]] + tails[k]
  {
    PrefixedAt(choices[0], tails);
    if i > 0 {
      BlockAt(choices[1..], tails, i - 1, k);
      assert i * |tails| + k == |tails| + ((i - 1) * |tails| + k);
    }
  }

  lemma {:induction false} BlocksSize<V>(choices: seq<V>, tails: seq<seq<V>>)
    ensures |PrefixedByEach(choices, tails)| == |choices| * |tails|
  {
    if choices != [] {
      PrefixedAt(choices[0], tails);
      BlocksSize(choices[1..], tails);
      assert |choices| * |tails| == |tails| + (|choices| - 1) * |tails|;
    }
  }

  function Size<V>(axes: seq<Axis<V>>): nat {
    if axes == [] then 1 else |axes[0].choices| * Size(axes[1..])
  }

  /** A choice of one index per axis. */
  predicate IsChoice<V>(axes: seq<Axis<V>>, choice: seq<nat>) {
    |choice| == |axes| && forall i :: 0 <= i < |axes| ==> choice[i] < |axes[i].choices|
  }

  function Pick<V>(axes: seq<Axis<V>>, choice: seq<nat>): (r: seq<V>)
    requires IsChoice(axes, choice)
    ensures |r| == |axes| && forall i :: 0 <= i < |axes| ==> r[i] == axes[i].choices[choice[i]]
  {
    seq(|axes|, i requires 0 <= i < |axes| => axes[i].choices[choice[i]])
  }

  /** Where a choice stands in the enumeration: its mixed-radix value, first axis most significant. */
  function Rank<V>(axes: seq<Axis<V>>, choice: seq<nat>): nat
    requires IsChoice(axes, choice)
  {
    if axes == [] then 0 else choice[0] * Size(axes[1..]) + Rank(axes[1..], choice[1..])
  }

  lemma {:induction false} ProductSize<V>(axes: seq<Axis<V>>)
    ensures |Product(axes)| == Size(axes)
  {
    if axes != [] {
      ProductSize(axes[1..]);
      BlocksSize(axes[0].choices, Product(axes[1..]));
    }
  }

  lemma RestOfChoice<V>(axes: seq<Axis<V>>, choice: seq<nat>)
    requires axes != [] && IsChoice(axes, choice)
    ensures choice[0] < |axes[0].choices| && IsChoice(axes[1..], choice[1..])
    ensures Pick(axes, choice) == [axes[0].choices[choice[0]]] + Pick(axes[1..], choice[1..])
  {
    assert forall i :: 0 <= i < |axes| - 1 ==> axes[1..][i] == axes[i + 1] && choice[1..][i] == choice[i + 1];
  }

  /** Every choice appears in the enumeration, at its rank. */
  lemma {:induction false} ProductAtRank<V>(axes: seq<Axis<V>>, choice: seq<nat>)
    requires IsChoice(axes, choice)
    ensures Rank(axes, choice) < |Product(axes)|
    ensures Product(axes)[Rank(axes, choice)] == Pick(axes, choice)
  {
    if axes != [] {
      RestOfChoice(axes, choice);
      hide IsChoice, Pick, PrefixedByEach;
      ProductAtRank(axes[1..], choice[1..]);
      ProductSize(axes[1..]);
      BlockAt(axes[0].choices, Product(axes[1..]), choice[0], Rank(axes[1..], choice[1..]));
    }
  }

  predicate LexBefore(a: seq<nat>, b: seq<nat>)
    requires |a| == |b|
  {
    a != [] && (a[0] < b[0] || (a[0] == b[0] && LexBefore(a[1..], b[1..])))
  }

  lemma NextBlock(a: nat, b: nat, size: nat)
    requires a < b
    ensures a * size + size <= b * size
  {
    TimesGrows(a + 1, b, size);
    assert (a + 1) * size == a * size + size;
  }

  lemma BlockOf(k: nat, n: nat, size: nat)
    requires k < n * size
    ensures size > 0 && k / size < n && k % size < size && k == (k / size) * size + k % size
  {
    if n <= k / size {
      TimesGrows(n, k / size, size);
    }
  }

  /** The enumeration is in lexicographic order of the choices. */
  lemma {:induction false} RankIsLexicographic<V>(axes: seq<Axis<V>>, a: seq<nat>, b: seq<nat>)
    requires IsChoice(axes, a) && IsChoice(axes, b) && LexBefore(a, b)
    ensures Rank(axes, a) < Rank(axes, b)
  {
    var size := Size(axes[1..]);
    ProductAtRank(axes[1..], a[1..]);
    ProductSize(axes[1..]);
    if a[0] < b[0] {
      NextBlock(a[0], b[0], size);
    } else {
      RankIsLexicographic(axes[1..], a[1..], b[1..]);
    }
  }

  /** Every place of the enumeration is the rank of some choice. */
  lemma {:induction false} RankIsOnto<V>(axes: seq<Axis<V>>, k: nat) returns (choice: seq<nat>)
    requires k < Size(axes)
    ensures IsChoice(axes, choice) && Rank(axes, choice) == k
  {
    if axes == [] {
      choice := [];
    } else {
      var size := Size(axes[1..]);
      BlockOf(k, |axes[0].choices|, size);
      var rest := RankIsOnto(axes[1..], k % size);
      choice := [k / size] + rest;
      assert choice[1..] == rest;
      forall i | 0 <= i < |axes| ensures choice[i] < |axes[i].choices| {
        if i > 0 { assert choice[i] == rest[i - 1] && axes[i] == axes[1..][i - 1]; }
      }
    }
  }

  function Zipped<V>(axes: seq<Axis<V>>, rows: seq<seq<V>>): seq<map<string, V>>
    requires forall k :: 0 <= k < |rows| ==> |rows[k]| == |axes|
  {
    if rows == [] then [] else [Zip(axes, rows[0])] + Zipped(axes, rows[1..])
  }

  lemma {:induction false} ProductWidth<V>(axes: seq<Axis<V>>)
    ensures forall k :: 0 <= k < |Product(axes)| ==> |Product(axes)[k]| == |axes|
  {
    forall k | 0 <= k < |Product(axes)| ensures |Product(axes)[k]| == |axes| {
      ProductSize(axes);
      var choice := RankIsOnto(axes, k);
      ProductAtRank(axes, choice);
    }
  }

  /** Every combination of the grid as a dictionary, keys in sorted order. */
  function ExpandGrid<V>(grid: seq<Axis<V>>): seq<map<string, V>> {
    var axes := SortedAxes(grid);
    ProductWidth(axes);
    Zipped(axes, Product(axes))
  }

  function AxisKey<V>(): Axis<V> -> string {
    (a: Axis<V>) => a.key
  }

  lemma {:induction false} ZipLookup<V>(axes: seq<Axis<V>>, values: seq<V>, i: nat)
    requires |axes| == |values| && i < |axes| && DistinctBy(axes, AxisKey<V>())
    ensures axes[i].key in Zip(axes, values) && Zip(axes, values)[axes[i].key] == values[i]
  {
    if i > 0 {
      assert forall j :: 0 <= j < |axes[1..]| ==> axes[1..][j] == axes[j + 1];
      assert AxisKey<V>()(axes[0]) != AxisKey<V>()(axes[i]);
      ZipLookup(axes[1..], values[1..], i - 1);
    }
  }

  lemma {:induction false} ZippedAt<V>(axes: seq<Axis<V>>, rows: seq<seq<V>>)
    requires forall k :: 0 <= k < |rows| ==> |rows[k]| == |axes|
    ensures |Zipped(axes, rows)| == |rows|
    ensures forall k :: 0 <= k < |rows| ==> Zipped(axes, rows)[k] == Zip(axes, rows[k])
  {
    if rows != [] {
      ZippedAt(axes, rows[1..]);
    }
  }

  /**
   The grid is complete and lexicographic. There is one combination per choice of an index
   for every sorted key; it stands at the choice's rank and gives each key its chosen
   value; ranks follow the lexicographic order of the choices, and their number is the
   product of the list lengths.
   */
  lemma GridIsComplete<V>(grid: seq<Axis<V>>, choice: seq<nat>)
    requires DistinctBy(grid, AxisKey<V>()) && IsChoice(SortedAxes(grid), choice)
    ensures var axes := SortedAxes(grid);
            && |ExpandGrid(grid)| == Size(axes)
            && Rank(axes, choice) < |ExpandGrid(grid)|
            && (forall i :: 0 <= i < |axes| ==>
                  && axes[i].key in ExpandGrid(grid)[Rank(axes, choice)]
                  && ExpandGrid(grid)[Rank(axes, choice)][axes[i].key] == axes[i].choices[choice[i]])
            && (forall other :: IsChoice(axes, other) && LexBefore(choice, other) ==> Rank(axes, choice) < Rank(axes, other))
  {
    var axes := SortedAxes(grid);
    SortKeepsDistinct(grid, KeyLeq, AxisKey<V>());
    ProductWidth(axes);
    ProductSize(axes);
    ProductAtRank(axes, choice);
    ZippedAt(axes, Product(axes));
    forall i | 0 <= i < |axes|
      ensures axes[i].key in ExpandGrid(grid)[Rank(axes, choice)]
      ensures ExpandGrid(grid)[Rank(axes, choice)][axes[i].key] == axes[i].choices[choice[i]]
    {
      ZipLookup(axes, Pick(axes, choice), i);
    }
    forall other | IsChoice(axes, other) && LexBefore(choice, other) ensures Rank(axes, choice) < Rank(axes, other) {
      RankIsLexicographic(axes, choice, other);
    }
  }

  /** The sorted axes hold the grid's axes, ordered by key. */
  lemma AxesAreSorted<V(!new)>(grid: seq<Axis<V>>)
    ensures Ordered(SortedAxes(grid), KeyLeq)
    ensures forall x :: x in SortedAxes(grid) <==> x in grid
  {
    assert TotalPreorder<Axis<V>>(KeyLeq) by {
      forall a: Axis<V>, b: Axis<V> ensures KeyLeq(a, b) || KeyLeq(b, a) {
        LexTotal(a.key, b.key);
      }
      forall a: Axis<V>, b: Axis<V>, c: Axis<V> | KeyLeq(a, b) && KeyLeq(b, c) ensures KeyLeq(a, c) {
        LexTransitive(a.key, b.key, c.key);
      }
    }
    SortOrders(grid, KeyLeq);
    SortMembers(grid, KeyLeq);
    forall x: Axis<V> ensures x in SortedAxes(grid) <==> x in grid {
      assert x in SortBy(grid, KeyLeq) <==> x in grid;
    }
  }

  // ---------- Selection ----------

  /** A training run's metric: failed runs have none, undefined metrics count as minus infinity. */
  datatype Score = Failed | MinusInfinity | Metric(value: real)

  /** A best index: no metric beats it, and every earlier one is strictly worse. */
  predicate FirstMaximum(scores: seq<Score>, best: nat) {
    && best < |scores| && scores[best].Metric?
    && (forall i :: 0 <= i < |scores| && scores[i].Metric? ==> scores[i].value <= scores[best].value)
    && (forall i :: 0 <= i < best && scores[i].Metric? ==> scores[i].value < scores[best].value)
  }

  /** Scores every combination and keeps the first best; None means that no combination has a metric. */
  method SelectCombo<C>(combos: seq<C>, evaluate: C -> Score) returns (best: Option<nat>, succeeded: nat)
    ensures best.None? <==> forall i :: 0 <= i < |combos| ==> !evaluate(combos[i]).Metric?
    ensures best.Some? ==> FirstMaximum(seq(|combos|, i requires 0 <= i < |combos| => evaluate(combos[i])), best.value)
    ensures succeeded == Count(combos, (c: C) => !evaluate(c).Failed?)
  {
    best, succeeded := None, 0;
    var bestValue: Score := MinusInfinity;
    ghost var test := (c: C) => !evaluate(c).Failed?;
    for k := 0 to |combos|
      invariant best.None? <==> forall i :: 0 <= i < k ==> !evaluate(combos[i]).Metric?
      invariant best.None? ==> bestValue == MinusInfinity
      invariant best.Some? ==> best.value < k && bestValue == evaluate(combos[best.value]) && bestValue.Metric?
      invariant best.Some? ==> forall i :: 0 <= i < k && evaluate(combos[i]).Metric? ==>
                  evaluate(combos[i]).value <= bestValue.value && (i < best.value ==> evaluate(combos[i]).value < bestValue.value)
      invariant succeeded == Count(combos[..k], test)
    {
      var score := evaluate(combos[k]);
      assert combos[..k + 1] == combos[..k] + [combos[k]];
      CountAppend(combos[..k], [combos[k]], test);
      if score.Failed? {
        continue;
      }
      succeeded := succeeded + 1;
      if score.Metric? && (bestValue.MinusInfinity? || score.value > bestValue.value) {
        bestValue := score;
        best := Some(k);
      }
    }
    assert combos[..|combos|] == combos;
  }

  /** There is at most one first maximum. */
  lemma FirstMaximumUnique(scores: seq<Score>, a: nat, b: nat)
    requires FirstMaximum(scores, a) && FirstMaximum(scores, b)
    ensures a == b
  {
  }
}
