/**
 Trades that straddle a walk-forward cut: which of a symbol's test fills belong to the trade
 open at the cut, and when the test window still reports them as open.
 */
module Straddles {
  import opened Prelude
  import opened Types
  import opened Groups
  import opened StableSorts
  import opened Timelines
  import opened Engine
  import opened Causality
  import opened RoundTrips
  import opened Analytics
  import opened Money
  import opened Walkforward
  import opened UnitTrades

  // ---------- The trade that is open at the cut ----------

  /** How many test fills belong to the trade that holds a position at the cut: up to the first flat point, or all. */
  function Own(held: real, test: seq<Fill>): nat
    decreases |test|
  {
    if test == [] then 0
    else if held + SignedQuantity(test[0]) == 0.0 then 1
    else 1 + Own(held + SignedQuantity(test[0]), test[1..])
  }

  lemma NetCons(f: Fill, rest: seq<Fill>)
    ensures Net([f] + rest) == SignedQuantity(f) + Net(rest)
  {
    NetAppend([f], rest);
    NetSnoc([], f);
    assert [] + [f] == [f];
  }

  lemma {:induction false} OwnIsFirstFlat(held: real, test: seq<Fill>)
    ensures Own(held, test) <= |test| && (test != [] ==> Own(held, test) > 0)
    ensures forall i :: 0 < i < Own(held, test) ==> held + Net(test[..i]) != 0.0
    ensures Own(held, test) < |test| ==> held + Net(test[..Own(held, test)]) == 0.0
    decreases |test|
  {
    if test == [] {
    } else {
      var f, rest := test[0], test[1..];
      var next := held + SignedQuantity(f);
      forall i | 0 < i <= |test| ensures held + Net(test[..i]) == next + Net(rest[..i - 1]) {
        assert test[..i] == [f] + rest[..i - 1];
        NetCons(f, rest[..i - 1]);
      }
      assert rest[..0] == [] && Net([]) == 0.0;
      if next != 0.0 {
        OwnIsFirstFlat(next, rest);
      }
    }
  }

  /** The straddling trade: what was open at the cut, and its own test fills. */
  function Straddler(train: seq<Fill>, test: seq<Fill>): seq<Fill> {
    OwnIsFirstFlat(Net(train), test);
    Segment(train).open + test[..Own(Net(train), test)]
  }

  lemma PrefixOfJoin(open: seq<Fill>, own: seq<Fill>, i: nat)
    requires i <= |open| + |own|
    ensures Net((open + own)[..i]) == if i <= |open| then Net(open[..i]) else Net(open) + Net(own[..i - |open|])
  {
    if i <= |open| {
      assert (open + own)[..i] == open[..i];
    } else {
      assert (open + own)[..i] == open + own[..i - |open|];
      NetAppend(open, own[..i - |open|]);
    }
  }

  lemma JoinNotFlatInside(open: seq<Fill>, own: seq<Fill>)
    requires Net(open) != 0.0 && NeverFlatInside(open)
    requires forall k :: 0 < k < |own| ==> Net(open) + Net(own[..k]) != 0.0
    ensures NeverFlatInside(open + own) && Net(open + own) == Net(open) + Net(own)
  {
    NetAppend(open, own);
    hide Net;
    forall i | 0 < i < |open + own| ensures Net((open + own)[..i]) != 0.0 {
      PrefixOfJoin(open, own, i);
      assert i == |open| ==> open[..i] == open;
    }
  }

  lemma StraddlerNotFlatInside(train: seq<Fill>, test: seq<Fill>)
    requires Net(train) != 0.0
    ensures Own(Net(train), test) <= |test|
    ensures NeverFlatInside(Straddler(train, test)) && Straddler(train, test) != []
    ensures Net(Straddler(train, test)) == Net(train) + Net(test[..Own(Net(train), test)])
  {
    hide Segment, Net, Own, IsTrip, Concat;
    OwnIsFirstFlat(Net(train), test);
    var own, open := test[..Own(Net(train), test)], Segment(train).open;
    SegmentIsSegmentation(train);
    FlatMeansClosed(train);
    assert forall k :: 0 < k < |own| ==> own[..k] == test[..k];
    JoinNotFlatInside(open, own);
  }

  lemma SegmentationGrows(fills: seq<Fill>, s: Segments, own: seq<Fill>)
    requires IsSegmentation(fills, s) && NeverFlatInside(s.open + own) && s.open + own != []
    ensures var trade := s.open + own;
            IsSegmentation(fills + own, if Net(trade) == 0.0 then Segments(s.closed + [trade], []) else Segments(s.closed, trade))
  {
    hide Net, NeverFlatInside;
    var trade := s.open + own;
    ConcatAppend(s.closed, [trade]);
    assert Concat([trade]) == trade;
    assert Concat(s.closed) + trade == fills + own;
  }

  /** In the extraction over both sides of the cut it is one trip, closed if it nets to zero and open otherwise. */
  lemma StraddlerIsOneTrip(train: seq<Fill>, test: seq<Fill>)
    requires Net(train) != 0.0
    ensures Own(Net(train), test) <= |test|
    ensures var trade := Straddler(train, test);
            Segment(train + test[..Own(Net(train), test)])
            == if Net(trade) == 0.0 then Segments(Segment(train).closed + [trade], []) else Segments(Segment(train).closed, trade)
    ensures Net(Straddler(train, test)) != 0.0 ==> Own(Net(train), test) == |test|
  {
    hide Segment, Net, Own, IsSegmentation, NeverFlatInside;
    OwnIsFirstFlat(Net(train), test);
    StraddlerNotFlatInside(train, test);
    SegmentIsSegmentation(train);
    var own, trade := test[..Own(Net(train), test)], Straddler(train, test);
    SegmentationGrows(train, Segment(train), own);
    ExtractionIsTheSegmentation(train + own,
      if Net(trade) == 0.0 then Segments(Segment(train).closed + [trade], []) else Segments(Segment(train).closed, trade));
  }

  // ---------- One symbol ----------

  /** The open part of an extraction is the tail of the fills, and all of them exactly when no prefix nets to zero. */
  lemma OpenIsTail(test: seq<Fill>)
    ensures |Segment(test).open| <= |test| && Segment(test).open == test[|test| - |Segment(test).open|..]
    ensures |Segment(test).open| == |test| <==> forall i :: 0 < i <= |test| ==> Net(test[..i]) != 0.0
  {
    var s := Segment(test);
    SegmentIsSegmentation(test);
    assert test[..|test|] == test;
    if s.closed == [] {
      assert s.open == test;
      if test != [] {
        assert forall i :: 0 < i < |test| ==> Net(test[..i]) != 0.0;
      }
    } else {
      TripIsFlatPrefix(test, s);
      assert IsTrip(s.closed[0]);
      assert Concat(s.closed) == s.closed[0] + Concat(s.closed[1..]);
    }
  }

  /** A window reports no closed trip of a symbol if and only if its own fills never net to zero. */
  lemma WindowAllOpenIff(test: seq<Fill>)
    ensures Segment(test).closed == [] <==> forall i :: 0 < i <= |test| ==> Net(test[..i]) != 0.0
  {
    SegmentIsSegmentation(test);
    OpenIsTail(test);
    if Segment(test).closed != [] {
      TripIsFlatPrefix(test, Segment(test));
    }
  }

  /** Place p is among the last so many of n. */
  predicate AmongLast(n: nat, open: nat, p: nat) {
    p >= n - open
  }

  /** All of the straddling trade's own test fills are among the last so many of the test fills. */
  predicate StaysOpen(held: real, test: seq<Fill>, open: nat) {
    forall p :: 0 <= p < Own(held, test) ==> AmongLast(|test|, open, p)
  }

  lemma OwnStaysOpenIff(held: real, test: seq<Fill>)
    requires held != 0.0
    ensures StaysOpen(held, test, |Segment(test).open|) <==> forall i :: 0 < i <= |test| ==> Net(test[..i]) != 0.0
  {
    OwnIsFirstFlat(held, test);
    OpenIsTail(test);
    hide Segment, Net;
    if test != [] && |Segment(test).open| < |test| {
      assert 0 < Own(held, test) && !AmongLast(|test|, |Segment(test).open|, 0);
    }
  }

  // ---------- Every symbol of an extraction ----------

  /** The items of the group with a key, nothing when there is none. */
  function ItemsOf(groups: seq<Group<Symbol, Fill>>, s: Symbol): seq<Fill> {
    if groups == [] then []
    else if groups[|groups| - 1].key == s then groups[|groups| - 1].items
    else ItemsOf(groups[..|groups| - 1], s)
  }

  lemma {:induction false} ItemsOfKey(groups: seq<Group<Symbol, Fill>>, s: Symbol)
    requires DistinctBy(groups, KeyOf<Symbol, Fill>())
    ensures forall i :: 0 <= i < |groups| && groups[i].key == s ==> ItemsOf(groups, s) == groups[i].items
    ensures (forall i :: 0 <= i < |groups| ==> groups[i].key != s) ==> ItemsOf(groups, s) == []
  {
    if groups != [] {
      var n := |groups| - 1;
      ItemsOfKey(groups[..n], s);
      assert forall i :: 0 <= i < n ==> KeyOf<Symbol, Fill>()(groups[i]) != KeyOf<Symbol, Fill>()(groups[n]);
    }
  }

  lemma ItemsAreSymbolFills(fills: seq<Fill>, s: Symbol)
    ensures ItemsOf(GroupBy(fills, SymbolOf()), s) == SymbolFills(fills, s)
  {
    var groups := GroupBy(fills, SymbolOf());
    GroupByGroups(fills, SymbolOf());
    ItemsOfKey(groups, s);
    if forall i :: 0 <= i < |groups| ==> groups[i].key != s {
      NoneOfKey(groups, fills, SymbolOf(), s);
    }
  }

  lemma OpenKeepsSymbol(items: seq<Fill>, key: Symbol, s: Symbol)
    requires AllOf(key, items)
    ensures SymbolFills(ExtractSymbol(items).open, s) == if key == s then ExtractSymbol(items).open else []
  {
    var sorted := SortByTime(items);
    SortMembers(items, NoLater);
    OpenIsTail(sorted);
    var open := ExtractSymbol(items).open;
    forall f | f in open ensures f.symbol == key {
      assert f in sorted && f in SortBy(items, NoLater);
    }
    if key == s {
      FilterAll(open, HasKey(SymbolOf(), s));
    } else {
      FilterNone(open, HasKey(SymbolOf(), s));
    }
  }

  lemma NothingExtracted()
    ensures ExtractSymbol([]).open == []
  {
  }

  lemma LastGroupOpen(groups: seq<Group<Symbol, Fill>>)
    requires groups != []
    ensures var n := |groups| - 1;
            ExtractGroups(groups).open == ExtractGroups(groups[..n]).open + ExtractSymbol(groups[n].items).open
  {
    hide ExtractSymbol;
  }

  lemma LastKeyIsNew(groups: seq<Group<Symbol, Fill>>)
    requires groups != [] && DistinctBy(groups, KeyOf<Symbol, Fill>())
    ensures var n := |groups| - 1;
            DistinctBy(groups[..n], KeyOf<Symbol, Fill>()) && ItemsOf(groups[..n], groups[n].key) == []
  {
    var n := |groups| - 1;
    assert forall i :: 0 <= i < n ==> KeyOf<Symbol, Fill>()(groups[i]) != KeyOf<Symbol, Fill>()(groups[n]);
    ItemsOfKey(groups[..n], groups[n].key);
  }

  lemma {:induction false} GroupsOpen(groups: seq<Group<Symbol, Fill>>, s: Symbol)
    requires DistinctBy(groups, KeyOf<Symbol, Fill>())
    requires forall i :: 0 <= i < |groups| ==> AllOf(groups[i].key, groups[i].items)
    ensures SymbolFills(ExtractGroups(groups).open, s) == ExtractSymbol(ItemsOf(groups, s)).open
  {
    NothingExtracted();
    if groups == [] {
      assert ExtractGroups(groups).open == [];
    } else {
      LastGroupOpen(groups);
    }
    hide ExtractGroups, ExtractSymbol, DistinctBy, AllOf;
    if groups != [] {
      var n := |groups| - 1;
      var before, own := ExtractGroups(groups[..n]).open, ExtractSymbol(groups[n].items).open;
      LastKeyIsNew(groups);
      GroupsOpen(groups[..n], s);
      OpenKeepsSymbol(groups[n].items, groups[n].key, s);
      FilterAppend(before, own, HasKey(SymbolOf(), s));
    }
  }

  /** The open fills of one symbol in an extraction are those of the symbol's own extraction. */
  lemma SymbolsOpen(fills: seq<Fill>, s: Symbol)
    ensures SymbolFills(ExtractRoundTrips(fills).open, s) == ExtractSymbol(SymbolFills(fills, s)).open
  {
    var groups := GroupBy(fills, SymbolOf());
    GroupByGroups(fills, SymbolOf());
    GroupsAreOfTheirKey(fills);
    GroupsOpen(groups, s);
    ItemsAreSymbolFills(fills, s);
  }

  // ---------- Windows of runs ----------

  lemma WindowInOrder<S>(env: Env<S>, ts: int, s: Symbol)
    requires Backtest(env).Ok?
    ensures var fills := SymbolFills(FilterToWindow(Backtest(env).value, ts).fills, s); SortByTime(fills) == fills
  {
    hide Run;
    var all := Backtest(env).value.fills;
    FillsLoggedInOrder(env, |Timeline(env.market)|);
    FilterOrdered(all, NoLater, FilledAfter(ts - 1));
    FilterOrdered(Filter(all, FilledAfter(ts - 1)), NoLater, HasKey(SymbolOf(), s));
    SortKeepsOrder(SymbolFills(Filter(all, FilledAfter(ts - 1)), s), NoLater);
  }

  /** A symbol's fills in the training run and in the test window of the extended run. */
  function TrainFills<S>(env: Env<S>, start: nat, mid: nat, s: Symbol): seq<Fill>
    requires start <= mid && Backtest(WithMarket(env, SliceBars(env.market, start, mid))).Ok?
  {
    SymbolFills(Backtest(WithMarket(env, SliceBars(env.market, start, mid))).value.fills, s)
  }

  function TestFills<S>(env: Env<S>, start: nat, end: nat, ts: int, s: Symbol): seq<Fill>
    requires start <= end && Backtest(WithMarket(env, SliceBars(env.market, start, end))).Ok?
  {
    SymbolFills(FilterToWindow(Backtest(WithMarket(env, SliceBars(env.market, start, end))).value, ts).fills, s)
  }

  /** The fills of a symbol that the window's analytics leave open. */
  function WindowOpen<S>(env: Env<S>, start: nat, end: nat, ts: int, s: Symbol): seq<Fill>
    requires start <= end && Backtest(WithMarket(env, SliceBars(env.market, start, end))).Ok?
  {
    var window := FilterToWindow(Backtest(WithMarket(env, SliceBars(env.market, start, end))).value, ts);
    SymbolFills(ExtractRoundTrips(window.fills).open, s)
  }

  /**
   When the text "trades that span the boundary will count as open" holds. For any strategy,
   any window cut in time and any symbol that the training run leaves with a position: what
   the window's analytics leave open of the symbol is a tail of its test fills, and this tail
   contains all of the straddling trade's own test fills if and only if no non-empty prefix
   of the symbol's test fills nets to zero. Over both sides of the cut the symbol's fills are
   the training fills followed by the test fills.
   */
  lemma StraddlerStaysOpenIff<S>(env: Env<S>, start: nat, mid: nat, end: nat, ts: int, s: Symbol)
    requires start <= mid <= end && TimeCut(env.market, start, mid, end, ts)
    requires Backtest(WithMarket(env, SliceBars(env.market, start, end))).Ok?
    requires Backtest(WithMarket(env, SliceBars(env.market, start, mid))).Ok?
    requires Net(TrainFills(env, start, mid, s)) != 0.0
    ensures var train, test := TrainFills(env, start, mid, s), TestFills(env, start, end, ts, s);
            var open := WindowOpen(env, start, end, ts, s);
            && SymbolFills(Backtest(WithMarket(env, SliceBars(env.market, start, end))).value.fills, s) == train + test
            && |open| <= |test| && open == test[|test| - |open|..]
            && (StaysOpen(Net(train), test, |open|) <==>
                  forall i :: 0 < i <= |test| ==> Net(test[..i]) != 0.0)
  {
    hide Run, Timeline, CountUpTo, ValidateInputs, Backtest, SliceBars, ExtractRoundTrips, Segment, Net, Own, SortByTime;
    var extended := Backtest(WithMarket(env, SliceBars(env.market, start, end))).value;
    var trained := Backtest(WithMarket(env, SliceBars(env.market, start, mid))).value;
    var window := FilterToWindow(extended, ts);
    WarmUpReplaysTraining(env, start, mid, end, ts);
    FilterAppend(trained.fills, window.fills, HasKey(SymbolOf(), s));
    WindowInOrder(WithMarket(env, SliceBars(env.market, start, end)), ts, s);
    SymbolsOpen(window.fills, s);
    OpenIsTail(TestFills(env, start, end, ts, s));
    OwnStaysOpenIff(Net(TrainFills(env, start, mid, s)), TestFills(env, start, end, ts, s));
  }

  // ---------- A window in which it does not ----------

  lemma {:induction false} OneGroup(fills: seq<Fill>, s: Symbol)
    requires fills != [] && AllOf(s, fills)
    ensures GroupBy(fills, SymbolOf()) == [Group(s, fills)]
  {
    var n := |fills| - 1;
    assert fills == fills[..n] + [fills[n]];
    assert fills[n] in fills;
    if n == 0 {
      assert fills[..n] == [] && GroupBy(fills[..n], SymbolOf()) == [];
    } else {
      assert forall f :: f in fills[..n] ==> f in fills;
      OneGroup(fills[..n], s);
    }
  }

  lemma OneGroupExtraction(fills: seq<Fill>, s: Symbol)
    ensures ExtractGroups([Group(s, fills)]) == ExtractSymbol(fills)
  {
    hide ExtractSymbol;
    var g, own := [Group(s, fills)], ExtractSymbol(fills);
    assert g[..0] == [] && ExtractGroups([]) == Extraction([], []);
    assert [] + own.closed == own.closed && [] + own.open == own.open;
  }

  /** The extraction of one symbol's fills, in order already, is the summary of their segments. */
  lemma OneSymbol(fills: seq<Fill>, s: Symbol)
    requires fills != [] && AllOf(s, fills) && Ordered(fills, NoLater)
    ensures ExtractRoundTrips(fills).open == Segment(fills).open
    ensures |ExtractRoundTrips(fills).closed| == |Segment(fills).closed|
    ensures forall i :: 0 <= i < |Segment(fills).closed| ==>
              Segment(fills).closed[i] != [] && ExtractRoundTrips(fills).closed[i] == RoundTripOf(Segment(fills).closed[i])
  {
    hide GroupBy, ExtractGroups, Segment, SortBy, RoundTripOf, Summaries;
    OneGroup(fills, s);
    OneGroupExtraction(fills, s);
    SortKeepsOrder(fills, NoLater);
    SegmentIsSegmentation(fills);
    assert forall i :: 0 <= i < |Segment(fills).closed| ==> IsTrip(Segment(fills).closed[i]);
    SummariesAt(Segment(fills).closed);
  }

  lemma {:induction false} SummariesAt(trips: seq<seq<Fill>>)
    requires forall i :: 0 <= i < |trips| ==> trips[i] != []
    ensures |Summaries(trips)| == |trips|
    ensures forall i :: 0 <= i < |trips| ==> Summaries(trips)[i] == RoundTripOf(trips[i])
  {
    hide RoundTripOf;
    if trips != [] {
      SummariesAt(trips[..|trips| - 1]);
    }
  }

  lemma OneSegment(f: Fill)
    requires SignedQuantity(f) != 0.0
    ensures Segment([f]) == Segments([], [f]) && Net([f]) == SignedQuantity(f)
  {
    NetSnoc([], f);
    SegmentSnoc([], f);
    assert [] + [f] == [f];
  }

  /** Two fills that cancel are one closed trip. */
  lemma TwoCancel(f: Fill, g: Fill)
    requires SignedQuantity(f) != 0.0 && SignedQuantity(g) == -SignedQuantity(f)
    ensures Segment([f, g]) == Segments([[f, g]], [])
  {
    hide Segment, Net;
    OneSegment(f);
    NetSnoc([f], g);
    SegmentSnoc([f], g);
    assert [f] + [g] == [f, g];
  }

  lemma StraddlingSegments()
    ensures Segment([BOUGHT, SOLD, REBOUGHT]) == Segments([[BOUGHT, SOLD]], [REBOUGHT])
    ensures Segment([SOLD, REBOUGHT]) == Segments([[SOLD, REBOUGHT]], [])
  {
    hide Segment, Net;
    TwoCancel(BOUGHT, SOLD);
    TwoCancel(SOLD, REBOUGHT);
    OneSegment(REBOUGHT);
    SegmentSnoc([BOUGHT, SOLD], REBOUGHT);
    assert [BOUGHT, SOLD] + [REBOUGHT] == [BOUGHT, SOLD, REBOUGHT] && [] + [REBOUGHT] == [REBOUGHT];
  }

  lemma StraddlingRun()
    ensures SliceBars(EnvOf(Straddling()).market, 0, 4) == EnvOf(Straddling()).market
    ensures Backtest(EnvOf(Straddling())).Ok?
    ensures Backtest(EnvOf(Straddling())).value.fills == [BOUGHT, SOLD, REBOUGHT]
  {
    var env := EnvOf(Straddling());
    hide Run;
    StraddlingFills();
    ComplaintFree(env.market.frames, env.market.symbols);
    var frame := env.market.frames["X"];
    assert SliceFrame(frame, 0, 4) == frame;
    assert SliceBars(env.market, 0, 4).frames == env.market.frames;
  }

  /**
   A run and a window that begins at its third bar. The whole run closes the long that
   straddles the cut and leaves the unit bought last open; the window's own analytics report
   one closed short trip that begins with the straddling sale, and nothing open.
   */
  lemma StraddlingTradeMispaired()
    ensures SliceBars(EnvOf(Straddling()).market, 0, 4) == EnvOf(Straddling()).market
    ensures Backtest(EnvOf(Straddling())).Ok?
    ensures var whole := ExtractRoundTrips(Backtest(EnvOf(Straddling())).value.fills);
            && |whole.closed| == 1 && whole.closed[0].direction == Long && whole.closed[0].entryTs == 60
            && whole.open == [REBOUGHT]
    ensures var window := ExtractRoundTrips(FilterToWindow(Backtest(EnvOf(Straddling())).value, 120).fills);
            && |window.closed| == 1 && window.closed[0].direction == Short && window.closed[0].entryTs == 120
            && window.open == []
  {
    hide Backtest, ExtractRoundTrips, Segment, SliceBars, EnvOf;
    StraddlingRun();
    var result := Backtest(EnvOf(Straddling())).value;
    WindowOfThree(result);
    StraddlingSegments();
    OneSymbol([BOUGHT, SOLD, REBOUGHT], "X");
    OneSymbol([SOLD, REBOUGHT], "X");
    TripStarts([BOUGHT, SOLD]);
    TripStarts([SOLD, REBOUGHT]);
    hide RoundTripOf;
  }

  lemma WindowOfThree(r: BacktestResult<int>)
    requires r.fills == [BOUGHT, SOLD, REBOUGHT]
    ensures FilterToWindow(r, 120).fills == [SOLD, REBOUGHT]
  {
    var late := FilledAfter(119);
    assert [BOUGHT, SOLD, REBOUGHT] == [BOUGHT] + [SOLD, REBOUGHT];
    FilterAppend([BOUGHT], [SOLD, REBOUGHT], late);
    FilterNone([BOUGHT], late);
    FilterAll([SOLD, REBOUGHT], late);
  }

  lemma TripStarts(trip: seq<Fill>)
    requires trip != []
    ensures RoundTripOf(trip).entryTs == trip[0].filledTs
    ensures RoundTripOf(trip).direction == if trip[0].side == Sell then Short else Long
  {
    hide Sum, Filter, CollectTags;
  }
}
