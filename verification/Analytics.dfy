/**
 Round trips from a fill list: grouping by symbol, sorting by time, cutting at zero and
 summarizing. No money is lost on the way.
 */
module Analytics {
  import opened Prelude
  import opened Types
  import opened Groups
  import opened StableSorts
  import opened RoundTrips

  // ---------- Sorting by time ----------

  predicate NoLater(a: Fill, b: Fill) {
    a.filledTs <= b.filledTs
  }

  function SortByTime(fills: seq<Fill>): seq<Fill> {
    SortBy(fills, NoLater)
  }

  function FilledAt(ts: int): Fill -> bool {
    (f: Fill) => f.filledTs == ts
  }

  /** The sort orders by time and keeps simultaneous fills in their order. */
  lemma SortedByTime(fills: seq<Fill>, ts: int)
    ensures Ordered(SortByTime(fills), NoLater)
    ensures Filter(SortByTime(fills), FilledAt(ts)) == Filter(fills, FilledAt(ts))
  {
    SortOrders(fills, NoLater);
    SortKeepsTies(fills, NoLater, FilledAt(ts));
  }

  // ---------- One round trip ----------

  datatype Direction = Long | Short

  datatype RoundTrip = RoundTrip(
    symbol: Symbol,
    direction: Direction,
    entryTs: int,
    exitTs: int,
    entryAvgPrice: real,
    exitAvgPrice: real,
    quantity: real,
    grossPnl: real,
    fees: real,
    netPnl: real,
    durationSeconds: int,
    numFills: nat,
    entryTags: seq<string>)

  function OnSide(side: Side): Fill -> bool {
    (f: Fill) => f.side == side
  }

  function QuantityOf(): Fill -> real {
    (f: Fill) => f.quantity
  }

  function ValueOf(): Fill -> real {
    (f: Fill) => f.price * f.quantity
  }

  function FeeOf(): Fill -> real {
    (f: Fill) => f.fee
  }

  function AddTags(known: seq<string>, tags: seq<string>): seq<string>
    decreases |tags|
  {
    if tags == [] then known
    else AddTags(if tags[0] in known then known else known + [tags[0]], tags[1..])
  }

  function CollectTags(known: seq<string>, fills: seq<Fill>): seq<string>
    decreases |fills|
  {
    if fills == [] then known else CollectTags(AddTags(known, fills[0].tags), fills[1..])
  }

  function Average(value: real, quantity: real): real {
    if quantity > 0.0 then value / quantity else 0.0
  }

  function RoundTripOf(fills: seq<Fill>): RoundTrip
    requires fills != []
  {
    var buys, sells := Filter(fills, OnSide(Buy)), Filter(fills, OnSide(Sell));
    var buyQuantity, sellQuantity := Sum(buys, QuantityOf()), Sum(sells, QuantityOf());
    var buyValue, sellValue := Sum(buys, ValueOf()), Sum(sells, ValueOf());
    var fees := Sum(fills, FeeOf());
    var buyAverage, sellAverage := Average(buyValue, buyQuantity), Average(sellValue, sellQuantity);
    var short := fills[0].side == Sell;
    var entry, exit := fills[0].filledTs, fills[|fills| - 1].filledTs;
    RoundTrip(
      fills[0].symbol,
      if short then Short else Long,
      entry, exit,
      if short then sellAverage else buyAverage,
      if short then buyAverage else sellAverage,
      if short then sellQuantity else buyQuantity,
      sellValue - buyValue, fees, sellValue - buyValue - fees,
      exit - entry, |fills|,
      CollectTags([], if short then sells else buys))
  }

  /** The cash a fill moves at contract multiplier 1, before its fee. */
  function ProceedsOf(): Fill -> real {
    (f: Fill) => -Notional(SignedQuantity(f), f.price, 1.0)
  }

  /** The cash a fill moves at contract multiplier 1, after its fee. */
  function CashOf(): Fill -> real {
    (f: Fill) => -Notional(SignedQuantity(f), f.price, 1.0) - f.fee
  }

  lemma {:induction false} SidesMakeProceeds(fills: seq<Fill>)
    ensures Sum(Filter(fills, OnSide(Sell)), ValueOf()) - Sum(Filter(fills, OnSide(Buy)), ValueOf()) == Sum(fills, ProceedsOf())
    ensures Sum(Filter(fills, OnSide(Buy)), QuantityOf()) - Sum(Filter(fills, OnSide(Sell)), QuantityOf()) == Net(fills)
    ensures Sum(fills, CashOf()) == Sum(fills, ProceedsOf()) - Sum(fills, FeeOf())
  {
    if fills == [] {
    } else {
      var f, rest := fills[0], fills[1..];
      SidesMakeProceeds(rest);
      var buys, sells := Filter(rest, OnSide(Buy)), Filter(rest, OnSide(Sell));
      assert ([f] + buys)[1..] == buys && ([f] + sells)[1..] == sells;
      UnitNotional(SignedQuantity(f), f.price);
      assert ProceedsOf()(f) == if f.side == Sell then ValueOf()(f) else -ValueOf()(f);
    }
  }

  lemma UnitNotional(quantity: real, price: real)
    ensures Notional(quantity, price, 1.0) == price * quantity
  {
  }

  /** A trip's gross and net P&L are what its fills moved in cash, before and after fees, in either direction. */
  lemma TripIsItsCash(fills: seq<Fill>)
    requires fills != []
    ensures RoundTripOf(fills).grossPnl == Sum(fills, ProceedsOf())
    ensures RoundTripOf(fills).netPnl == Sum(fills, CashOf())
  {
    SidesMakeProceeds(fills);
  }

  /** A trip buys as much as it sells, and something. */
  lemma TripSidesMatch(fills: seq<Fill>)
    requires IsTrip(fills) && forall f :: f in fills ==> f.quantity > 0.0
    ensures Sum(Filter(fills, OnSide(Buy)), QuantityOf()) == Sum(Filter(fills, OnSide(Sell)), QuantityOf()) > 0.0
  {
    SidesMakeProceeds(fills);
    FilterMembers(fills, OnSide(Buy));
    FilterMembers(fills, OnSide(Sell));
    MemberCounts(Filter(fills, OnSide(Buy)), fills[0], QuantityOf());
    MemberCounts(Filter(fills, OnSide(Sell)), fills[0], QuantityOf());
  }

  /** A trip reports a P&L of quantity times the average spread, signed by direction. */
  predicate PaysItsSpread(t: RoundTrip) {
    var spread := t.exitAvgPrice - t.entryAvgPrice;
    t.grossPnl == (if t.direction == Long then spread else -spread) * t.quantity
  }

  /** For any fills that net to zero it does so exactly when it has a positive quantity or nothing was earned. */
  lemma PaysItsSpreadIff(fills: seq<Fill>)
    requires fills != [] && Net(fills) == 0.0
    ensures PaysItsSpread(RoundTripOf(fills)) <==> RoundTripOf(fills).quantity > 0.0 || RoundTripOf(fills).grossPnl == 0.0
  {
    SidesMakeProceeds(fills);
    hide Sum, Filter, Average, Net, CollectTags;
    var quantity := Sum(Filter(fills, OnSide(Buy)), QuantityOf());
    var bought, sold := Sum(Filter(fills, OnSide(Buy)), ValueOf()), Sum(Filter(fills, OnSide(Sell)), ValueOf());
    if quantity > 0.0 {
      SpreadTimesQuantity(bought, sold, quantity);
    } else {
      NoAverage(bought, quantity);
      NoAverage(sold, quantity);
    }
  }

  lemma NoAverage(value: real, quantity: real)
    requires quantity <= 0.0
    ensures Average(value, quantity) == 0.0
  {
  }

  /**
   It need not: an option sold at 5 and settled at 2 by a sale of minus one unit has earned 3,
   while its quantity and both its average prices are reported as zero.
   */
  lemma SettledShortHasNoSpread()
    ensures var sold := Fill(OrderId(0), "O", Sell, MARKET, 1.0, 5.0, 0.0, 60, 0, false, []);
            var settled := Fill(Expiry("O", 2), "O", Sell, MARKET, -1.0, 2.0, 0.0, 120, 120, false, []);
            var t := RoundTripOf([sold, settled]);
            && IsTrip([sold, settled])
            && t.grossPnl == 3.0 && t.quantity == t.entryAvgPrice == t.exitAvgPrice == 0.0
            && !PaysItsSpread(t)
  {
    var sold := Fill(OrderId(0), "O", Sell, MARKET, 1.0, 5.0, 0.0, 60, 0, false, []);
    var settled := Fill(Expiry("O", 2), "O", Sell, MARKET, -1.0, 2.0, 0.0, 120, 120, false, []);
    var both := [sold, settled];
    FilterAll(both, OnSide(Sell));
    FilterNone(both, OnSide(Buy));
    PairSum(sold, settled, QuantityOf());
    PairSum(sold, settled, ValueOf());
    PairSum(sold, settled, SignedOf());
    assert both[..1] == [sold];
    hide Sum, Filter, CollectTags;
    SumOfNothing(QuantityOf());
    SumOfNothing(ValueOf());
  }

  lemma PairSum(a: Fill, b: Fill, weight: Fill -> real)
    ensures Sum([a], weight) == weight(a) && Sum([a, b], weight) == weight(a) + weight(b)
  {
    assert [a][1..] == [] && [a, b][1..] == [b] && [b][1..] == [];
  }

  /** A trip of positive fills, even one that flips, has a positive quantity and pays its spread. */
  lemma TripPnlFromAverages(fills: seq<Fill>)
    requires IsTrip(fills) && forall f :: f in fills ==> f.quantity > 0.0
    ensures RoundTripOf(fills).quantity > 0.0 && PaysItsSpread(RoundTripOf(fills))
  {
    hide Sum, Filter, Average, Net, CollectTags, PaysItsSpread;
    TripSidesMatch(fills);
    PaysItsSpreadIff(fills);
  }

  lemma SpreadTimesQuantity(low: real, high: real, quantity: real)
    requires quantity > 0.0
    ensures (Average(high, quantity) - Average(low, quantity)) * quantity == high - low
  {
    var h, l := high / quantity, low / quantity;
    assert h * quantity == high && l * quantity == low;
    assert (h - l) * quantity == h * quantity - l * quantity;
  }

  lemma {:induction false} MemberCounts<T>(s: seq<T>, x: T, weight: T -> real)
    requires forall y :: y in s ==> weight(y) > 0.0
    ensures x in s ==> Sum(s, weight) > 0.0
  {
    if s == [] {
    } else {
      SumNonNegative(s[1..], weight);
    }
  }

  // ---------- Tags ----------

  lemma {:induction false} AddTagsAddsEach(known: seq<string>, tags: seq<string>)
    requires Distinct(known)
    ensures Distinct(AddTags(known, tags))
    ensures known <= AddTags(known, tags)
    ensures forall t :: t in AddTags(known, tags) <==> t in known || t in tags
    decreases |tags|
  {
    if tags == [] {
    } else {
      AddTagsAddsEach(if tags[0] in known then known else known + [tags[0]], tags[1..]);
      assert forall t :: t in tags <==> t == tags[0] || t in tags[1..];
    }
  }

  /** Entry tags are the tags of the given fills, each once, those already known first. */
  lemma {:induction false} CollectTagsCollects(known: seq<string>, fills: seq<Fill>)
    requires Distinct(known)
    ensures Distinct(CollectTags(known, fills)) && known <= CollectTags(known, fills)
    ensures forall t :: t in CollectTags(known, fills) <==> t in known || exists f :: f in fills && t in f.tags
    decreases |fills|
  {
    if fills == [] {
    } else {
      AddTagsAddsEach(known, fills[0].tags);
      CollectTagsCollects(AddTags(known, fills[0].tags), fills[1..]);
      assert forall f :: f in fills <==> f == fills[0] || f in fills[1..];
    }
  }

  // ---------- Extraction over all symbols ----------

  datatype Extraction = Extraction(closed: seq<RoundTrip>, open: seq<Fill>)

  function SymbolOf(): Fill -> Symbol {
    (f: Fill) => f.symbol
  }

  function Summaries(trips: seq<seq<Fill>>): seq<RoundTrip>
    requires forall i :: 0 <= i < |trips| ==> trips[i] != []
  {
    if trips == [] then []
    else Summaries(trips[..|trips| - 1]) + [RoundTripOf(trips[|trips| - 1])]
  }

  function ExtractSymbol(fills: seq<Fill>): Extraction {
    SegmentIsSegmentation(SortByTime(fills));
    var s := Segment(SortByTime(fills));
    assert forall i :: 0 <= i < |s.closed| ==> IsTrip(s.closed[i]);
    Extraction(Summaries(s.closed), s.open)
  }

  function ExtractGroups(groups: seq<Group<Symbol, Fill>>): Extraction {
    if groups == [] then Extraction([], [])
    else
      var n := |groups| - 1;
      var before, own := ExtractGroups(groups[..n]), ExtractSymbol(groups[n].items);
      Extraction(before.closed + own.closed, before.open + own.open)
  }

  function ExtractRoundTrips(fills: seq<Fill>): Extraction {
    ExtractGroups(GroupBy(fills, SymbolOf()))
  }

  function NetOf(): RoundTrip -> real {
    (t: RoundTrip) => t.netPnl
  }

  /** What an extraction accounts for: a weight of its closed trips and a weight of its open fills. */
  function Accounted(e: Extraction, tripWeight: RoundTrip -> real, fillWeight: Fill -> real): real {
    Sum(e.closed, tripWeight) + Sum(e.open, fillWeight)
  }

  predicate AllOf(symbol: Symbol, fills: seq<Fill>) {
    forall f :: f in fills ==> f.symbol == symbol
  }

  /** A trip of one symbol weighs as much as its fills. */
  ghost predicate WeighsItsFills(tripWeight: RoundTrip -> real, fillWeight: Fill -> real) {
    forall trip: seq<Fill> :: trip != [] && AllOf(trip[0].symbol, trip) ==> tripWeight(RoundTripOf(trip)) == Sum(trip, fillWeight)
  }

  lemma {:induction false} SummariesTotal(trips: seq<seq<Fill>>, tripWeight: RoundTrip -> real, fillWeight: Fill -> real)
    requires forall i :: 0 <= i < |trips| ==> trips[i] != [] && tripWeight(RoundTripOf(trips[i])) == Sum(trips[i], fillWeight)
    ensures Sum(Summaries(trips), tripWeight) == Sum(Concat(trips), fillWeight)
  {
    hide RoundTripOf, Sum;
    if trips == [] {
      SumOfNothing(tripWeight);
      SumOfNothing(fillWeight);
    } else {
      var n := |trips| - 1;
      ConcatLast(trips);
      SummariesTotal(trips[..n], tripWeight, fillWeight);
      SumSnoc(Summaries(trips[..n]), RoundTripOf(trips[n]), tripWeight);
      SumAppend(Concat(trips[..n]), trips[n], fillWeight);
    }
  }

  lemma {:induction false} PartsOfConcat(segments: seq<seq<Fill>>, i: nat, f: Fill)
    requires i < |segments| && f in segments[i]
    ensures f in Concat(segments)
  {
    if i > 0 {
      PartsOfConcat(segments[1..], i - 1, f);
    }
  }

  /** The trips cut out of one symbol's fills are of that symbol. */
  lemma SegmentsKeepSymbol(fills: seq<Fill>, s: Symbol)
    requires AllOf(s, fills)
    ensures forall i :: 0 <= i < |Segment(fills).closed| ==> Segment(fills).closed[i] != [] && AllOf(s, Segment(fills).closed[i])
  {
    SegmentIsSegmentation(fills);
    var g := Segment(fills);
    hide Segment;
    forall i | 0 <= i < |g.closed| ensures g.closed[i] != [] && AllOf(s, g.closed[i]) {
      assert IsTrip(g.closed[i]);
      forall f | f in g.closed[i] ensures f.symbol == s {
        PartsOfConcat(g.closed, i, f);
        assert f in Concat(g.closed) + g.open;
      }
    }
  }

  lemma SortKeepsSymbol(fills: seq<Fill>, s: Symbol)
    requires AllOf(s, fills)
    ensures AllOf(s, SortByTime(fills))
  {
    SortMembers(fills, NoLater);
    forall f | f in SortByTime(fills) ensures f.symbol == s {
      assert f in SortBy(fills, NoLater);
    }
  }

  lemma SegmentsWeigh(fills: seq<Fill>, s: Symbol, tripWeight: RoundTrip -> real, fillWeight: Fill -> real)
    requires AllOf(s, fills) && WeighsItsFills(tripWeight, fillWeight)
    ensures forall i :: 0 <= i < |Segment(fills).closed| ==>
              && Segment(fills).closed[i] != []
              && tripWeight(RoundTripOf(Segment(fills).closed[i])) == Sum(Segment(fills).closed[i], fillWeight)
  {
    hide RoundTripOf, Sum, Segment;
    SegmentsKeepSymbol(fills, s);
    var closed := Segment(fills).closed;
    forall i | 0 <= i < |closed| ensures closed[i] != [] && tripWeight(RoundTripOf(closed[i])) == Sum(closed[i], fillWeight) {
      var trip := closed[i];
      assert AllOf(s, trip) && trip[0] in trip;
      assert AllOf(trip[0].symbol, trip);
    }
  }

  lemma ExtractSymbolTotal(fills: seq<Fill>, s: Symbol, tripWeight: RoundTrip -> real, fillWeight: Fill -> real)
    requires AllOf(s, fills) && WeighsItsFills(tripWeight, fillWeight)
    ensures Accounted(ExtractSymbol(fills), tripWeight, fillWeight) == Sum(fills, fillWeight)
  {
    hide Segment, Sum, Concat, RoundTripOf, Summaries, WeighsItsFills;
    var sorted := SortByTime(fills);
    SortTotal(fills, NoLater, fillWeight);
    SortKeepsSymbol(fills, s);
    SegmentIsSegmentation(sorted);
    SegmentsWeigh(sorted, s, tripWeight, fillWeight);
    var g := Segment(sorted);
    SummariesTotal(g.closed, tripWeight, fillWeight);
    SumAppend(Concat(g.closed), g.open, fillWeight);
  }

  lemma AccountedJoins(a: Extraction, b: Extraction, tripWeight: RoundTrip -> real, fillWeight: Fill -> real)
    ensures Accounted(Extraction(a.closed + b.closed, a.open + b.open), tripWeight, fillWeight)
         == Accounted(a, tripWeight, fillWeight) + Accounted(b, tripWeight, fillWeight)
  {
    SumAppend(a.closed, b.closed, tripWeight);
    SumAppend(a.open, b.open, fillWeight);
  }

  lemma {:induction false} ExtractGroupsTotal(groups: seq<Group<Symbol, Fill>>, tripWeight: RoundTrip -> real, fillWeight: Fill -> real)
    requires WeighsItsFills(tripWeight, fillWeight)
    requires forall i :: 0 <= i < |groups| ==> AllOf(groups[i].key, groups[i].items)
    ensures Accounted(ExtractGroups(groups), tripWeight, fillWeight) == Sum(groups, GroupTotal(fillWeight))
  {
    if groups == [] {
    } else {
      var n := |groups| - 1;
      hide Sum, ExtractSymbol, Accounted, WeighsItsFills, AllOf;
      ExtractGroupsTotal(groups[..n], tripWeight, fillWeight);
      ExtractSymbolTotal(groups[n].items, groups[n].key, tripWeight, fillWeight);
      AccountedJoins(ExtractGroups(groups[..n]), ExtractSymbol(groups[n].items), tripWeight, fillWeight);
      SumLast(groups, GroupTotal(fillWeight));
    }
  }

  lemma GroupsAreOfTheirKey(fills: seq<Fill>)
    ensures forall i :: 0 <= i < |GroupBy(fills, SymbolOf())| ==>
              AllOf(GroupBy(fills, SymbolOf())[i].key, GroupBy(fills, SymbolOf())[i].items)
  {
    var groups := GroupBy(fills, SymbolOf());
    GroupByGroups(fills, SymbolOf());
    forall i | 0 <= i < |groups| ensures AllOf(groups[i].key, groups[i].items) {
      FilterMembers(fills, HasKey(SymbolOf(), groups[i].key));
    }
  }

  /**
   Whenever trips weigh as much as their fills, the closed trips and the fills left open make
   up all the fills: extraction loses nothing and counts nothing twice.
   */
  lemma ExtractionKeepsTotal(fills: seq<Fill>, tripWeight: RoundTrip -> real, fillWeight: Fill -> real)
    requires WeighsItsFills(tripWeight, fillWeight)
    ensures Accounted(ExtractRoundTrips(fills), tripWeight, fillWeight) == Sum(fills, fillWeight)
  {
    hide WeighsItsFills;
    GroupsAreOfTheirKey(fills);
    ExtractGroupsTotal(GroupBy(fills, SymbolOf()), tripWeight, fillWeight);
    GroupsTotal(fills, SymbolOf(), fillWeight);
  }

  /**
   Analytics conserves cash: for any fills whatever, the net P&L of the closed trips and the
   cash moved by the fills left open add up to the cash moved by all fills, after fees.
   */
  lemma ExtractionConservesCash(fills: seq<Fill>)
    ensures Accounted(ExtractRoundTrips(fills), NetOf(), CashOf()) == Sum(fills, CashOf())
  {
    hide RoundTripOf, ExtractRoundTrips;
    assert WeighsItsFills(NetOf(), CashOf()) by {
      forall trip: seq<Fill> | trip != [] ensures NetOf()(RoundTripOf(trip)) == Sum(trip, CashOf()) {
        TripIsItsCash(trip);
      }
    }
    ExtractionKeepsTotal(fills, NetOf(), CashOf());
  }

  /** When every symbol's fills net to zero nothing is left open. */
  lemma {:induction false} FlatGroupsClose(groups: seq<Group<Symbol, Fill>>)
    requires forall i :: 0 <= i < |groups| ==> Net(groups[i].items) == 0.0
    ensures ExtractGroups(groups).open == []
  {
    if groups == [] {
    } else {
      var n := |groups| - 1;
      FlatGroupsClose(groups[..n]);
      SortTotal(groups[n].items, NoLater, SignedOf());
      FlatMeansClosed(SortByTime(groups[n].items));
    }
  }

  lemma {:induction false} SummaryTagsDistinct(trips: seq<seq<Fill>>)
    requires forall i :: 0 <= i < |trips| ==> trips[i] != []
    ensures forall t :: t in Summaries(trips) ==> Distinct(t.entryTags)
  {
    if trips != [] {
      var last := trips[|trips| - 1];
      SummaryTagsDistinct(trips[..|trips| - 1]);
      CollectTagsCollects([], Filter(last, OnSide(last[0].side)));
      hide CollectTags, Sum, Filter, Distinct;
    }
  }

  lemma {:induction false} GroupTagsDistinct(groups: seq<Group<Symbol, Fill>>)
    ensures forall t :: t in ExtractGroups(groups).closed ==> Distinct(t.entryTags)
  {
    if groups != [] {
      var n := |groups| - 1;
      GroupTagsDistinct(groups[..n]);
      SegmentIsSegmentation(SortByTime(groups[n].items));
      SummaryTagsDistinct(Segment(SortByTime(groups[n].items)).closed);
    }
  }

  /** No extracted trip carries a tag twice. */
  lemma ExtractedTagsDistinct(fills: seq<Fill>)
    ensures forall t :: t in ExtractRoundTrips(fills).closed ==> Distinct(t.entryTags)
  {
    GroupTagsDistinct(GroupBy(fills, SymbolOf()));
  }

  // ---------- The loops ----------

  /** The tags of the fills, each once, in the order in which they first appear. */
  method GatherTags(fills: seq<Fill>) returns (tags: seq<string>)
    ensures tags == CollectTags([], fills)
  {
    tags := [];
    for i := 0 to |fills|
      invariant CollectTags(tags, fills[i..]) == CollectTags([], fills)
    {
      var own := fills[i].tags;
      ghost var known := tags;
      for j := 0 to |own|
        invariant AddTags(tags, own[j..]) == AddTags(known, own)
      {
        assert own[j..][1..] == own[j + 1..];
        if own[j] !in tags {
          tags := tags + [own[j]];
        }
      }
      assert fills[i..][1..] == fills[i + 1..];
    }
  }

  /** Summarizes a closed sequence of fills. */
  method RoundTripFromFills(fills: seq<Fill>) returns (t: RoundTrip)
    requires fills != []
    ensures t == RoundTripOf(fills)
  {
    hide Sum, Filter, CollectTags;
    var buys, sells := Filter(fills, OnSide(Buy)), Filter(fills, OnSide(Sell));
    var buyQuantity, sellQuantity := Sum(buys, QuantityOf()), Sum(sells, QuantityOf());
    var buyValue, sellValue := Sum(buys, ValueOf()), Sum(sells, ValueOf());
    var fees := Sum(fills, FeeOf());
    var buyAverage := if buyQuantity > 0.0 then buyValue / buyQuantity else 0.0;
    var sellAverage := if sellQuantity > 0.0 then sellValue / sellQuantity else 0.0;
    var direction, entryAverage, exitAverage, quantity, entryFills;
    if fills[0].side == Sell {
      direction, entryAverage, exitAverage, quantity, entryFills := Short, sellAverage, buyAverage, sellQuantity, sells;
    } else {
      direction, entryAverage, exitAverage, quantity, entryFills := Long, buyAverage, sellAverage, buyQuantity, buys;
    }
    var gross := sellValue - buyValue;
    var entry, exit := fills[0].filledTs, fills[|fills| - 1].filledTs;
    var tags := GatherTags(entryFills);
    t := RoundTrip(fills[0].symbol, direction, entry, exit, entryAverage, exitAverage, quantity,
                   gross, fees, gross - fees, exit - entry, |fills|, tags);
  }

  lemma NothingSummarized()
    ensures Summaries([]) == []
  {
  }

  lemma SegmentPrefix(fills: seq<Fill>, i: nat)
    requires i < |fills|
    ensures Segment(fills[..i + 1]) == Extend(Segment(fills[..i]), fills[i])
  {
    assert fills[..i + 1][..i] == fills[..i];
  }

  lemma SummariesSnoc(trips: seq<seq<Fill>>, trip: seq<Fill>)
    requires trip != [] && forall i :: 0 <= i < |trips| ==> trips[i] != []
    ensures Summaries(trips + [trip]) == Summaries(trips) + [RoundTripOf(trip)]
  {
    assert (trips + [trip])[..|trips|] == trips;
  }

  /** Walks one symbol's time-sorted fills, closing a trip whenever the position is back at zero. */
  method WalkSymbol(fills: seq<Fill>) returns (closed: seq<RoundTrip>, open: seq<Fill>)
    ensures Extraction(closed, open) == ExtractSymbol(fills)
  {
    hide RoundTripOf, SortByTime, Net, Summaries, Segment;
    var sorted := SortByTime(fills);
    SegmentNothing();
    NothingSummarized();
    closed := [];
    var current: seq<Fill> := [];
    var position := 0.0;
    for i := 0 to |sorted|
      invariant current == Segment(sorted[..i]).open && position == Net(current)
      invariant forall j :: 0 <= j < |Segment(sorted[..i]).closed| ==> Segment(sorted[..i]).closed[j] != []
      invariant closed == Summaries(Segment(sorted[..i]).closed)
    {
      var f := sorted[i];
      SegmentPrefix(sorted, i);
      NetSnoc(current, f);
      current := current + [f];
      if f.side == Buy {
        position := position + f.quantity;
      } else {
        position := position - f.quantity;
      }
      if position == 0.0 {
        var t := RoundTripFromFills(current);
        SummariesSnoc(Segment(sorted[..i]).closed, current);
        closed := closed + [t];
        current := [];
      }
    }
    assert sorted[..|sorted|] == sorted;
    open := current;
  }

  method ExtractAll(fills: seq<Fill>) returns (closed: seq<RoundTrip>, open: seq<Fill>)
    ensures Extraction(closed, open) == ExtractRoundTrips(fills)
  {
    hide ExtractSymbol, AddTo;
    var groups: seq<Group<Symbol, Fill>> := [];
    for i := 0 to |fills|
      invariant groups == GroupBy(fills[..i], SymbolOf())
    {
      assert fills[..i + 1][..i] == fills[..i];
      groups := AddTo(groups, fills[i].symbol, fills[i]);
    }
    assert fills[..|fills|] == fills;
    closed, open := [], [];
    for i := 0 to |groups|
      invariant Extraction(closed, open) == ExtractGroups(groups[..i])
    {
      assert groups[..i + 1][..i] == groups[..i];
      var trips, rest := WalkSymbol(groups[i].items);
      closed := closed + trips;
      open := open + rest;
    }
    assert groups[..|groups|] == groups;
  }
}
