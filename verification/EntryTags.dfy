/**
 The fields of a round trip that are not money: which tags it is credited to, in which order,
 when it began and ended; and what the attribution by signal counts, in terms of the fills.
 */
module EntryTags {
  import opened Prelude
  import opened Types
  import opened Groups
  import opened Engine
  import opened RoundTrips
  import opened Analytics
  import opened Attribution

  // ---------- Tags ----------

  /** Some fill on the side of the trip's first fill carries the tag. */
  predicate EntersOn(trip: seq<Fill>, tag: string)
    requires trip != []
  {
    exists f :: f in trip && f.side == trip[0].side && tag in f.tags
  }

  /** The tags of the fills on one side, one fill after the other. */
  function TagsOn(side: Side, fills: seq<Fill>): seq<string> {
    if fills == [] then []
    else (if fills[0].side == side then fills[0].tags else []) + TagsOn(side, fills[1..])
  }

  lemma {:induction false} TagsOnMembers(side: Side, fills: seq<Fill>, tag: string)
    ensures tag in TagsOn(side, fills) <==> exists f :: f in fills && f.side == side && tag in f.tags
  {
    if fills == [] {
    } else {
      TagsOnMembers(side, fills[1..], tag);
      assert forall f :: f in fills <==> f == fills[0] || f in fills[1..];
    }
  }

  lemma {:induction false} AddTagsAppend(known: seq<string>, a: seq<string>, b: seq<string>)
    ensures AddTags(known, a + b) == AddTags(AddTags(known, a), b)
    decreases |a|
  {
    if a == [] {
      assert a + b == b;
    } else {
      assert (a + b)[1..] == a[1..] + b;
      AddTagsAppend(if a[0] in known then known else known + [a[0]], a[1..], b);
    }
  }

  /** Collecting the tags of the fills on a side is adding all their tags in turn. */
  lemma {:induction false} CollectIsAdd(known: seq<string>, side: Side, fills: seq<Fill>)
    ensures CollectTags(known, Filter(fills, OnSide(side))) == AddTags(known, TagsOn(side, fills))
    decreases |fills|
  {
    hide AddTags;
    if fills == [] {
      NothingAdded(known);
    } else {
      var rest := Filter(fills[1..], OnSide(side));
      if fills[0].side == side {
        assert ([fills[0]] + rest)[1..] == rest;
        CollectIsAdd(AddTags(known, fills[0].tags), side, fills[1..]);
        AddTagsAppend(known, fills[0].tags, TagsOn(side, fills[1..]));
      } else {
        CollectIsAdd(known, side, fills[1..]);
        assert [] + TagsOn(side, fills[1..]) == TagsOn(side, fills[1..]);
      }
    }
  }

  lemma NothingAdded(known: seq<string>)
    ensures AddTags(known, []) == known
  {
  }

  lemma {:induction false} AddInOrder(known: seq<string>, done: seq<string>, tags: seq<string>)
    requires InFirstOrder(known, done) && SetOf(known) == SetOf(done)
    ensures InFirstOrder(AddTags(known, tags), done + tags)
    decreases |tags|
  {
    hide InFirstOrder, SetOf, AddTags, IndexOf;
    AddTagsStep(known, tags);
    if tags == [] {
      assert done + tags == done;
    } else {
      var next := if tags[0] in known then known else known + [tags[0]];
      OneMoreInOrder(known, done, tags[0]);
      AddInOrder(next, done + [tags[0]], tags[1..]);
      assert done + [tags[0]] + tags[1..] == done + tags;
    }
  }

  lemma AddTagsStep(known: seq<string>, tags: seq<string>)
    ensures AddTags(known, tags)
         == if tags == [] then known else AddTags(if tags[0] in known then known else known + [tags[0]], tags[1..])
  {
  }

  /**
   Entry tags come from the entry. A tag is among a trip's entry tags exactly when some fill
   on the side of the trip's first fill carries it; each is there once; and they stand in the
   order in which those fills first mention them.
   */
  lemma EntryTagsAreTheEntrys(fills: seq<Fill>, tag: string)
    requires fills != []
    ensures tag in RoundTripOf(fills).entryTags <==> exists f :: f in fills && f.side == fills[0].side && tag in f.tags
    ensures Distinct(RoundTripOf(fills).entryTags)
    ensures InFirstOrder(RoundTripOf(fills).entryTags, TagsOn(fills[0].side, fills))
  {
    var side := fills[0].side;
    EntryTagsCollect(fills);
    CollectIsAdd([], side, fills);
    AddInOrder([], [], TagsOn(side, fills));
    assert [] + TagsOn(side, fills) == TagsOn(side, fills);
    AddTagsAddsEach([], TagsOn(side, fills));
    hide RoundTripOf, CollectTags, AddTags, InFirstOrder, TagsOn, Distinct;
    TagsOnMembers(side, fills, tag);
  }

  lemma EntryTagsCollect(fills: seq<Fill>)
    requires fills != []
    ensures RoundTripOf(fills).entryTags == CollectTags([], Filter(fills, OnSide(fills[0].side)))
  {
    hide Sum, Filter, CollectTags;
  }

  // ---------- The other fields ----------

  /** The fills on the side that opens the trip, and those on the other. */
  function Entries(fills: seq<Fill>): Fill -> bool
    requires fills != []
  {
    (f: Fill) => f.side == fills[0].side
  }

  function Exits(fills: seq<Fill>): Fill -> bool
    requires fills != []
  {
    (f: Fill) => f.side != fills[0].side
  }

  lemma {:induction false} SameFilter(fills: seq<Fill>, a: Fill -> bool, b: Fill -> bool)
    requires forall f :: f in fills ==> a(f) == b(f)
    ensures Filter(fills, a) == Filter(fills, b)
  {
    if fills != [] {
      SameFilter(fills[1..], a, b);
    }
  }

  lemma AverageTimes(value: real, quantity: real)
    ensures quantity > 0.0 ==> Average(value, quantity) * quantity == value
  {
  }

  /**
   A round trip runs from its first fill to its last, is long exactly when it begins with a
   buy, and reports the number and the fees of its own fills.
   */
  lemma TripFrame(fills: seq<Fill>)
    requires fills != []
    ensures var t, last := RoundTripOf(fills), fills[|fills| - 1];
            && t.symbol == fills[0].symbol && (t.direction == Long <==> fills[0].side == Buy)
            && t.entryTs == fills[0].filledTs && t.exitTs == last.filledTs
            && t.durationSeconds == last.filledTs - fills[0].filledTs && t.numFills == |fills|
            && t.fees == Sum(fills, FeeOf()) && t.netPnl == t.grossPnl - t.fees
  {
    hide Sum, Filter, CollectTags, Average;
  }

  lemma AveragesOf(fills: seq<Fill>)
    requires fills != []
    ensures var t, side := RoundTripOf(fills), fills[0].side;
            var entries, exits := Filter(fills, OnSide(side)), Filter(fills, OnSide(if side == Buy then Sell else Buy));
            && t.quantity == Sum(entries, QuantityOf())
            && t.entryAvgPrice == Average(Sum(entries, ValueOf()), Sum(entries, QuantityOf()))
            && t.exitAvgPrice == Average(Sum(exits, ValueOf()), Sum(exits, QuantityOf()))
  {
    hide Sum, Filter, CollectTags, Average;
  }

  /**
   It reports the quantity entered, and as average prices those whose products with the
   quantities are what its entries and its exits cost.
   */
  lemma TripAverages(fills: seq<Fill>)
    requires fills != []
    ensures var t, entries, exits := RoundTripOf(fills), Filter(fills, Entries(fills)), Filter(fills, Exits(fills));
            && t.quantity == Sum(entries, QuantityOf())
            && (Sum(entries, QuantityOf()) > 0.0 ==> t.entryAvgPrice * Sum(entries, QuantityOf()) == Sum(entries, ValueOf()))
            && (Sum(exits, QuantityOf()) > 0.0 ==> t.exitAvgPrice * Sum(exits, QuantityOf()) == Sum(exits, ValueOf()))
  {
    hide Sum, Filter, RoundTripOf, Average;
    var side := fills[0].side;
    var other := if side == Buy then Sell else Buy;
    SameFilter(fills, Entries(fills), OnSide(side));
    SameFilter(fills, Exits(fills), OnSide(other));
    AveragesOf(fills);
    AverageTimes(Sum(Filter(fills, OnSide(side)), ValueOf()), Sum(Filter(fills, OnSide(side)), QuantityOf()));
    AverageTimes(Sum(Filter(fills, OnSide(other)), ValueOf()), Sum(Filter(fills, OnSide(other)), QuantityOf()));
  }

  // ---------- What the attribution by signal counts ----------

  /** The closed segments of every group, in the order of the groups. */
  function SegmentsOf(groups: seq<Group<Symbol, Fill>>): seq<seq<Fill>> {
    if groups == [] then []
    else SegmentsOf(groups[..|groups| - 1]) + Segment(SortByTime(groups[|groups| - 1].items)).closed
  }

  /** The closed trips of a list of fills, as the fills they consist of. */
  function ClosedSegments(fills: seq<Fill>): seq<seq<Fill>> {
    SegmentsOf(GroupBy(fills, SymbolOf()))
  }

  predicate AllTrips(segments: seq<seq<Fill>>) {
    forall i :: 0 <= i < |segments| ==> IsTrip(segments[i])
  }

  lemma {:induction false} SummariesAppend(a: seq<seq<Fill>>, b: seq<seq<Fill>>)
    requires AllTrips(a) && AllTrips(b)
    ensures AllTrips(a + b) && Summaries(a + b) == Summaries(a) + Summaries(b)
    decreases |b|
  {
    hide RoundTripOf, IsTrip;
    TripsAreSome(a + b);
    if b == [] {
      assert a + b == a;
    } else {
      var n := |b| - 1;
      SummariesAppend(a, b[..n]);
      assert (a + b)[..|a + b| - 1] == a + b[..n];
    }
  }

  lemma TripsAreSome(segments: seq<seq<Fill>>)
    requires AllTrips(segments)
    ensures forall i :: 0 <= i < |segments| ==> segments[i] != []
  {
    forall i | 0 <= i < |segments| ensures segments[i] != [] {
      assert IsTrip(segments[i]);
    }
  }

  lemma {:induction false} ClosedAreSummaries(groups: seq<Group<Symbol, Fill>>)
    ensures AllTrips(SegmentsOf(groups)) && ExtractGroups(groups).closed == Summaries(SegmentsOf(groups))
  {
    if groups == [] {
    } else {
      var n := |groups| - 1;
      ClosedAreSummaries(groups[..n]);
      var own := Segment(SortByTime(groups[n].items));
      SegmentIsSegmentation(SortByTime(groups[n].items));
      hide Segment, Summaries, IsTrip;
      SummariesAppend(SegmentsOf(groups[..n]), own.closed);
    }
  }

  /** The trips of the list that a signal opened. */
  function OpenedBy(tag: string): seq<Fill> -> bool {
    (trip: seq<Fill>) => exists f :: f in trip && f.side == trip[0].side && tag in f.tags
  }

  /** What a trip moved in cash. */
  function CashOfTrip(): seq<Fill> -> real {
    (trip: seq<Fill>) => Sum(trip, CashOf())
  }

  function Earned(): seq<Fill> -> bool {
    (trip: seq<Fill>) => Sum(trip, CashOf()) > 0.0
  }

  function LostMoney(): seq<Fill> -> bool {
    (trip: seq<Fill>) => Sum(trip, CashOf()) < 0.0
  }

  lemma TaggedIff(trip: seq<Fill>, tag: string)
    requires trip != []
    ensures Tagged(tag)(RoundTripOf(trip)) <==> OpenedBy(tag)(trip)
    ensures NetOf()(RoundTripOf(trip)) == CashOfTrip()(trip)
    ensures Won()(RoundTripOf(trip)) <==> Earned()(trip)
    ensures Lost()(RoundTripOf(trip)) <==> LostMoney()(trip)
  {
    EntryTagsAreTheEntrys(trip, tag);
    TripIsItsCash(trip);
    hide RoundTripOf, Sum;
  }

  lemma SummariesSnoc(segments: seq<seq<Fill>>, last: seq<Fill>)
    requires AllTrips(segments) && IsTrip(last)
    ensures AllTrips(segments + [last]) && Summaries(segments + [last]) == Summaries(segments) + [RoundTripOf(last)]
  {
    hide RoundTripOf, IsTrip;
    TripsAreSome(segments + [last]);
    assert (segments + [last])[..|segments|] == segments;
  }

  lemma TaggedSnoc(segments: seq<seq<Fill>>, last: seq<Fill>, tag: string)
    requires last != []
    ensures var before := Filter(segments, OpenedBy(tag));
            Filter(segments + [last], OpenedBy(tag)) == if OpenedBy(tag)(last) then before + [last] else before
  {
    FilterAppend(segments, [last], OpenedBy(tag));
    assert [last][1..] == [] && Filter(segments, OpenedBy(tag)) + [] == Filter(segments, OpenedBy(tag));
  }

  lemma TaggedTripsSnoc(trips: seq<RoundTrip>, last: RoundTrip, tag: string)
    ensures var before := Filter(trips, Tagged(tag));
            Filter(trips + [last], Tagged(tag)) == if Tagged(tag)(last) then before + [last] else before
  {
    FilterAppend(trips, [last], Tagged(tag));
    assert [last][1..] == [] && Filter(trips, Tagged(tag)) + [] == Filter(trips, Tagged(tag));
  }

  lemma NoneTagged(tag: string)
    ensures Filter([], OpenedBy(tag)) == [] && Summaries([]) == [] && Filter([], Tagged(tag)) == []
  {
  }

  /** Tagged trips of the extraction are summaries of the segments that the signal opened. */
  lemma {:induction false} TaggedSummaries(segments: seq<seq<Fill>>, tag: string)
    requires AllTrips(segments)
    ensures var own := Filter(segments, OpenedBy(tag));
            AllTrips(own) && Filter(Summaries(segments), Tagged(tag)) == Summaries(own)
  {
    hide Filter, Summaries, RoundTripOf, IsTrip;
    if segments == [] {
      NoneTagged(tag);
    } else {
      var n := |segments| - 1;
      var last := segments[n];
      TaggedSummaries(segments[..n], tag);
      assert segments == segments[..n] + [last];
      TripsAreSome(segments);
      SummariesSnoc(segments[..n], last);
      TaggedIff(last, tag);
      TaggedSnoc(segments[..n], last, tag);
      TaggedTripsSnoc(Summaries(segments[..n]), RoundTripOf(last), tag);
      SummariesSnoc(Filter(segments[..n], OpenedBy(tag)), last);
    }
  }

  lemma NoneCounted()
    ensures Summaries([]) == [] && Sum([], NetOf()) == Sum([], CashOfTrip())
    ensures Count([], Won()) == Count([], Earned()) && Count([], Lost()) == Count([], LostMoney())
  {
  }

  lemma {:induction false} SummariesCount(segments: seq<seq<Fill>>)
    requires AllTrips(segments)
    ensures |Summaries(segments)| == |segments|
    ensures Sum(Summaries(segments), NetOf()) == Sum(segments, CashOfTrip())
    ensures Count(Summaries(segments), Won()) == Count(segments, Earned())
    ensures Count(Summaries(segments), Lost()) == Count(segments, LostMoney())
  {
    hide Sum, Count, Summaries, RoundTripOf, IsTrip;
    TripsAreSome(segments);
    if segments == [] {
      NoneCounted();
    } else {
      var n := |segments| - 1;
      var last := segments[n];
      SummariesCount(segments[..n]);
      assert segments == segments[..n] + [last];
      SummariesSnoc(segments[..n], last);
      TaggedIff(last, "");
      SumSnoc(segments[..n], last, CashOfTrip());
      SumSnoc(Summaries(segments[..n]), RoundTripOf(last), NetOf());
      CountAppend(segments[..n], [last], Earned());
      CountAppend(Summaries(segments[..n]), [RoundTripOf(last)], Won());
      CountAppend(segments[..n], [last], LostMoney());
      CountAppend(Summaries(segments[..n]), [RoundTripOf(last)], Lost());
      OneCount(last);
    }
  }

  lemma OneCount(last: seq<Fill>)
    requires last != []
    ensures Count([last], Earned()) == Count([RoundTripOf(last)], Won())
    ensures Count([last], LostMoney()) == Count([RoundTripOf(last)], Lost())
  {
    TaggedIff(last, "");
    hide RoundTripOf, Sum;
    assert Count([last][1..], Earned()) == 0 && Count([RoundTripOf(last)][1..], Won()) == 0;
    assert Count([last][1..], LostMoney()) == 0 && Count([RoundTripOf(last)][1..], Lost()) == 0;
  }

  /**
   What a signal is credited with, from the fills. The row of a name in the attribution of an
   extraction counts the closed trips of which some entry fill carries the name as a tag, and
   no other: their number, how many of them brought cash in and how many lost some, and the
   cash they moved; and it counts the events in which the name passed and was blocked.
   */
  lemma SignalRowFromFills(name: string, fills: seq<Fill>, events: seq<SignalEvent>, total: real)
    ensures var row := SignalRow(name, ExtractRoundTrips(fills).closed, events, total);
            var own := Filter(ClosedSegments(fills), OpenedBy(name));
            && AllTrips(ClosedSegments(fills))
            && row.name == name && row.numTrades == |own|
            && row.wins == Count(own, Earned()) && row.losses == Count(own, LostMoney())
            && row.netPnl == Sum(own, CashOfTrip())
            && row.numFired == |(set i | 0 <= i < |events| && events[i].name == name && events[i].passed)|
            && row.numBlocked == |(set i | 0 <= i < |events| && events[i].name == name && !events[i].passed)|
  {
    var segments := ClosedSegments(fills);
    ClosedAreSummaries(GroupBy(fills, SymbolOf()));
    hide Summaries, AllTrips, ExtractGroups, SegmentsOf, GroupBy, Sum, Count, Filter, ExtractSymbol;
    TaggedSummaries(segments, name);
    SummariesCount(Filter(segments, OpenedBy(name)));
    CountPlaces(events, Fired(name));
    CountPlaces(events, Blocked(name));
    assert Places(events, Fired(name)) == set i | 0 <= i < |events| && events[i].name == name && events[i].passed;
    assert Places(events, Blocked(name)) == set i | 0 <= i < |events| && events[i].name == name && !events[i].passed;
  }
}
