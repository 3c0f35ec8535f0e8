/**
 Attribution of realized P&L to symbols and signals. The breakdown by symbol partitions the
 total; the breakdown by signal counts a trip once for each of its tags.
 */
module Attribution {
  import opened Prelude
  import opened Types
  import opened Groups
  import opened StableSorts
  import opened Engine
  import opened Analytics

  datatype SymbolAttribution = SymbolAttribution(
    symbol: Symbol,
    numTrades: nat,
    wins: nat,
    losses: nat,
    winRatePct: Option<real>,
    grossPnl: real,
    fees: real,
    netPnl: real,
    avgNetPnl: real,
    pctOfTotal: Option<real>)

  function Won(): RoundTrip -> bool {
    (t: RoundTrip) => t.netPnl > 0.0
  }

  function Lost(): RoundTrip -> bool {
    (t: RoundTrip) => t.netPnl < 0.0
  }

  function GrossOf(): RoundTrip -> real {
    (t: RoundTrip) => t.grossPnl
  }

  function FeesOf(): RoundTrip -> real {
    (t: RoundTrip) => t.fees
  }

  function TripSymbol(): RoundTrip -> Symbol {
    (t: RoundTrip) => t.symbol
  }

  function PctOf(value: real, total: real): Option<real> {
    if total == 0.0 then None else Some(value / total * 100.0)
  }

  function WinRate(wins: nat, n: nat): Option<real> {
    if n == 0 then None else Some(wins as real / n as real * 100.0)
  }

  function SymbolRow(g: Group<Symbol, RoundTrip>, total: real): SymbolAttribution {
    var n := |g.items|;
    var wins := Count(g.items, Won());
    var net := Sum(g.items, NetOf());
    SymbolAttribution(g.key, n, wins, Count(g.items, Lost()), WinRate(wins, n),
                      Sum(g.items, GrossOf()), Sum(g.items, FeesOf()), net,
                      if n > 0 then net / n as real else 0.0, PctOf(net, total))
  }

  function SymbolRows(groups: seq<Group<Symbol, RoundTrip>>, total: real): seq<SymbolAttribution> {
    if groups == [] then []
    else SymbolRows(groups[..|groups| - 1], total) + [SymbolRow(groups[|groups| - 1], total)]
  }

  /** Most profitable first, ties broken by trade count. */
  predicate RanksBefore(a: SymbolAttribution, b: SymbolAttribution) {
    a.netPnl > b.netPnl || (a.netPnl == b.netPnl && a.numTrades >= b.numTrades)
  }

  /** More P&L, or as much from at least as many trades. */
  predicate PaysAtLeast(net: real, trades: nat, otherNet: real, otherTrades: nat) {
    net >= otherNet && (net == otherNet ==> trades >= otherTrades)
  }

  function AttributeBySymbol(trips: seq<RoundTrip>, total: real): seq<SymbolAttribution> {
    SortBy(SymbolRows(GroupBy(trips, TripSymbol()), total), RanksBefore)
  }

  // ---------- The rows partition the total ----------

  function RowSymbol(): SymbolAttribution -> Symbol {
    (r: SymbolAttribution) => r.symbol
  }

  function RowNet(): SymbolAttribution -> real {
    (r: SymbolAttribution) => r.netPnl
  }

  function RowGross(): SymbolAttribution -> real {
    (r: SymbolAttribution) => r.grossPnl
  }

  function RowFees(): SymbolAttribution -> real {
    (r: SymbolAttribution) => r.fees
  }

  function RowTrades(): SymbolAttribution -> real {
    (r: SymbolAttribution) => r.numTrades as real
  }

  function RowPct(): SymbolAttribution -> real {
    (r: SymbolAttribution) => if r.pctOfTotal.Some? then r.pctOfTotal.value else 0.0
  }

  predicate HasRow(rows: seq<SymbolAttribution>, s: Symbol) {
    exists r :: r in rows && r.symbol == s
  }

  predicate HasTrip(trips: seq<RoundTrip>, s: Symbol) {
    exists t :: t in trips && t.symbol == s
  }

  lemma {:induction false} SumOfOnes<T>(s: seq<T>)
    ensures Sum(s, One<T>()) == |s| as real
  {
    if s == [] {
    } else {
      SumOfOnes(s[1..]);
    }
  }

  /** A total over rows that copy a group statistic is the total over groups. */
  lemma {:induction false} RowsTotal(groups: seq<Group<Symbol, RoundTrip>>, total: real,
                                     column: SymbolAttribution -> real, weight: RoundTrip -> real)
    requires forall g: Group<Symbol, RoundTrip> {:trigger GroupTotal(weight)(g)} ::
               column(SymbolRow(g, total)) == GroupTotal(weight)(g)
    ensures Sum(SymbolRows(groups, total), column) == Sum(groups, GroupTotal(weight))
  {
    if groups == [] {
    } else {
      hide SymbolRow;
      var n := |groups| - 1;
      RowsTotal(groups[..n], total, column, weight);
      SumSnoc(SymbolRows(groups[..n], total), SymbolRow(groups[n], total), column);
      SumLast(groups, GroupTotal(weight));
      assert GroupTotal(weight)(groups[n]) == column(SymbolRow(groups[n], total));
    }
  }

  lemma ColumnTotal(trips: seq<RoundTrip>, total: real, column: SymbolAttribution -> real, weight: RoundTrip -> real)
    requires forall g: Group<Symbol, RoundTrip> {:trigger GroupTotal(weight)(g)} ::
               column(SymbolRow(g, total)) == GroupTotal(weight)(g)
    ensures Sum(AttributeBySymbol(trips, total), column) == Sum(trips, weight)
  {
    hide SymbolRow;
    var groups := GroupBy(trips, TripSymbol());
    SortTotal(SymbolRows(groups, total), RanksBefore, column);
    RowsTotal(groups, total, column, weight);
    GroupsTotal(trips, TripSymbol(), weight);
  }

  lemma {:induction false} PctTotal(rows: seq<SymbolAttribution>, total: real)
    requires total != 0.0
    requires forall r :: r in rows ==> r.pctOfTotal == PctOf(r.netPnl, total)
    ensures Sum(rows, RowPct()) == Sum(rows, RowNet()) / total * 100.0
  {
    if rows == [] {
    } else {
      PctTotal(rows[1..], total);
      var net, rest := rows[0].netPnl, Sum(rows[1..], RowNet());
      assert rows[0] in rows;
      assert (net + rest) / total == net / total + rest / total;
    }
  }

  lemma {:induction false} RowsAreGroups(groups: seq<Group<Symbol, RoundTrip>>, total: real)
    ensures |SymbolRows(groups, total)| == |groups|
    ensures forall i :: 0 <= i < |groups| ==> SymbolRows(groups, total)[i] == SymbolRow(groups[i], total)
  {
    if groups != [] {
      RowsAreGroups(groups[..|groups| - 1], total);
    }
  }

  /**
   Attribution by symbol adds up. The rows are ranked; there is one for each symbol with a
   trip and no other; each is the summary of exactly its symbol's trips; their nets, grosses,
   fees and counts add up to those of all trips; and
   the percentages add up to 100 whenever the total is not zero.
   */
  lemma SymbolAttributionAddsUp(trips: seq<RoundTrip>)
    ensures var total := Sum(trips, NetOf());
            var rows := AttributeBySymbol(trips, total);
            && (forall i, j :: 0 <= i < j < |rows| ==>
                  PaysAtLeast(rows[i].netPnl, rows[i].numTrades, rows[j].netPnl, rows[j].numTrades))
            && Sum(rows, RowNet()) == total
            && Sum(rows, RowGross()) == Sum(trips, GrossOf())
            && Sum(rows, RowFees()) == Sum(trips, FeesOf())
            && Sum(rows, RowTrades()) == |trips| as real
            && (total != 0.0 ==> Sum(rows, RowPct()) == 100.0)
            && (forall r :: r in rows ==>
                  r == SymbolRow(Group(r.symbol, Filter(trips, HasKey(TripSymbol(), r.symbol))), total))
            && DistinctBy(rows, RowSymbol())
            && (forall s: Symbol :: HasRow(rows, s) <==> HasTrip(trips, s))
  {
    hide SymbolRow, SortBy, GroupBy, Sum, DistinctBy;
    var total := Sum(trips, NetOf());
    RankingIsTotal();
    SortOrders(SymbolRows(GroupBy(trips, TripSymbol()), total), RanksBefore);
    RowsMatch(trips, total);
    RowPerSymbol(trips, total);
    MoneyColumns(trips, total);
    TradesColumn(trips, total);
    if total != 0.0 {
      PctColumn(trips, total);
    }
  }

  lemma RankingIsTotal()
    ensures TotalPreorder(RanksBefore)
    ensures forall a, b :: RanksBefore(a, b) <==> PaysAtLeast(a.netPnl, a.numTrades, b.netPnl, b.numTrades)
  {
  }

  lemma MoneyColumns(trips: seq<RoundTrip>, total: real)
    ensures var rows := AttributeBySymbol(trips, total);
            && Sum(rows, RowNet()) == Sum(trips, NetOf())
            && Sum(rows, RowGross()) == Sum(trips, GrossOf())
            && Sum(rows, RowFees()) == Sum(trips, FeesOf())
  {
    ColumnTotal(trips, total, RowNet(), NetOf());
    ColumnTotal(trips, total, RowGross(), GrossOf());
    ColumnTotal(trips, total, RowFees(), FeesOf());
  }

  lemma TradesColumn(trips: seq<RoundTrip>, total: real)
    ensures Sum(AttributeBySymbol(trips, total), RowTrades()) == |trips| as real
  {
    forall g: Group<Symbol, RoundTrip> ensures RowTrades()(SymbolRow(g, total)) == GroupTotal(One<RoundTrip>())(g) {
      SumOfOnes(g.items);
    }
    ColumnTotal(trips, total, RowTrades(), One<RoundTrip>());
    SumOfOnes(trips);
  }

  lemma PctColumn(trips: seq<RoundTrip>, total: real)
    requires total != 0.0 && total == Sum(trips, NetOf())
    ensures Sum(AttributeBySymbol(trips, total), RowPct()) == 100.0
  {
    hide Sum, AttributeBySymbol;
    RowsMatch(trips, total);
    MoneyColumns(trips, total);
    PctTotal(AttributeBySymbol(trips, total), total);
    Whole(total);
  }

  lemma Whole(total: real)
    requires total != 0.0
    ensures total / total * 100.0 == 100.0
  {
  }

  lemma RowsMatch(trips: seq<RoundTrip>, total: real)
    ensures forall r :: r in AttributeBySymbol(trips, total) ==>
              r == SymbolRow(Group(r.symbol, Filter(trips, HasKey(TripSymbol(), r.symbol))), total)
  {
    var groups := GroupBy(trips, TripSymbol());
    var rows := SymbolRows(groups, total);
    SortMembers(rows, RanksBefore);
    RowsAreGroups(groups, total);
    GroupByGroups(trips, TripSymbol());
    forall r | r in rows ensures r == SymbolRow(Group(r.symbol, Filter(trips, HasKey(TripSymbol(), r.symbol))), total) {
      var i :| 0 <= i < |rows| && rows[i] == r;
      assert groups[i] == Group(groups[i].key, groups[i].items);
    }
  }

  /** Each symbol with a trip has one row, and no other symbol has any. */
  lemma RowPerSymbol(trips: seq<RoundTrip>, total: real)
    ensures var rows := AttributeBySymbol(trips, total);
            && DistinctBy(rows, RowSymbol())
            && forall s: Symbol :: HasRow(rows, s) <==> HasTrip(trips, s)
  {
    var groups := GroupBy(trips, TripSymbol());
    var rows := SymbolRows(groups, total);
    RowsAreGroups(groups, total);
    GroupByGroups(trips, TripSymbol());
    assert DistinctBy(rows, RowSymbol()) by {
      forall i, j | 0 <= i < j < |rows| ensures RowSymbol()(rows[i]) != RowSymbol()(rows[j]) {
        assert KeyOf<Symbol, RoundTrip>()(groups[i]) != KeyOf<Symbol, RoundTrip>()(groups[j]);
      }
    }
    SortKeepsDistinct(rows, RanksBefore, RowSymbol());
    SortMembers(rows, RanksBefore);
    forall s: Symbol ensures HasRow(rows, s) <==> HasTrip(trips, s) {
      SymbolListedIff(trips, groups, rows, total, s);
    }
  }

  lemma SymbolListedIff(trips: seq<RoundTrip>, groups: seq<Group<Symbol, RoundTrip>>, rows: seq<SymbolAttribution>, total: real,
                        s: Symbol)
    requires IsGrouping(groups, trips, TripSymbol()) && |rows| == |groups|
    requires forall i :: 0 <= i < |groups| ==> rows[i] == SymbolRow(groups[i], total)
    ensures HasRow(rows, s) <==> HasTrip(trips, s)
  {
    if HasRow(rows, s) {
      var r :| r in rows && r.symbol == s;
      var i :| 0 <= i < |rows| && rows[i] == r;
      FilterMembers(trips, HasKey(TripSymbol(), s));
      assert groups[i].items[0] in groups[i].items;
      assert groups[i].items[0] in trips && groups[i].items[0].symbol == s;
    }
    if HasTrip(trips, s) {
      var t :| t in trips && t.symbol == s;
      var i :| 0 <= i < |groups| && groups[i].key == TripSymbol()(t);
      assert rows[i] in rows && rows[i].symbol == s;
    }
  }

  // ---------- What a row says ----------

  /** The percentage of wins among the trades, if there are any. */
  predicate IsWinRate(rate: Option<real>, wins: nat, trades: nat) {
    (rate.None? <==> trades == 0) && (rate.Some? ==> rate.value * trades as real == 100.0 * wins as real)
  }

  predicate IsAverage(average: real, net: real, trades: nat) {
    if trades == 0 then average == 0.0 else average * trades as real == net
  }

  /** The percentage of the total, if the total is not zero. */
  predicate IsShare(pct: Option<real>, net: real, total: real) {
    (pct.None? <==> total == 0.0) && (pct.Some? ==> pct.value * total == 100.0 * net)
  }

  function Winners(trips: seq<RoundTrip>): set<int> {
    set i | 0 <= i < |trips| && trips[i].netPnl > 0.0
  }

  function Losers(trips: seq<RoundTrip>): set<int> {
    set i | 0 <= i < |trips| && trips[i].netPnl < 0.0
  }

  lemma RatesAreRight(wins: nat, n: nat, net: real, total: real)
    ensures IsWinRate(WinRate(wins, n), wins, n)
    ensures IsAverage(if n > 0 then net / n as real else 0.0, net, n)
    ensures IsShare(PctOf(net, total), net, total)
  {
    if n > 0 {
      TimesDivided(wins as real, n as real);
    }
    if total != 0.0 {
      TimesDivided(net, total);
    }
  }

  lemma TimesDivided(x: real, y: real)
    requires y != 0.0
    ensures x / y * 100.0 * y == 100.0 * x
  {
    var q := x / y;
    assert q * y == x;
    assert q * 100.0 * y == 100.0 * (q * y);
  }

  lemma WinsAndLosses(trips: seq<RoundTrip>)
    ensures Count(trips, Won()) == |Winners(trips)| && Count(trips, Lost()) == |Losers(trips)|
  {
    CountPlaces(trips, Won());
    CountPlaces(trips, Lost());
    assert Places(trips, Won()) == Winners(trips) && Places(trips, Lost()) == Losers(trips);
  }

  /** A symbol's row reports its trips: how many won and lost, their rate, their average and their share of the total. */
  lemma SymbolRowMeans(s: Symbol, trips: seq<RoundTrip>, total: real)
    ensures var r := SymbolRow(Group(s, trips), total);
            && r.symbol == s && r.numTrades == |trips|
            && r.wins == |Winners(trips)| && r.losses == |Losers(trips)|
            && r.grossPnl == Sum(trips, GrossOf()) && r.fees == Sum(trips, FeesOf()) && r.netPnl == Sum(trips, NetOf())
            && IsWinRate(r.winRatePct, r.wins, r.numTrades)
            && IsAverage(r.avgNetPnl, r.netPnl, r.numTrades)
            && IsShare(r.pctOfTotal, r.netPnl, total)
  {
    hide Sum, Count;
    WinsAndLosses(trips);
    RatesAreRight(Count(trips, Won()), |trips|, Sum(trips, NetOf()), total);
  }

  /** A signal's row reports the trips that carry its name in the same way. */
  lemma SignalRowMeans(name: string, trips: seq<RoundTrip>, events: seq<SignalEvent>, total: real)
    ensures var r, own := SignalRow(name, trips, events, total), Filter(trips, Tagged(name));
            && r.name == name && r.numTrades == |own|
            && r.wins == |Winners(own)| && r.losses == |Losers(own)| && r.netPnl == Sum(own, NetOf())
            && IsWinRate(r.winRatePct, r.wins, r.numTrades)
            && IsAverage(r.avgNetPnl, r.netPnl, r.numTrades)
            && IsShare(r.pctOfTotal, r.netPnl, total)
  {
    hide Sum, Count, Filter;
    var own := Filter(trips, Tagged(name));
    WinsAndLosses(own);
    RatesAreRight(Count(own, Won()), |own|, Sum(own, NetOf()), total);
  }

  /** The P&L of a symbol's trips. */
  function NetOfSymbol(trips: seq<RoundTrip>, s: Symbol): real {
    Sum(Filter(trips, HasKey(TripSymbol(), s)), NetOf())
  }

  // ---------- By signal ----------

  datatype SignalAttribution = SignalAttribution(
    name: string,
    numFired: nat,
    numBlocked: nat,
    numTrades: nat,
    wins: nat,
    losses: nat,
    winRatePct: Option<real>,
    netPnl: real,
    avgNetPnl: real,
    pctOfTotal: Option<real>)

  function Tagged(name: string): RoundTrip -> bool {
    (t: RoundTrip) => name in t.entryTags
  }

  function Fired(name: string): SignalEvent -> bool {
    (e: SignalEvent) => e.passed && e.name == name
  }

  function Blocked(name: string): SignalEvent -> bool {
    (e: SignalEvent) => !e.passed && e.name == name
  }

  function SignalRow(name: string, trips: seq<RoundTrip>, events: seq<SignalEvent>, total: real): SignalAttribution {
    var tagged := Filter(trips, Tagged(name));
    var n := |tagged|;
    var wins := Count(tagged, Won());
    var net := Sum(tagged, NetOf());
    SignalAttribution(name, Count(events, Fired(name)), Count(events, Blocked(name)), n, wins, Count(tagged, Lost()),
                      WinRate(wins, n), net, if n > 0 then net / n as real else 0.0, PctOf(net, total))
  }

  /** The net P&L of the signal rows for the given names. */
  function SignalNet(trips: seq<RoundTrip>): string -> real {
    (name: string) => Sum(Filter(trips, Tagged(name)), NetOf())
  }

  /** A trip's P&L once for every tag it carries. */
  function NetPerTag(): RoundTrip -> real {
    (t: RoundTrip) => t.netPnl * |t.entryTags| as real
  }

  function NetIfTagged(t: RoundTrip): string -> real {
    (name: string) => if name in t.entryTags then t.netPnl else 0.0
  }

  function InTags(tags: seq<string>): string -> bool {
    (name: string) => name in tags
  }

  /** The names cover a trip's tags when each tag is among them. */
  predicate Covers(names: seq<string>, trips: seq<RoundTrip>) {
    forall t, tag :: t in trips && tag in t.entryTags ==> tag in names
  }

  lemma {:induction false} SumOverNames(names: seq<string>, t: RoundTrip)
    ensures Sum(names, NetIfTagged(t)) == t.netPnl * Count(names, InTags(t.entryTags)) as real
  {
    if names == [] {
    } else {
      SumOverNames(names[1..], t);
      var c := Count(names[1..], InTags(t.entryTags)) as real;
      assert t.netPnl * (1.0 + c) == t.netPnl + t.netPnl * c;
    }
  }

  lemma {:induction false} DistinctSize(s: seq<string>)
    requires Distinct(s)
    ensures |SetOf(s)| == |s|
  {
    if s == [] {
    } else {
      HeadIsNew(s);
      DistinctSize(s[1..]);
    }
  }

  lemma HeadIsNew(names: seq<string>)
    requires names != [] && Distinct(names)
    ensures names[0] !in names[1..] && Distinct(names[1..])
    ensures SetOf(names) == SetOf(names[1..]) + {names[0]}
  {
    assert forall j :: 1 <= j < |names| ==> names[j] == names[1..][j - 1];
  }

  lemma {:induction false} CountDistinctHits(names: seq<string>, tags: seq<string>)
    requires Distinct(names)
    ensures Count(names, InTags(tags)) == |SetOf(names) * SetOf(tags)|
  {
    if names == [] {
      assert SetOf(names) * SetOf(tags) == {};
    } else {
      HeadIsNew(names);
      hide Distinct, SetOf;
      CountDistinctHits(names[1..], tags);
      AddHit(SetOf(names[1..]), SetOf(tags), names[0], tags, names[1..]);
    }
  }

  /** One more distinct name meets one more tag, or none. */
  lemma AddHit(before: set<string>, tagSet: set<string>, name: string, tags: seq<string>, rest: seq<string>)
    requires before == SetOf(rest) && tagSet == SetOf(tags) && name !in rest
    ensures |(before + {name}) * tagSet| == |before * tagSet| + (if name in tags then 1 else 0)
  {
    if name in tags {
      assert (before + {name}) * tagSet == before * tagSet + {name};
    } else {
      assert (before + {name}) * tagSet == before * tagSet;
    }
  }

  /** Each of a trip's tags is met exactly once among distinct covering names. */
  lemma TagsMetOnce(names: seq<string>, tags: seq<string>)
    requires Distinct(names) && Distinct(tags) && forall tag :: tag in tags ==> tag in names
    ensures Count(names, InTags(tags)) == |tags|
  {
    CountDistinctHits(names, tags);
    assert SetOf(names) * SetOf(tags) == SetOf(tags);
    DistinctSize(tags);
  }

  /**
   Attribution by signal counts a trip's P&L once for each of its tags: over any distinct
   names that cover the tags, the signal rows' nets add up to exactly that.
   */
  lemma {:induction false} SignalAttributionAddsUp(names: seq<string>, trips: seq<RoundTrip>)
    requires Distinct(names) && Covers(names, trips)
    requires forall t :: t in trips ==> Distinct(t.entryTags)
    ensures Sum(names, SignalNet(trips)) == Sum(trips, NetPerTag())
  {
    if trips == [] {
      forall name | name in names ensures SignalNet([])(name) == 0.0 {}
      ZeroSum(names, SignalNet([]));
    } else {
      SignalAttributionAddsUp(names, trips[1..]);
      FirstTripPerTag(names, trips);
    }
  }

  /** The first trip adds its P&L to the row of each of its tags. */
  lemma FirstTripPerTag(names: seq<string>, trips: seq<RoundTrip>)
    requires trips != [] && Distinct(names) && Covers(names, trips) && Distinct(trips[0].entryTags)
    ensures Sum(names, SignalNet(trips)) == NetPerTag()(trips[0]) + Sum(names, SignalNet(trips[1..]))
  {
    hide Sum, SignalNet, NetIfTagged, Distinct;
    var t := trips[0];
    RowsGainTrip(names, trips);
    SumOverNames(names, t);
    TagsMetOnce(names, t.entryTags);
  }

  lemma RowsGainTrip(names: seq<string>, trips: seq<RoundTrip>)
    requires trips != []
    ensures Sum(names, SignalNet(trips)) == Sum(names, NetIfTagged(trips[0])) + Sum(names, SignalNet(trips[1..]))
  {
    forall name | name in names
      ensures NetIfTagged(trips[0])(name) + SignalNet(trips[1..])(name) == SignalNet(trips)(name)
    {
      FirstTagged(trips, name);
    }
    hide Sum, Filter;
    SumAdd(names, NetIfTagged(trips[0]), SignalNet(trips[1..]), SignalNet(trips));
  }

  lemma FirstTagged(trips: seq<RoundTrip>, name: string)
    requires trips != []
    ensures NetIfTagged(trips[0])(name) + SignalNet(trips[1..])(name) == SignalNet(trips)(name)
  {
    var rest := Filter(trips[1..], Tagged(name));
    assert ([trips[0]] + rest)[1..] == rest;
  }

  lemma {:induction false} ZeroSum<T>(s: seq<T>, weight: T -> real)
    requires forall x :: x in s ==> weight(x) == 0.0
    ensures Sum(s, weight) == 0.0
  {
    if s != [] {
      ZeroSum(s[1..], weight);
    }
  }

  function Untagged(): RoundTrip -> bool {
    (t: RoundTrip) => t.entryTags == []
  }

  /** If no trip carries two tags, the signal rows and the untagged trips partition the total. */
  lemma SingleTagsPartition(names: seq<string>, trips: seq<RoundTrip>)
    requires Distinct(names) && Covers(names, trips)
    requires forall t :: t in trips ==> |t.entryTags| <= 1
    ensures Sum(names, SignalNet(trips)) + Sum(Filter(trips, Untagged()), NetOf()) == Sum(trips, NetOf())
  {
    SignalAttributionAddsUp(names, trips);
    UntaggedRest(trips);
  }

  lemma {:induction false} UntaggedRest(trips: seq<RoundTrip>)
    requires forall t :: t in trips ==> |t.entryTags| <= 1
    ensures Sum(trips, NetPerTag()) + Sum(Filter(trips, Untagged()), NetOf()) == Sum(trips, NetOf())
  {
    if trips == [] {
    } else {
      UntaggedRest(trips[1..]);
      var t := trips[0];
      var rest := Filter(trips[1..], Untagged());
      assert ([t] + rest)[1..] == rest;
      assert |t.entryTags| <= 1;
      assert NetPerTag()(t) == if t.entryTags == [] then 0.0 else t.netPnl;
    }
  }

  // ---------- The loop ----------

  /** Groups the trips, summarizes each group and ranks the summaries. */
  method AttributeTrips(trips: seq<RoundTrip>, total: real) returns (rows: seq<SymbolAttribution>)
    ensures rows == AttributeBySymbol(trips, total)
  {
    var groups: seq<Group<Symbol, RoundTrip>> := [];
    for i := 0 to |trips|
      invariant groups == GroupBy(trips[..i], TripSymbol())
    {
      assert trips[..i + 1][..i] == trips[..i];
      groups := AddTo(groups, trips[i].symbol, trips[i]);
    }
    assert trips[..|trips|] == trips;
    var out: seq<SymbolAttribution> := [];
    for i := 0 to |groups|
      invariant out == SymbolRows(groups[..i], total)
    {
      assert groups[..i + 1][..i] == groups[..i];
      out := out + [SymbolRow(groups[i], total)];
    }
    assert groups[..|groups|] == groups;
    rows := SortBy(out, RanksBefore);
  }
}
