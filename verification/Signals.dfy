/**
 Attribution by signal and the complete attribution: the event log and the tagged trips are
 gathered in dictionaries, one row per name, and the rows are ranked.
 */
module Signals {
  import opened Prelude
  import opened Types
  import opened Groups
  import opened StableSorts
  import opened Engine
  import opened Analytics
  import opened Attribution

  // ---------- Dictionaries ----------

  function CountIn(m: map<string, nat>, name: string): nat {
    if name in m then m[name] else 0
  }

  function TripsIn(m: map<string, seq<RoundTrip>>, name: string): seq<RoundTrip> {
    if name in m then m[name] else []
  }

  /** A dictionary that counts exactly the events of each name that pass the test, and lists no other name. */
  ghost predicate Counts(m: map<string, nat>, events: seq<SignalEvent>, test: string -> (SignalEvent -> bool)) {
    forall name: string :: (name in m <==> Count(events, test(name)) > 0) && CountIn(m, name) == Count(events, test(name))
  }

  function FiredBy(): string -> (SignalEvent -> bool) {
    (name: string) => Fired(name)
  }

  function BlockedBy(): string -> (SignalEvent -> bool) {
    (name: string) => Blocked(name)
  }

  /** A dictionary that lists exactly the trips carrying each tag, in order. */
  ghost predicate ListsTagged(m: map<string, seq<RoundTrip>>, trips: seq<RoundTrip>) {
    forall name: string :: (name in m <==> Filter(trips, Tagged(name)) != []) && TripsIn(m, name) == Filter(trips, Tagged(name))
  }

  lemma CountsSnoc(m: map<string, nat>, events: seq<SignalEvent>, e: SignalEvent, test: string -> (SignalEvent -> bool))
    requires Counts(m, events, test)
    requires forall name: string {:trigger test(name)} :: test(name)(e) ==> name == e.name
    ensures Counts(if test(e.name)(e) then m[e.name := CountIn(m, e.name) + 1] else m, events + [e], test)
  {
    var after := if test(e.name)(e) then m[e.name := CountIn(m, e.name) + 1] else m;
    forall name: string
      ensures (name in after <==> Count(events + [e], test(name)) > 0) && CountIn(after, name) == Count(events + [e], test(name))
    {
      CountAppend(events, [e], test(name));
      assert Count([e], test(name)) == if test(name)(e) then 1 else 0;
    }
  }

  /** Counts the events by outcome and name. */
  method CountEvents(events: seq<SignalEvent>) returns (fired: map<string, nat>, blocked: map<string, nat>)
    ensures Counts(fired, events, FiredBy()) && Counts(blocked, events, BlockedBy())
  {
    fired, blocked := map[], map[];
    for i := 0 to |events|
      invariant Counts(fired, events[..i], FiredBy()) && Counts(blocked, events[..i], BlockedBy())
    {
      var e := events[i];
      CountsSnoc(fired, events[..i], e, FiredBy());
      CountsSnoc(blocked, events[..i], e, BlockedBy());
      assert events[..i + 1] == events[..i] + [e];
      hide Counts;
      if e.passed {
        fired := fired[e.name := CountIn(fired, e.name) + 1];
      } else {
        blocked := blocked[e.name := CountIn(blocked, e.name) + 1];
      }
    }
    assert events[..|events|] == events;
  }

  /** The trips so far, with the last one filed under some of its tags only. */
  ghost predicate ListsUpTo(m: map<string, seq<RoundTrip>>, trips: seq<RoundTrip>, t: RoundTrip, done: seq<string>) {
    forall name: string ::
      && (name in m <==> Filter(trips, Tagged(name)) != [] || name in done)
      && TripsIn(m, name) == Filter(trips, Tagged(name)) + (if name in done then [t] else [])
  }

  lemma FiledUnderAll(m: map<string, seq<RoundTrip>>, trips: seq<RoundTrip>, t: RoundTrip)
    requires ListsUpTo(m, trips, t, t.entryTags)
    ensures ListsTagged(m, trips + [t])
  {
    forall name: string
      ensures (name in m <==> Filter(trips + [t], Tagged(name)) != []) && TripsIn(m, name) == Filter(trips + [t], Tagged(name))
    {
      FilterAppend(trips, [t], Tagged(name));
      assert Filter([t], Tagged(name)) == if name in t.entryTags then [t] else [];
    }
  }

  lemma FiledUnderOneMore(m: map<string, seq<RoundTrip>>, trips: seq<RoundTrip>, t: RoundTrip, done: seq<string>, tag: string)
    requires ListsUpTo(m, trips, t, done) && tag !in done
    ensures ListsUpTo(m[tag := TripsIn(m, tag) + [t]], trips, t, done + [tag])
  {
  }

  lemma FiledUnderNone(m: map<string, seq<RoundTrip>>, trips: seq<RoundTrip>, t: RoundTrip)
    requires ListsTagged(m, trips)
    ensures ListsUpTo(m, trips, t, [])
  {
  }

  lemma NotYetDone(tags: seq<string>, j: nat)
    requires Distinct(tags) && j < |tags|
    ensures tags[j] !in tags[..j] && tags[..j + 1] == tags[..j] + [tags[j]]
  {
  }

  /** Files one trip under every one of its tags. */
  method FileTrip(before: map<string, seq<RoundTrip>>, ghost trips: seq<RoundTrip>, t: RoundTrip)
    returns (byTag: map<string, seq<RoundTrip>>)
    requires ListsTagged(before, trips) && Distinct(t.entryTags)
    ensures ListsTagged(byTag, trips + [t])
  {
    hide ListsTagged, ListsUpTo, Distinct;
    byTag := before;
    var tags := t.entryTags;
    FiledUnderNone(before, trips, t);
    assert tags[..0] == [];
    for j := 0 to |tags|
      invariant ListsUpTo(byTag, trips, t, tags[..j])
    {
      NotYetDone(tags, j);
      FiledUnderOneMore(byTag, trips, t, tags[..j], tags[j]);
      byTag := byTag[tags[j] := TripsIn(byTag, tags[j]) + [t]];
    }
    assert tags[..|tags|] == tags;
    FiledUnderAll(byTag, trips, t);
  }

  method GroupByTag(trips: seq<RoundTrip>) returns (byTag: map<string, seq<RoundTrip>>)
    requires forall t :: t in trips ==> Distinct(t.entryTags)
    ensures ListsTagged(byTag, trips)
  {
    byTag := map[];
    for i := 0 to |trips|
      invariant ListsTagged(byTag, trips[..i])
    {
      assert trips[i] in trips;
      assert trips[..i + 1] == trips[..i] + [trips[i]];
      byTag := FileTrip(byTag, trips[..i], trips[i]);
    }
    assert trips[..|trips|] == trips;
  }

  // ---------- The rows ----------

  function SignalRows(names: seq<string>, trips: seq<RoundTrip>, events: seq<SignalEvent>, total: real): seq<SignalAttribution> {
    if names == [] then []
    else SignalRows(names[..|names| - 1], trips, events, total) + [SignalRow(names[|names| - 1], trips, events, total)]
  }

  /** Best-paying first, ties broken by trade count. */
  predicate PaysBefore(a: SignalAttribution, b: SignalAttribution) {
    a.netPnl > b.netPnl || (a.netPnl == b.netPnl && a.numTrades >= b.numTrades)
  }

  /** A name gets a row when it was evaluated at some bar or tags some trip. */
  predicate Named(name: string, trips: seq<RoundTrip>, events: seq<SignalEvent>) {
    (exists e :: e in events && e.name == name) || (exists t :: t in trips && name in t.entryTags)
  }

  lemma NamesAreKeys(fired: map<string, nat>, blocked: map<string, nat>, byTag: map<string, seq<RoundTrip>>,
                     trips: seq<RoundTrip>, events: seq<SignalEvent>, name: string)
    requires Counts(fired, events, FiredBy()) && Counts(blocked, events, BlockedBy()) && ListsTagged(byTag, trips)
    ensures name in fired.Keys + blocked.Keys + byTag.Keys <==> Named(name, trips, events)
  {
    CountZero(events, Fired(name));
    CountZero(events, Blocked(name));
    FilterMembers(trips, Tagged(name));
    var tagged := Filter(trips, Tagged(name));
    assert name in fired <==> Count(events, FiredBy()(name)) > 0;
    assert name in blocked <==> Count(events, BlockedBy()(name)) > 0;
    if tagged != [] {
      assert tagged[0] in tagged;
    }
  }

  /**
   One ranked row per name: every name that was evaluated or tags a trip appears once, with
   its event counts and the summary of exactly the trips it tags. The names are gathered
   from a set, so their order before the ranking is arbitrary.
   */
  method AttributeSignals(trips: seq<RoundTrip>, events: seq<SignalEvent>, total: real)
    returns (names: seq<string>, rows: seq<SignalAttribution>)
    requires forall t :: t in trips ==> Distinct(t.entryTags)
    ensures Distinct(names) && forall name :: name in names <==> Named(name, trips, events)
    ensures rows == SortBy(SignalRows(names, trips, events, total), PaysBefore)
  {
    hide SignalRow, Named, Counts, ListsTagged;
    var fired, blocked := CountEvents(events);
    var byTag := GroupByTag(trips);
    var rest := fired.Keys + blocked.Keys + byTag.Keys;
    ghost var all := rest;
    names := [];
    var out: seq<SignalAttribution> := [];
    while rest != {}
      invariant rest <= all && Distinct(names)
      invariant forall name :: name in all <==> name in rest || name in names
      invariant forall name :: name in names ==> name !in rest
      invariant out == SignalRows(names, trips, events, total)
    {
      var name :| name in rest;
      rest := rest - {name};
      var row := SummarizeSignal(name, fired, blocked, byTag, trips, events, total);
      assert (names + [name])[..|names|] == names;
      out := out + [row];
      names := names + [name];
    }
    forall name ensures name in names <==> Named(name, trips, events) {
      NamesAreKeys(fired, blocked, byTag, trips, events, name);
    }
    rows := SortBy(out, PaysBefore);
  }

  method SummarizeSignal(name: string, fired: map<string, nat>, blocked: map<string, nat>, byTag: map<string, seq<RoundTrip>>,
                         ghost trips: seq<RoundTrip>, ghost events: seq<SignalEvent>, total: real)
    returns (row: SignalAttribution)
    requires Counts(fired, events, FiredBy()) && Counts(blocked, events, BlockedBy()) && ListsTagged(byTag, trips)
    ensures row == SignalRow(name, trips, events, total)
  {
    var tagged := TripsIn(byTag, name);
    assert tagged == Filter(trips, Tagged(name));
    var n, wins, net := |tagged|, Count(tagged, Won()), Sum(tagged, NetOf());
    row := SignalAttribution(name, CountIn(fired, name), CountIn(blocked, name), n, wins, Count(tagged, Lost()),
                             WinRate(wins, n), net, if n > 0 then net / n as real else 0.0, PctOf(net, total));
    assert CountIn(fired, name) == Count(events, FiredBy()(name));
    assert CountIn(blocked, name) == Count(events, BlockedBy()(name));
  }

  lemma {:induction false} SignalRowsMatch(names: seq<string>, trips: seq<RoundTrip>, events: seq<SignalEvent>, total: real)
    ensures forall r :: r in SignalRows(names, trips, events, total) <==>
              r.name in names && r == SignalRow(r.name, trips, events, total)
  {
    if names == [] {
    } else {
      var n := |names| - 1;
      SignalRowsMatch(names[..n], trips, events, total);
      assert names == names[..n] + [names[n]];
      hide SignalRow;
      assert SignalRow(names[n], trips, events, total).name == names[n] by { RowIsNamed(names[n], trips, events, total); }
    }
  }

  lemma RowIsNamed(name: string, trips: seq<RoundTrip>, events: seq<SignalEvent>, total: real)
    ensures SignalRow(name, trips, events, total).name == name
  {
  }

  function RowPay(): SignalAttribution -> real {
    (r: SignalAttribution) => r.netPnl
  }

  lemma {:induction false} RowsPay(names: seq<string>, trips: seq<RoundTrip>, events: seq<SignalEvent>, total: real)
    ensures Sum(SignalRows(names, trips, events, total), RowPay()) == Sum(names, SignalNet(trips))
  {
    if names == [] {
    } else {
      hide Sum;
      var n := |names| - 1;
      RowsPay(names[..n], trips, events, total);
      SumSnoc(SignalRows(names[..n], trips, events, total), SignalRow(names[n], trips, events, total), RowPay());
      SumLast(names, SignalNet(trips));
    }
  }

  // ---------- The complete attribution ----------

  datatype BacktestAttribution = BacktestAttribution(
    totalNetPnl: real,
    numClosedTrades: nat,
    bySymbol: seq<SymbolAttribution>,
    bySignal: seq<SignalAttribution>,
    untaggedTrades: nat,
    untaggedNetPnl: real,
    bestSymbol: Option<Symbol>,
    worstSymbol: Option<Symbol>,
    bestSignal: Option<string>,
    worstSignal: Option<string>)

  /** The named symbols are those of the first and last rows, and their rows bound every row. */
  predicate SymbolsBounded(rows: seq<SymbolAttribution>, best: Option<Symbol>, worst: Option<Symbol>) {
    if rows == [] then best.None? && worst.None?
    else
      var n := |rows| - 1;
      && best == Some(rows[0].symbol) && worst == Some(rows[n].symbol)
      && forall r :: r in rows ==>
           && PaysAtLeast(rows[0].netPnl, rows[0].numTrades, r.netPnl, r.numTrades)
           && PaysAtLeast(r.netPnl, r.numTrades, rows[n].netPnl, rows[n].numTrades)
  }

  predicate SignalsBounded(rows: seq<SignalAttribution>, best: Option<string>, worst: Option<string>) {
    if rows == [] then best.None? && worst.None?
    else
      var n := |rows| - 1;
      && best == Some(rows[0].name) && worst == Some(rows[n].name)
      && forall r :: r in rows ==>
           && PaysAtLeast(rows[0].netPnl, rows[0].numTrades, r.netPnl, r.numTrades)
           && PaysAtLeast(r.netPnl, r.numTrades, rows[n].netPnl, rows[n].numTrades)
  }

  predicate Descending(rows: seq<SignalAttribution>) {
    forall i, j :: 0 <= i < j < |rows| ==> PaysAtLeast(rows[i].netPnl, rows[i].numTrades, rows[j].netPnl, rows[j].numTrades)
  }

  /** The best symbol's trips earned at least what those of any symbol did, and the worst symbol's at most that. */
  ghost predicate ExtremesOfTrips(trips: seq<RoundTrip>, best: Option<Symbol>, worst: Option<Symbol>) {
    forall t :: t in trips ==>
      best.Some? && worst.Some? && NetOfSymbol(trips, worst.value) <= NetOfSymbol(trips, t.symbol) <= NetOfSymbol(trips, best.value)
  }

  /** The rows are exactly the summaries of the names that were evaluated or tag a trip. */
  ghost predicate RowPerName(rows: seq<SignalAttribution>, trips: seq<RoundTrip>, events: seq<SignalEvent>, total: real) {
    forall r :: r in rows <==> Named(r.name, trips, events) && r == SignalRow(r.name, trips, events, total)
  }

  function RowName(): SignalAttribution -> string {
    (r: SignalAttribution) => r.name
  }

  /** The attribution made of the ranked rows: totals, the untagged trips, and the ends of the ranking. */
  function AttributionOf(trips: seq<RoundTrip>, bySymbol: seq<SymbolAttribution>, bySignal: seq<SignalAttribution>): BacktestAttribution {
    var untagged := Filter(trips, Untagged());
    BacktestAttribution(
      Sum(trips, NetOf()), |trips|, bySymbol, bySignal, |untagged|, Sum(untagged, NetOf()),
      if bySymbol != [] then Some(bySymbol[0].symbol) else None,
      if bySymbol != [] then Some(bySymbol[|bySymbol| - 1].symbol) else None,
      if bySignal != [] then Some(bySignal[0].name) else None,
      if bySignal != [] then Some(bySignal[|bySignal| - 1].name) else None)
  }

  /**
   The attribution of a list of closed trips. The rows by symbol are those of the ranked
   partition; the best and worst symbols bound every row; the signal rows are ranked, one to
   a name, and their nets add up to each trip's P&L once per tag; and when no trip carries two
   tags, the signal rows and the untagged trips together make up the total.
   */
  method ComputeAttribution(trips: seq<RoundTrip>, events: seq<SignalEvent>) returns (a: BacktestAttribution)
    requires forall t :: t in trips ==> Distinct(t.entryTags)
    ensures a.totalNetPnl == Sum(trips, NetOf()) && a.numClosedTrades == |trips|
    ensures a.bySymbol == AttributeBySymbol(trips, a.totalNetPnl)
    ensures Sum(a.bySymbol, RowNet()) == a.totalNetPnl
    ensures Sum(a.bySignal, RowPay()) == Sum(trips, NetPerTag())
    ensures (forall t :: t in trips ==> |t.entryTags| <= 1) ==> Sum(a.bySignal, RowPay()) + a.untaggedNetPnl == a.totalNetPnl
    ensures a.untaggedTrades == Count(trips, Untagged()) && a.untaggedNetPnl == Sum(Filter(trips, Untagged()), NetOf())
    ensures a.bySymbol == [] <==> trips == []
    ensures SymbolsBounded(a.bySymbol, a.bestSymbol, a.worstSymbol)
    ensures ExtremesOfTrips(trips, a.bestSymbol, a.worstSymbol)
    ensures RowPerName(a.bySignal, trips, events, a.totalNetPnl)
    ensures DistinctBy(a.bySignal, RowName()) && Descending(a.bySignal)
    ensures SignalsBounded(a.bySignal, a.bestSignal, a.worstSignal)
  {
    var total := Sum(trips, NetOf());
    var bySymbol := AttributeTrips(trips, total);
    var names, bySignal := AttributeSignals(trips, events, total);
    a := AttributionOf(trips, bySymbol, bySignal);
    hide *;
    TotalsAttributed(trips, bySymbol, bySignal);
    SymbolSide(trips, bySymbol, bySignal);
    SignalSide(names, trips, events, bySymbol, bySignal);
    SignalMoney(names, trips, events, total);
  }

  lemma TotalsAttributed(trips: seq<RoundTrip>, bySymbol: seq<SymbolAttribution>, bySignal: seq<SignalAttribution>)
    ensures var a := AttributionOf(trips, bySymbol, bySignal);
            && a.totalNetPnl == Sum(trips, NetOf()) && a.numClosedTrades == |trips|
            && a.bySymbol == bySymbol && a.bySignal == bySignal
            && a.untaggedTrades == Count(trips, Untagged())
            && a.untaggedNetPnl == Sum(Filter(trips, Untagged()), NetOf())
  {
    hide Sum, Count, Filter;
    UntaggedCount(trips);
  }

  lemma SymbolSide(trips: seq<RoundTrip>, bySymbol: seq<SymbolAttribution>, bySignal: seq<SignalAttribution>)
    requires bySymbol == AttributeBySymbol(trips, Sum(trips, NetOf()))
    ensures var a := AttributionOf(trips, bySymbol, bySignal);
            && Sum(a.bySymbol, RowNet()) == a.totalNetPnl
            && (a.bySymbol == [] <==> trips == [])
            && SymbolsBounded(a.bySymbol, a.bestSymbol, a.worstSymbol)
            && ExtremesOfTrips(trips, a.bestSymbol, a.worstSymbol)
  {
    hide Sum, Filter, AttributeBySymbol, RanksBefore, NetOfSymbol;
    RankedSymbols(trips);
    SomeRow(trips, Sum(trips, NetOf()));
    EndsBound(bySymbol, RanksBefore);
    RankingIsTotal();
    forall t | t in trips
      ensures bySymbol != [] && NetOfSymbol(trips, bySymbol[|bySymbol| - 1].symbol) <= NetOfSymbol(trips, t.symbol) <= NetOfSymbol(trips, bySymbol[0].symbol)
    {
      RowOfTrip(trips, bySymbol, t);
    }
  }

  lemma RowOfTrip(trips: seq<RoundTrip>, rows: seq<SymbolAttribution>, t: RoundTrip)
    requires rows == AttributeBySymbol(trips, Sum(trips, NetOf())) && t in trips
    requires rows != [] ==> forall r :: r in rows ==> RanksBefore(rows[0], r) && RanksBefore(r, rows[|rows| - 1])
    ensures rows != []
    ensures NetOfSymbol(trips, rows[|rows| - 1].symbol) <= NetOfSymbol(trips, t.symbol) <= NetOfSymbol(trips, rows[0].symbol)
  {
    hide AttributeBySymbol, Sum, Filter, Ordered, PaysAtLeast;
    SymbolAttributionAddsUp(trips);
    assert HasTrip(trips, t.symbol);
    assert HasRow(rows, t.symbol);
    var r :| r in rows && r.symbol == t.symbol;
    NetIsColumn(trips, Sum(trips, NetOf()), r);
    NetIsColumn(trips, Sum(trips, NetOf()), rows[0]);
    NetIsColumn(trips, Sum(trips, NetOf()), rows[|rows| - 1]);
  }

  lemma NetIsColumn(trips: seq<RoundTrip>, total: real, r: SymbolAttribution)
    requires r == SymbolRow(Group(r.symbol, Filter(trips, HasKey(TripSymbol(), r.symbol))), total)
    ensures r.netPnl == NetOfSymbol(trips, r.symbol)
  {
    hide Sum, Filter, Count;
  }

  lemma RankedSymbols(trips: seq<RoundTrip>)
    ensures var rows := AttributeBySymbol(trips, Sum(trips, NetOf()));
            Sum(rows, RowNet()) == Sum(trips, NetOf()) && Ordered(rows, RanksBefore) && TotalPreorder(RanksBefore)
  {
    hide Sum, GroupBy, SymbolRows, SortBy;
    SymbolAttributionAddsUp(trips);
    RankingIsTotal();
    SortOrders(SymbolRows(GroupBy(trips, TripSymbol()), Sum(trips, NetOf())), RanksBefore);
  }

  lemma SignalSide(names: seq<string>, trips: seq<RoundTrip>, events: seq<SignalEvent>,
                   bySymbol: seq<SymbolAttribution>, bySignal: seq<SignalAttribution>)
    requires Distinct(names) && forall name :: name in names <==> Named(name, trips, events)
    requires bySignal == SortBy(SignalRows(names, trips, events, Sum(trips, NetOf())), PaysBefore)
    ensures var a := AttributionOf(trips, bySymbol, bySignal);
            && RowPerName(a.bySignal, trips, events, a.totalNetPnl)
            && DistinctBy(a.bySignal, RowName()) && Descending(a.bySignal)
            && SignalsBounded(a.bySignal, a.bestSignal, a.worstSignal)
  {
    var total := Sum(trips, NetOf());
    hide Sum, Filter, SortBy, Named, SignalRows, RowPerName, DistinctBy, PaysBefore, TotalPreorder, Ordered, Distinct;
    SignalMembers(names, trips, events, total);
    RowsDistinct(names, trips, events, total);
    SignalRank(SignalRows(names, trips, events, total));
    EndsBound(bySignal, PaysBefore);
    RankedIsDescending(bySignal);
  }

  lemma SomeRow(trips: seq<RoundTrip>, total: real)
    ensures AttributeBySymbol(trips, total) == [] <==> trips == []
  {
    var groups := GroupBy(trips, TripSymbol());
    GroupByGroups(trips, TripSymbol());
    RowsAreGroups(groups, total);
    var rows := SymbolRows(groups, total);
    SortMembers(rows, RanksBefore);
    if trips != [] {
      assert trips[0] in trips;
      var i :| 0 <= i < |groups| && groups[i].key == TripSymbol()(trips[0]);
      assert rows[i] in rows;
      assert rows[i] in SortBy(rows, RanksBefore);
    }
  }

  lemma EndsBound<T(!new)>(s: seq<T>, stays: (T, T) -> bool)
    requires Ordered(s, stays) && TotalPreorder(stays)
    ensures forall x :: x in s ==> stays(s[0], x) && stays(x, s[|s| - 1])
  {
    forall x | x in s ensures stays(s[0], x) && stays(x, s[|s| - 1]) {
      var i :| 0 <= i < |s| && s[i] == x;
      assert stays(x, x);
    }
  }

  lemma SignalMoney(names: seq<string>, trips: seq<RoundTrip>, events: seq<SignalEvent>, total: real)
    requires Distinct(names) && forall name :: name in names <==> Named(name, trips, events)
    requires forall t :: t in trips ==> Distinct(t.entryTags)
    ensures var paid := Sum(SortBy(SignalRows(names, trips, events, total), PaysBefore), RowPay());
            && paid == Sum(trips, NetPerTag())
            && ((forall t :: t in trips ==> |t.entryTags| <= 1) ==>
                  paid + Sum(Filter(trips, Untagged()), NetOf()) == Sum(trips, NetOf()))
  {
    hide Sum, SignalRows, SortBy;
    SortTotal(SignalRows(names, trips, events, total), PaysBefore, RowPay());
    RowsPay(names, trips, events, total);
    assert Covers(names, trips);
    SignalAttributionAddsUp(names, trips);
    if forall t :: t in trips ==> |t.entryTags| <= 1 {
      SingleTagsPartition(names, trips);
    }
  }

  lemma SignalMembers(names: seq<string>, trips: seq<RoundTrip>, events: seq<SignalEvent>, total: real)
    requires forall name :: name in names <==> Named(name, trips, events)
    ensures RowPerName(SortBy(SignalRows(names, trips, events, total), PaysBefore), trips, events, total)
  {
    hide Named, SignalRow, SignalRows, SortBy;
    SortMembers(SignalRows(names, trips, events, total), PaysBefore);
    SignalRowsMatch(names, trips, events, total);
  }

  lemma SignalRank(rows: seq<SignalAttribution>)
    ensures Ordered(SortBy(rows, PaysBefore), PaysBefore) && TotalPreorder(PaysBefore)
  {
    PayingIsTotal();
    SortOrders(rows, PaysBefore);
  }

  lemma {:induction false} RowNames(names: seq<string>, trips: seq<RoundTrip>, events: seq<SignalEvent>, total: real)
    ensures |SignalRows(names, trips, events, total)| == |names|
    ensures forall i :: 0 <= i < |names| ==> SignalRows(names, trips, events, total)[i].name == names[i]
  {
    if names != [] {
      RowNames(names[..|names| - 1], trips, events, total);
      RowIsNamed(names[|names| - 1], trips, events, total);
      hide SignalRow;
    }
  }

  lemma RowsDistinct(names: seq<string>, trips: seq<RoundTrip>, events: seq<SignalEvent>, total: real)
    requires Distinct(names)
    ensures DistinctBy(SortBy(SignalRows(names, trips, events, total), PaysBefore), RowName())
  {
    hide SignalRows, SortBy;
    RowNames(names, trips, events, total);
    SortKeepsDistinct(SignalRows(names, trips, events, total), PaysBefore, RowName());
  }

  lemma RankedIsDescending(rows: seq<SignalAttribution>)
    requires Ordered(rows, PaysBefore)
    ensures Descending(rows)
    ensures forall a, b :: PaysBefore(a, b) <==> PaysAtLeast(a.netPnl, a.numTrades, b.netPnl, b.numTrades)
  {
  }

  lemma PayingIsTotal()
    ensures TotalPreorder(PaysBefore)
  {
  }

  lemma {:induction false} UntaggedCount(trips: seq<RoundTrip>)
    ensures |Filter(trips, Untagged())| == Count(trips, Untagged())
  {
    if trips == [] {
    } else {
      UntaggedCount(trips[1..]);
    }
  }
}
