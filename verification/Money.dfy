/**
 The engine's average-cost accounting and the analytics' round trips are two routes from
 the same fills to the same money. They meet here, and both meet the engine's cash.
 */
module Money {
  import opened Prelude
  import opened Types
  import opened Accounts
  import opened Groups
  import opened StableSorts
  import opened Timelines
  import opened Engine
  import opened Causality
  import opened Lifecycle
  import opened Ledger
  import opened RoundTrips
  import opened Analytics
  import opened Attribution

  // ---------- One symbol: average cost against round trips ----------

  /** The position after a list of fills at multiplier m. */
  function Replay(p: Position, fills: seq<Fill>, m: real): Position {
    if fills == [] then p
    else
      var n := |fills| - 1;
      ApplyToPosition(Replay(p, fills[..n], m), SignedQuantity(fills[n]), fills[n].price, fills[n].fee, m)
  }

  /** The fees charged against realized P&L on the way. */
  function ReducingFees(p: Position, fills: seq<Fill>, m: real): real {
    if fills == [] then 0.0
    else
      var n := |fills| - 1;
      ReducingFees(p, fills[..n], m)
      + (if Reduces(Replay(p, fills[..n], m).quantity, SignedQuantity(fills[n])) then fills[n].fee else 0.0)
  }

  lemma {:induction false} ReplayBasis(p: Position, fills: seq<Fill>, m: real)
    requires Carries(p, m) && AllOf(p.symbol, fills)
    ensures var q := Replay(p, fills, m);
            && q.quantity == p.quantity + Net(fills) && Carries(q, m) && q.symbol == p.symbol
            && Basis(q) == Basis(p) + Sum(fills, ProceedsFor(p.symbol, m)) - ReducingFees(p, fills, m)
  {
    if fills == [] {
    } else {
      var n := |fills| - 1;
      ReplayBasis(p, fills[..n], m);
      FillMovesBasis(Replay(p, fills[..n], m), SignedQuantity(fills[n]), fills[n].price, fills[n].fee, m);
      SumLast(fills, ProceedsFor(p.symbol, m));
      SumLast(fills, SignedOf());
      assert fills[n] in fills;
      hide ApplyToPosition, Basis, Sum;
    }
  }

  lemma OwnProceeds(symbol: Symbol, fills: seq<Fill>)
    requires AllOf(symbol, fills)
    ensures Sum(fills, ProceedsFor(symbol, 1.0)) == Sum(fills, ProceedsOf())
  {
    SumEqual(fills, ProceedsFor(symbol, 1.0), ProceedsOf());
  }

  /**
   The two accountings agree. Over any stretch of one symbol's fills that starts and ends
   flat, with adds, partial reductions and flips, the P&L realized by average cost, before
   the fees it charges, is the contract multiplier times the round trip's gross P&L.
   */
  lemma TwoAccountingsAgree(p: Position, fills: seq<Fill>, m: real)
    requires p.quantity == 0.0 && fills != [] && Net(fills) == 0.0 && AllOf(p.symbol, fills)
    ensures Replay(p, fills, m).realizedPnl - p.realizedPnl + ReducingFees(p, fills, m) == m * RoundTripOf(fills).grossPnl
  {
    hide RoundTripOf, Basis, Sum, Replay, ReducingFees, ProceedsFor, ProceedsOf;
    ReplayBasis(p, fills, m);
    FlatBasis(p);
    FlatBasis(Replay(p, fills, m));
    TripIsItsCash(fills);
    OwnProceeds(p.symbol, fills);
    ProceedsScale(fills, p.symbol, m);
    SameScaled(m, Sum(fills, ProceedsFor(p.symbol, 1.0)), RoundTripOf(fills).grossPnl);
  }

  lemma SameScaled(m: real, x: real, y: real)
    requires x == y
    ensures m * x == m * y
  {
  }

  lemma ScaledEqualIff(y: real, m: real, x: real)
    requires y == m * x
    ensures y == x <==> m == 1.0 || x == 0.0
  {
    assert m * x - x == (m - 1.0) * x;
  }

  /** They report the same number if and only if the multiplier is one or there is nothing to report. */
  lemma AccountingsEqualIff(p: Position, fills: seq<Fill>, m: real)
    requires p.quantity == 0.0 && fills != [] && Net(fills) == 0.0 && AllOf(p.symbol, fills)
    ensures Replay(p, fills, m).realizedPnl - p.realizedPnl + ReducingFees(p, fills, m) == RoundTripOf(fills).grossPnl
            <==> m == 1.0 || RoundTripOf(fills).grossPnl == 0.0
  {
    hide RoundTripOf, Replay, ReducingFees;
    TwoAccountingsAgree(p, fills, m);
    ScaledEqualIff(Replay(p, fills, m).realizedPnl - p.realizedPnl + ReducingFees(p, fills, m), m, RoundTripOf(fills).grossPnl);
  }

  /**
   They do differ: one contract of a hundred bought at 10 and sold at 12 has earned 200 by
   average cost, while the round trip reports 2.
   */
  lemma MultiplierIgnored()
    ensures var bought := Fill(OrderId(0), "X", Buy, MARKET, 1.0, 10.0, 0.0, 60, 0, false, []);
            var sold := Fill(OrderId(1), "X", Sell, MARKET, 1.0, 12.0, 0.0, 120, 60, false, []);
            && Net([bought, sold]) == 0.0
            && Replay(ZeroPosition("X"), [bought, sold], 100.0).realizedPnl == 200.0
            && RoundTripOf([bought, sold]).grossPnl == 2.0
  {
    var bought := Fill(OrderId(0), "X", Buy, MARKET, 1.0, 10.0, 0.0, 60, 0, false, []);
    var sold := Fill(OrderId(1), "X", Sell, MARKET, 1.0, 12.0, 0.0, 120, 60, false, []);
    assert [bought, sold] == [bought] + [sold] && [bought, sold][..1] == [bought] && [bought][..0] == [];
    NetSnoc([], bought);
    NetSnoc([bought], sold);
    TripIsItsCash([bought, sold]);
    SumSnoc([bought], sold, ProceedsOf());
    SumSnoc([], bought, ProceedsOf());
    assert [] + [bought] == [bought];
  }

  lemma FlatBasis(p: Position)
    requires p.quantity == 0.0
    ensures Basis(p) == p.realizedPnl
  {
    NotionalZero(p.avgCost, p.multiplier);
  }

  // ---------- Runs ----------

  lemma {:induction false} FilteredTotal(fills: seq<Fill>, symbol: Symbol, weight: Fill -> real, masked: Fill -> real)
    requires forall f: Fill {:trigger masked(f)} :: masked(f) == if f.symbol == symbol then weight(f) else 0.0
    ensures Sum(Filter(fills, HasKey(SymbolOf(), symbol)), weight) == Sum(fills, masked)
  {
    if fills == [] {
    } else {
      FilteredTotal(fills[1..], symbol, weight, masked);
      var rest := Filter(fills[1..], HasKey(SymbolOf(), symbol));
      assert ([fills[0]] + rest)[1..] == rest;
    }
  }

  /** The fills of one symbol, in the order they were logged. */
  function SymbolFills(fills: seq<Fill>, symbol: Symbol): seq<Fill> {
    Filter(fills, HasKey(SymbolOf(), symbol))
  }

  lemma HeldIsNet(fills: seq<Fill>, symbol: Symbol)
    ensures Held(fills, symbol) == Net(SymbolFills(fills, symbol))
  {
    FilteredTotal(fills, symbol, SignedOf(), SignedFor(symbol));
  }

  lemma SymbolProceeds(fills: seq<Fill>, symbol: Symbol)
    ensures Sum(fills, ProceedsFor(symbol, 1.0)) == Sum(SymbolFills(fills, symbol), ProceedsOf())
  {
    FilteredTotal(fills, symbol, ProceedsOf(), ProceedsFor(symbol, 1.0));
  }

  /** A symbol whose fills net to zero is all closed trips, and their gross P&L is its sells minus buys. */
  lemma FlatSymbolGross(fills: seq<Fill>)
    requires Net(fills) == 0.0
    ensures ExtractSymbol(fills).open == []
    ensures Sum(ExtractSymbol(fills).closed, GrossOf()) == Sum(fills, ProceedsOf())
  {
    var sorted := SortByTime(fills);
    SortTotal(fills, NoLater, SignedOf());
    SortTotal(fills, NoLater, ProceedsOf());
    FlatMeansClosed(sorted);
    SegmentIsSegmentation(sorted);
    var s := Segment(sorted);
    hide Segment, Sum, RoundTripOf, Concat;
    forall i | 0 <= i < |s.closed| ensures s.closed[i] != [] && GrossOf()(RoundTripOf(s.closed[i])) == Sum(s.closed[i], ProceedsOf()) {
      assert IsTrip(s.closed[i]);
      TripIsItsCash(s.closed[i]);
    }
    SummariesTotal(s.closed, GrossOf(), ProceedsOf());
    assert Concat(s.closed) + [] == Concat(s.closed);
  }

  /**
   In every reachable state in which a symbol is flat, the engine's realized P&L on it, before
   the fees of reducing fills, is its multiplier times the gross P&L of its closed trips.
   */
  lemma RealizedMatchesTrips<S>(env: Env<S>, k: nat, s: Symbol)
    requires k <= |Timeline(env.market)| && Get(Run(env, k).account.book, s).quantity == 0.0
    ensures var st := Run(env, k);
            var e := ExtractSymbol(SymbolFills(st.log.fills, s));
            && e.open == []
            && Get(st.account.book, s).realizedPnl + ExitFees(st.log.fills, s)
               == env.config.MultiplierFor(s) * Sum(e.closed, GrossOf())
  {
    hide Run, Basis, Sum, ExtractSymbol, ExitFees, Get, ProceedsFor, ProceedsOf, FlowOf, Held, SymbolFills;
    AccountReconciles(env, k, s);
    var st := Run(env, k);
    FlatBasis(Get(st.account.book, s));
    HeldIsNet(st.log.fills, s);
    FlatSymbolGross(SymbolFills(st.log.fills, s));
    SymbolProceeds(st.log.fills, s);
    ProceedsScale(st.log.fills, s, env.config.MultiplierFor(s));
    SameScaled(env.config.MultiplierFor(s), Sum(st.log.fills, ProceedsFor(s, 1.0)),
               Sum(ExtractSymbol(SymbolFills(st.log.fills, s)).closed, GrossOf()));
  }

  /** The sort by time in the analytics changes nothing on any symbol's fills of a run. */
  lemma SortChangesNothing<S>(env: Env<S>, k: nat, s: Symbol)
    requires k <= |Timeline(env.market)|
    ensures var fills := SymbolFills(Run(env, k).log.fills, s); SortByTime(fills) == fills
  {
    hide Run;
    FillsLoggedInOrder(env, k);
    FilterOrdered(Run(env, k).log.fills, NoLater, HasKey(SymbolOf(), s));
    SortKeepsOrder(SymbolFills(Run(env, k).log.fills, s), NoLater);
  }

  /** Fills are logged in time order. */
  lemma {:induction false} FillsLoggedInOrder<S>(env: Env<S>, k: nat)
    requires k <= |Timeline(env.market)|
    ensures Ordered(Run(env, k).log.fills, NoLater)
  {
    hide Step;
    if k == 0 {
    } else {
      var tl := Timeline(env.market);
      FillsLoggedInOrder(env, k - 1);
      var before, after := Run(env, k - 1).log.fills, Run(env, k).log.fills;
      StepContinues(env, TickAt(env.market, k - 1, tl[k - 1]), Run(env, k - 1));
      forall f | f in before ensures f.filledTs < tl[k - 1] {
        EarlierStamps(env, k, f);
      }
      forall i, j | 0 <= i < j < |after| ensures NoLater(after[i], after[j]) {
        if i < |before| { assert after[i] == before[i] && before[i] in before; }
        if j < |before| { assert after[j] == before[j]; }
      }
    }
  }

  ghost predicate UnitMultipliers(config: Config) {
    forall s: Symbol :: config.MultiplierFor(s) == 1.0
  }

  /** The cash a trip brought in at its symbol's multiplier, after fees. */
  function TripCash(config: Config): RoundTrip -> real {
    (t: RoundTrip) => config.MultiplierFor(t.symbol) * t.grossPnl - t.fees
  }

  lemma {:induction false} FlowsScale(config: Config, fills: seq<Fill>, s: Symbol)
    requires AllOf(s, fills)
    ensures Sum(fills, FlowOf(config)) == config.MultiplierFor(s) * Sum(fills, ProceedsOf()) - Sum(fills, FeeOf())
  {
    if fills == [] {
    } else {
      var f, m := fills[0], config.MultiplierFor(s);
      FlowsScale(config, fills[1..], s);
      ScaledNotional(SignedQuantity(f), f.price, m);
      var own, rest := -Notional(SignedQuantity(f), f.price, 1.0), Sum(fills[1..], ProceedsOf());
      assert f.symbol == s;
      assert m * (own + rest) == m * own + m * rest;
    }
  }

  lemma TripIsItsFlow(config: Config, trip: seq<Fill>, s: Symbol)
    requires trip != [] && AllOf(s, trip)
    ensures TripCash(config)(RoundTripOf(trip)) == Sum(trip, FlowOf(config))
  {
    hide RoundTripOf, Sum, FlowOf, ProceedsOf, FeeOf, Config.MultiplierFor;
    TripIsItsCash(trip);
    FlowsScale(config, trip, s);
    TripHead(trip);
    assert trip[0] in trip;
    SameScaled(config.MultiplierFor(s), RoundTripOf(trip).grossPnl, Sum(trip, ProceedsOf()));
  }

  lemma TripHead(trip: seq<Fill>)
    requires trip != []
    ensures RoundTripOf(trip).symbol == trip[0].symbol && RoundTripOf(trip).fees == Sum(trip, FeeOf())
  {
    hide Sum, Filter, CollectTags;
  }

  /**
   Money is conserved end to end. In every state of every run, at whatever contract
   multipliers, the change in cash since the start is the gross P&L of each closed round trip
   times its symbol's multiplier, less its fees, plus what the fills of trips still open have
   moved.
   */
  lemma MoneyConserved<S>(env: Env<S>, k: nat)
    requires k <= |Timeline(env.market)|
    ensures Run(env, k).account.cash - env.config.startingCash
         == Accounted(ExtractRoundTrips(Run(env, k).log.fills), TripCash(env.config), FlowOf(env.config))
  {
    hide Run, ExtractRoundTrips;
    RunInOrder(env, k);
    TripsWeighFlows(env.config);
    ExtractionKeepsTotal(Run(env, k).log.fills, TripCash(env.config), FlowOf(env.config));
  }

  lemma TripsWeighFlows(config: Config)
    ensures WeighsItsFills(TripCash(config), FlowOf(config))
  {
    hide RoundTripOf, Sum, TripCash, FlowOf, AllOf;
    forall trip: seq<Fill> | trip != [] && AllOf(trip[0].symbol, trip)
      ensures TripCash(config)(RoundTripOf(trip)) == Sum(trip, FlowOf(config))
    {
      TripIsItsFlow(config, trip, trip[0].symbol);
    }
  }

  /** At multiplier 1 that is the net P&L the analytics report, plus the cash of the open fills. */
  lemma MoneyConservedAtUnit<S>(env: Env<S>, k: nat)
    requires k <= |Timeline(env.market)| && UnitMultipliers(env.config)
    ensures Run(env, k).account.cash - env.config.startingCash
         == Accounted(ExtractRoundTrips(Run(env, k).log.fills), NetOf(), CashOf())
  {
    hide Run, ExtractRoundTrips;
    RunInOrder(env, k);
    UnitFlows(env.config, Run(env, k).log.fills);
    ExtractionConservesCash(Run(env, k).log.fills);
  }

  lemma UnitFlows(config: Config, fills: seq<Fill>)
    requires UnitMultipliers(config)
    ensures Sum(fills, FlowOf(config)) == Sum(fills, CashOf())
  {
    forall f | f in fills ensures FlowOf(config)(f) == CashOf()(f) {
      assert config.MultiplierFor(f.symbol) == 1.0;
    }
    SumEqual(fills, FlowOf(config), CashOf());
  }

  predicate AllFlat(book: seq<Position>) {
    forall p :: p in book ==> p.quantity == 0.0
  }

  lemma FlatEverywhere(book: seq<Position>, s: Symbol)
    requires AllFlat(book)
    ensures Get(book, s).quantity == 0.0
  {
    GetListed(book, s);
  }

  lemma {:induction false} FlatBookIsWorthless(book: seq<Position>, marks: map<Symbol, real>)
    requires AllFlat(book)
    ensures MarkToMarket(book, marks) == 0.0
  {
    forall p | p in book ensures MarketValue(marks)(p) == 0.0 {}
    ZeroSum(book, MarketValue(marks));
  }

  /**
   When a run at multiplier 1 ends flat, the change in cash, the change in equity, the total
   net P&L of the attribution and the sum of its rows by symbol are one and the same number.
   */
  lemma FlatRunAttribution<S>(env: Env<S>, k: nat)
    requires k <= |Timeline(env.market)| && UnitMultipliers(env.config) && AllFlat(Run(env, k).account.book)
    ensures var st := Run(env, k);
            var e := ExtractRoundTrips(st.log.fills);
            var total := Sum(e.closed, NetOf());
            && e.open == []
            && st.account.cash - env.config.startingCash == total
            && Equity(st.account, st.marks) - env.config.startingCash == total
            && Sum(AttributeBySymbol(e.closed, total), RowNet()) == total
  {
    hide Run;
    var st := Run(env, k);
    MoneyConservedAtUnit(env, k);
    RunInOrder(env, k);
    NothingOpen(env.config, st.account, st.log.fills);
    FlatBookIsWorthless(st.account.book, st.marks);
    var e := ExtractRoundTrips(st.log.fills);
    MoneyColumns(e.closed, Sum(e.closed, NetOf()));
  }

  lemma NothingOpen(config: Config, a: Account, fills: seq<Fill>)
    requires Reconciled(config, a, fills) && AllFlat(a.book)
    ensures ExtractRoundTrips(fills).open == []
  {
    var groups := GroupBy(fills, SymbolOf());
    GroupByGroups(fills, SymbolOf());
    forall i | 0 <= i < |groups| ensures Net(groups[i].items) == 0.0 {
      var s := groups[i].key;
      FlatEverywhere(a.book, s);
      assert Agrees(config, fills, Get(a.book, s));
      HeldIsNet(fills, s);
    }
    FlatGroupsClose(groups);
  }
}
