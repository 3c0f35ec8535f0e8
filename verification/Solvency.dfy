/**
 Solvency of a cash account: without shorting and with a margin rate of at least one, no
 run over sane prices and orders ever has negative cash, positions or equity.
 */
module Solvency {
  import opened Prelude
  import opened Types
  import opened Fills
  import opened Accounts
  import opened Timelines
  import opened Engine
  import opened Causality
  import opened Orders
  import opened Lifecycle
  import opened Ledger
  import opened Margin

  /**
   No shorting, no leverage, no options; multipliers of at least one; fees, slippage and
   adverse selection of at most 100 percent.
   */
  ghost predicate CashAccount(config: Config) {
    && !config.allowShort && config.marginRate >= 1.0 && config.startingCash >= 0.0
    && config.feeRateBps <= 10000 && config.slippageBps <= 10000 && config.adverseSelectionBps <= 10000
    && (config.makerFeeBps.Some? ==> config.makerFeeBps.value <= 10000)
    && (forall s: Symbol :: config.MultiplierFor(s) >= 1.0 && !config.IsOption(s))
  }

  /** Limits and stops are not negative, and a trail is at most 100 percent. */
  predicate SaneOrder(o: Order) {
    match o.kind
    case MarketOrder => true
    case LimitOrder(limit) => limit >= 0.0
    case StopOrder(stop) => stop >= 0.0
    case TrailingStop(percent) => percent <= 100.0
  }

  predicate SaneOrders(orders: seq<Order>) {
    forall o :: o in orders ==> SaneOrder(o)
  }

  // ---------- Selling brings in at least its fee ----------

  lemma FractionAtMostOne(bps: int)
    requires bps <= 10000
    ensures Fraction(bps) <= 1.0
  {
  }

  lemma Discounted(base: real, bps: int)
    requires base >= 0.0 && bps <= 10000
    ensures base * (1.0 - Fraction(bps)) >= 0.0
  {
    FractionAtMostOne(bps);
    NonNegativeTimes(base, 1.0 - Fraction(bps));
  }

  lemma TriggerSellPrice(o: Order, orderType: OrderType, trigger: real, bar: Bar, config: Config)
    requires config.slippageBps <= 10000 && trigger >= 0.0 && bar.open >= 0.0 && o.side == Sell
    requires FillAtTrigger(o, orderType, trigger, bar, config).Some?
    ensures FillAtTrigger(o, orderType, trigger, bar, config).value.fill.price >= 0.0
  {
    Discounted(Min(bar.open, trigger), config.slippageBps);
    hide Config.FeeFor, Fraction, ApplyVolumeCap, Breached;
  }

  lemma LimitSellPrice(o: Order, limit: real, bar: Bar, config: Config)
    requires config.adverseSelectionBps <= 10000 && limit >= 0.0 && bar.open >= 0.0 && o.side == Sell
    requires TryFillLimitOrder(o, limit, bar, config).Some?
    ensures TryFillLimitOrder(o, limit, bar, config).value.fill.price >= 0.0
  {
    Discounted(limit, config.adverseSelectionBps);
    hide Config.MakerFeeFor, Fraction, ApplyVolumeCap, LimitCrossed, MakerModelActive;
  }

  lemma TrailSellTrigger(percent: real, water: real)
    requires percent <= 100.0 && water >= 0.0
    ensures TrailTrigger(Sell, percent, water) >= 0.0
  {
    NonNegativeTimes(water, 1.0 - percent / 100.0);
  }

  lemma SellPrice(o: Order, bar: Bar, config: Config, trail: map<nat, real>)
    requires CashAccount(config) && SaneOrder(o) && PositiveBar(bar) && o.side == Sell
    requires TryFill(o, bar, config, trail).0.Some?
    ensures TryFill(o, bar, config, trail).0.value.fill.price >= 0.0
  {
    hide Config.FeeFor, Config.MakerFeeFor, FillAtTrigger, TryFillLimitOrder, ApplyVolumeCap, Fraction, TrailTrigger;
    match o.kind
    case MarketOrder =>
      Discounted(bar.open, config.slippageBps);
    case LimitOrder(limit) =>
      LimitSellPrice(o, limit, bar, config);
    case StopOrder(stop) =>
      TriggerSellPrice(o, STOP, stop, bar, config);
    case TrailingStop(percent) =>
      var water := NextWater(o.side, Lookup(trail, o.id), bar);
      TrailSellTrigger(percent, water);
      TriggerSellPrice(o, TRAILING_STOP, TrailTrigger(o.side, percent, water), bar, config);
  }

  /** The fraction of its value that a fill of the order pays as its fee. */
  function FeeShare(o: Order, config: Config): real {
    if o.kind.LimitOrder? && config.makerFeeBps.Some? then Fraction(config.makerFeeBps.value) else config.FeeRate()
  }

  lemma FeeForIsShare(config: Config, symbol: Symbol, price: real, quantity: real)
    requires !config.IsOption(symbol)
    ensures config.FeeFor(symbol, price, quantity) == Notional(quantity, price, config.FeeRate())
    ensures config.MakerFeeFor(symbol, price, quantity)
         == Notional(quantity, price, if config.makerFeeBps.Some? then Fraction(config.makerFeeBps.value) else config.FeeRate())
  {
    hide Fraction;
  }

  lemma FeeIsShare(o: Order, bar: Bar, config: Config, trail: map<nat, real>)
    requires !config.IsOption(o.symbol)
    requires TryFill(o, bar, config, trail).0.Some?
    ensures var f := TryFill(o, bar, config, trail).0.value.fill; f.fee == Notional(f.quantity, f.price, FeeShare(o, config))
  {
    var f := TryFill(o, bar, config, trail).0.value.fill;
    FeeForIsShare(config, o.symbol, f.price, f.quantity);
    hide Config.FeeFor, Config.MakerFeeFor, Fraction, Notional, LimitFillPrice, TrailTrigger, NextWater;
    hide ApplyVolumeCap, Breached, LimitCrossed;
  }

  lemma ShareAtMostValue(price: real, quantity: real, share: real)
    requires price >= 0.0 && quantity >= 0.0 && share <= 1.0
    ensures Notional(quantity, price, share) <= Notional(quantity, price, 1.0)
  {
    var value := quantity * price;
    NonNegativeTimes(quantity, price);
    NonNegativeTimes(value, 1.0 - share);
    assert value * (1.0 - share) == value - value * share;
  }

  lemma FeeAtMostValue(o: Order, bar: Bar, config: Config, trail: map<nat, real>)
    requires config.feeRateBps <= 10000 && (config.makerFeeBps.Some? ==> config.makerFeeBps.value <= 10000)
    requires !config.IsOption(o.symbol)
    requires TryFill(o, bar, config, trail).0.Some?
    requires var f := TryFill(o, bar, config, trail).0.value.fill; f.price >= 0.0 && f.quantity > 0.0
    ensures var f := TryFill(o, bar, config, trail).0.value.fill; f.fee <= Notional(f.quantity, f.price, 1.0)
  {
    hide TryFill, Notional;
    var f := TryFill(o, bar, config, trail).0.value.fill;
    FractionAtMostOne(config.feeRateBps);
    if config.makerFeeBps.Some? { FractionAtMostOne(config.makerFeeBps.value); }
    FeeIsShare(o, bar, config, trail);
    ShareAtMostValue(f.price, f.quantity, FeeShare(o, config));
  }

  lemma SellKeepsCash(cash: real, quantity: real, price: real, fee: real, m: real)
    requires cash >= 0.0 && quantity > 0.0 && price >= 0.0 && m >= 1.0
    requires fee <= Notional(quantity, price, 1.0)
    ensures cash - Notional(-quantity, price, m) - fee >= 0.0
  {
    var value := quantity * price;
    NonNegativeTimes(quantity, price);
    NonNegativeTimes(value, m - 1.0);
    assert value * (m - 1.0) == value * m - value;
    assert Notional(-quantity, price, m) == -(value * m);
  }

  // ---------- Buying is covered ----------

  /** With long positions at positive marks, gross exposure is the market value. */
  lemma LongGrossIsValue(config: Config, book: seq<Position>, marks: map<Symbol, real>)
    requires DistinctSymbols(book) && LongOnly(book) && PositiveMarks(marks)
    requires forall p :: p in book ==> Carries(p, config.MultiplierFor(p.symbol)) && config.MultiplierFor(p.symbol) >= 1.0
    ensures GrossExposure(book, marks) == MarkToMarket(book, marks) >= 0.0
  {
    forall p | p in book ensures Exposure(marks)(p) == MarketValue(marks)(p) >= 0.0 {
      GetIsEntry(book, p);
      assert Get(book, p.symbol).quantity >= 0.0;
      if p.quantity != 0.0 && p.symbol in marks {
        NonNegativeTimes(p.quantity, marks[p.symbol]);
        NonNegativeTimes(p.quantity * marks[p.symbol], p.multiplier);
      }
    }
    SumEqual(book, Exposure(marks), MarketValue(marks));
    SumNonNegative(book, MarketValue(marks));
  }

  lemma CoveredCash(cash: real, gross: real, rate: real)
    requires gross >= 0.0 && rate >= 1.0 && cash + gross >= rate * gross
    ensures cash >= 0.0
  {
    NonNegativeTimes(rate - 1.0, gross);
    assert (rate - 1.0) * gross == rate * gross - gross;
  }

  lemma ReconciledEntries(config: Config, a: Account, fills: seq<Fill>)
    requires Reconciled(config, a, fills)
    ensures forall p :: p in a.book ==> Carries(p, config.MultiplierFor(p.symbol))
  {
    forall p | p in a.book ensures Carries(p, config.MultiplierFor(p.symbol)) {
      GetIsEntry(a.book, p);
      assert Agrees(config, fills, Get(a.book, p.symbol));
    }
  }

  lemma BuyKeepsCash(config: Config, a: Account, marks: map<Symbol, real>, fills: seq<Fill>, f: Fill)
    requires CashAccount(config) && Reconciled(config, a, fills) && LongOnly(a.book) && PositiveMarks(marks)
    requires f.side == Buy && f.quantity > 0.0 && f.symbol in marks
    requires Objection(config, a, marks, f).None?
    ensures Applied(config, a, f).cash >= 0.0
  {
    hide Objection, ApplyFill, Notional, Sum, Basis;
    var m := config.MultiplierFor(f.symbol);
    var held := Get(a.book, f.symbol).quantity;
    assert held >= 0.0 && m >= 1.0;
    NotionalGrows(Abs(held), Abs(held + f.quantity), marks[f.symbol], m);
    assert MarksWith(marks, f) == marks;
    assert FillExtends(config, a, marks, f);
    assert Agrees(config, fills, Get(a.book, f.symbol));
    ExtensionPassesIff(config, a, marks, f);
    var after := Applied(config, a, f);
    FillReconciles(config, a, fills, f);
    AppliedLongOnly(a, f.symbol, f.side, f.quantity, f.price, f.fee, m);
    ReconciledEntries(config, after, fills + [f]);
    assert forall p :: p in after.book ==> config.MultiplierFor(p.symbol) >= 1.0;
    LongGrossIsValue(config, after.book, marks);
    CoveredCash(after.cash, GrossExposure(after.book, marks), config.marginRate);
  }

  // ---------- One order, one bar, one run ----------

  /** The standing of a solvent cash account while a run tries orders. */
  ghost predicate Solvent<S>(env: Env<S>, tick: Tick, st: State<S>) {
    && InOrder(env.config, st) && LongOnly(st.account.book) && PositiveMarks(st.marks)
    && tick.bars.Keys <= st.marks.Keys && (forall s :: s in tick.bars ==> PositiveBar(tick.bars[s]))
    && st.account.cash >= 0.0
  }

  lemma FillOrderSolvent<S>(env: Env<S>, tick: Tick, st: State<S>, o: Order)
    requires CashAccount(env.config) && Solvent(env, tick, st) && SaneOrder(o) && o.quantity > 0.0
    ensures Solvent(env, tick, FillOrder(env, tick, st, o))
  {
    FillOrderInOrder(env, tick, st, o);
    FillOrderLongOnly(env, tick, st, o);
    FillOrderCash(env, tick, st, o);
    hide FillOrder, InOrder, LongOnly;
  }

  lemma FillOrderCash<S>(env: Env<S>, tick: Tick, st: State<S>, o: Order)
    requires CashAccount(env.config) && Solvent(env, tick, st) && SaneOrder(o) && o.quantity > 0.0
    ensures FillOrder(env, tick, st, o).account.cash >= 0.0
  {
    hide Objection, ApplyFill, Reconciled, LongOnly, Get, Put;
    if o.symbol in tick.bars {
      var bar := tick.bars[o.symbol];
      var touched := Touch(st.account, o.symbol);
      TouchReconciles(env.config, st.account, st.log.fills, o.symbol);
      TouchLongOnly(st.account, o.symbol);
      var execution := TryFill(o, bar, env.config, st.trail).0;
      if execution.Some? && Objection(env.config, touched, st.marks, execution.value.fill).None? {
        var f := execution.value.fill;
        FillSplitsOrder(o, bar, env.config, st.trail);
        var m := env.config.MultiplierFor(f.symbol);
        assert o.symbol in st.marks;
        if o.side == Buy {
          BuyKeepsCash(env.config, touched, st.marks, st.log.fills, f);
        } else {
          SellPrice(o, bar, env.config, st.trail);
          FeeAtMostValue(o, bar, env.config, st.trail);
          SellKeepsCash(touched.cash, f.quantity, f.price, f.fee, m);
          AppliedShape(touched, f.symbol, f.side, f.quantity, f.price, f.fee, m);
        }
      }
    }
  }

  lemma {:induction false} FillsSolvent<S>(env: Env<S>, tick: Tick, st: State<S>, orders: seq<Order>)
    requires CashAccount(env.config) && Solvent(env, tick, st) && SaneOrders(orders)
    requires forall o :: o in orders ==> o.quantity > 0.0
    ensures Solvent(env, tick, FillOrders(env, tick, st, orders))
    decreases |orders|
  {
    hide FillOrder, Solvent;
    if orders == [] {
    } else {
      FillOrderSolvent(env, tick, st, orders[0]);
      FillsSolvent(env, tick, FillOrder(env, tick, st, orders[0]), orders[1..]);
    }
  }

  /** Without options nothing settles. */
  lemma {:induction false} NothingSettles<S>(config: Config, tick: Tick, st: State<S>, symbols: seq<Symbol>)
    requires CashAccount(config)
    ensures SettleAll(config, tick, st, symbols) == st
    decreases |symbols|
  {
    if symbols == [] {
    } else {
      assert !config.IsOption(symbols[0]);
      NothingSettles(config, tick, st, symbols[1..]);
    }
  }

  lemma OpeningSolvent<S>(env: Env<S>, k: nat)
    requires k < |Timeline(env.market)| && CashAccount(env.config) && PositiveMarket(env.market)
    requires Run(env, k).account.cash >= 0.0
    ensures Solvent(env, TickOf(env, k), Opening(env, k).(pending := []))
  {
    hide Run, Step, Timeline, Reconciled, Marked, LongOnly, FillOrders, TickAt, BeforeFills, PositiveMarket;
    RunInOrder(env, k);
    RunLongOnly(env, k);
    RunMarksPositive(env, k);
    var tick := TickOf(env, k);
    var st := Run(env, k);
    TicksPositive(env.market, k, Timeline(env.market)[k]);
    StepMarksPositive(env, k, Timeline(env.market)[k], st);
    BeforeFillsInOrder(env, tick, st);
    OpeningKeepsAccount(env, tick, st);
  }

  lemma OpeningKeepsAccount<S>(env: Env<S>, tick: Tick, st: State<S>)
    requires CashAccount(env.config)
    ensures BeforeFills(env, tick, st).account == st.account
  {
    hide Settles, SettleAll, MarkPhase, SymbolsOf;
    var marked := MarkPhase(tick, st);
    NothingSettles(env.config, tick, marked, SymbolsOf(marked.account.book));
    assert marked.account == st.account by { MarkKeepsAccount(tick, st); }
  }

  lemma MarkKeepsAccount<S>(tick: Tick, st: State<S>)
    ensures MarkPhase(tick, st).account == st.account
  {
  }

  lemma BarOrdersSane<S>(env: Env<S>, k: nat)
    requires k < |Timeline(env.market)| && SaneOrders(Run(env, k).log.submitted)
    ensures SaneOrders(BarOrders(env, k)) && forall o :: o in BarOrders(env, k) ==> o.quantity > 0.0
  {
    hide Run, BeforeFills, Tried, Balanced, Timeline;
    RunBalances(env, k, 0);
    BeforeFillsShape(env, TickOf(env, k), Run(env, k));
    TriedMembers(Run(env, k), k);
    forall o | o in BarOrders(env, k) ensures SaneOrder(o) && o.quantity > 0.0 {
      assert AsSubmitted(Run(env, k).log.submitted, o);
      assert Run(env, k).log.submitted[o.id] in Run(env, k).log.submitted;
    }
  }

  lemma SaneEarlier<S>(env: Env<S>, k: nat, n: nat)
    requires k <= n <= |Timeline(env.market)| && SaneOrders(Run(env, n).log.submitted)
    ensures SaneOrders(Run(env, k).log.submitted)
  {
    hide Run;
    LogsExtend(env, k, n, if k < n then Timeline(env.market)[k] - 1 else 0);
    forall o | o in Run(env, k).log.submitted ensures SaneOrder(o) {
      var i :| 0 <= i < |Run(env, k).log.submitted| && Run(env, k).log.submitted[i] == o;
      assert Run(env, n).log.submitted[i] == o;
    }
  }

  lemma SolventCash<S>(env: Env<S>, tick: Tick, st: State<S>)
    requires Solvent(env, tick, st)
    ensures st.account.cash >= 0.0
  {
  }

  /** After its last order a bar leaves the account alone. */
  lemma BarEndsWithOrders<S>(env: Env<S>, k: nat)
    requires k < |Timeline(env.market)|
    ensures Run(env, k + 1).account == FillOrders(env, TickOf(env, k), Opening(env, k).(pending := []), BarOrders(env, k)).account
  {
    hide FillOrders, BeforeFills;
  }

  lemma BarKeepsCash<S>(env: Env<S>, k: nat)
    requires k < |Timeline(env.market)| && CashAccount(env.config) && PositiveMarket(env.market)
    requires SaneOrders(Run(env, k).log.submitted) && Run(env, k).account.cash >= 0.0
    ensures Run(env, k + 1).account.cash >= 0.0
  {
    hide *;
    var opening := Opening(env, k).(pending := []);
    OpeningSolvent(env, k);
    BarOrdersSane(env, k);
    FillsSolvent(env, TickOf(env, k), opening, BarOrders(env, k));
    SolventCash(env, TickOf(env, k), FillOrders(env, TickOf(env, k), opening, BarOrders(env, k)));
    BarEndsWithOrders(env, k);
  }

  lemma {:induction false} RunSolvent<S>(env: Env<S>, k: nat)
    requires k <= |Timeline(env.market)| && CashAccount(env.config) && PositiveMarket(env.market)
    requires SaneOrders(Run(env, k).log.submitted)
    ensures Run(env, k).account.cash >= 0.0
  {
    hide Step, SaneOrders, PositiveMarket;
    if k == 0 {
    } else {
      SaneEarlier(env, k - 1, k);
      RunSolvent(env, k - 1);
      BarKeepsCash(env, k - 1);
    }
  }

  /** Cash and positions are never negative, not even while a bar is trying its orders. */
  lemma MidBarSolvent<S>(env: Env<S>, k: nat, i: nat)
    requires k < |Timeline(env.market)| && CashAccount(env.config) && PositiveMarket(env.market)
    requires SaneOrders(Run(env, k).log.submitted) && i <= |BarOrders(env, k)|
    ensures MidBar(env, k, i).account.cash >= 0.0 && LongOnly(MidBar(env, k, i).account.book)
  {
    hide FillOrders, BeforeFills, CashAccount, PositiveMarket, Run;
    RunSolvent(env, k);
    OpeningSolvent(env, k);
    BarOrdersSane(env, k);
    FillsSolvent(env, TickOf(env, k), Opening(env, k).(pending := []), BarOrders(env, k)[..i]);
  }

  /**
   Long-only solvency. A cash account running any strategy whose orders are sane, over
   positive prices, always has nonnegative cash and positions, and every point of its
   equity curve is nonnegative.
   */
  lemma CashAccountStaysSolvent<S>(env: Env<S>, n: nat, j: nat)
    requires j < n <= |Timeline(env.market)| && CashAccount(env.config) && PositiveMarket(env.market)
    requires SaneOrders(Run(env, n).log.submitted)
    ensures Run(env, n).account.cash >= 0.0 && LongOnly(Run(env, n).account.book)
    ensures j < |Run(env, n).log.equity|
    ensures Run(env, n).log.equity[j].cash >= 0.0 && Run(env, n).log.equity[j].totalEquity >= 0.0
  {
    hide Run, LongOnly, PositiveMarket, Profit, SaneOrders;
    SaneEarlier(env, j + 1, n);
    RunSolvent(env, n);
    RunSolvent(env, j + 1);
    RunLongOnly(env, n);
    EquityPointOfBar(env, n, j);
    RunValueNonNegative(env, j + 1);
  }

  lemma RunValueNonNegative<S>(env: Env<S>, k: nat)
    requires k <= |Timeline(env.market)| && CashAccount(env.config) && PositiveMarket(env.market)
    ensures MarkToMarket(Run(env, k).account.book, Run(env, k).marks) >= 0.0
  {
    hide Run, Reconciled, LongOnly, PositiveMarket;
    RunLongOnly(env, k);
    RunMarksPositive(env, k);
    RunInOrder(env, k);
    var st := Run(env, k);
    ReconciledEntries(env.config, st.account, st.log.fills);
    DistinctBook(env.config, st.account, st.log.fills);
    LongGrossIsValue(env.config, st.account.book, st.marks);
  }

  lemma DistinctBook(config: Config, a: Account, fills: seq<Fill>)
    requires Reconciled(config, a, fills)
    ensures DistinctSymbols(a.book)
  {
  }
}
