/**
 The terms of every fill, in numbers: on which bars an order is reached, at which price it
 fills, what it costs. Over every run, each fill is on these terms.
 */
module Prices {
  import opened Prelude
  import opened Types
  import opened Fills
  import opened Accounts
  import opened Timelines
  import opened Engine
  import opened Orders
  import opened Lifecycle
  import opened Margin
  import opened Trailing

  // ---------- Terms ----------

  /** The price is the base moved by so many basis points. */
  predicate MovedBy(price: real, base: real, bps: int) {
    price * 10000.0 == base * (10000 + bps) as real
  }

  /** Basis points against the trader: up for a buy, down for a sale. */
  function Against(side: Side, bps: int): int {
    if side == Buy then bps else -bps
  }

  predicate MakerModel(config: Config) {
    config.fillThroughMarginBps > 0 || config.adverseSelectionBps > 0
  }

  /** The bar trades through a limit by the margin. */
  predicate LimitReached(side: Side, limit: real, bar: Bar, config: Config) {
    if side == Buy then bar.low * 10000.0 <= limit * (10000 - config.fillThroughMarginBps) as real
    else bar.high * 10000.0 >= limit * (10000 + config.fillThroughMarginBps) as real
  }

  predicate StopReached(side: Side, trigger: real, bar: Bar) {
    if side == Buy then bar.high >= trigger else bar.low <= trigger
  }

  /** A market order pays the open moved against the trader by the slippage. */
  predicate MarketPrice(side: Side, bar: Bar, config: Config, price: real) {
    MovedBy(price, bar.open, Against(side, config.slippageBps))
  }

  /** A limit order gets the better of open and limit; under the maker model the limit moved against the trader. */
  predicate LimitPrice(side: Side, limit: real, bar: Bar, config: Config, price: real) {
    if MakerModel(config) then MovedBy(price, limit, Against(side, config.adverseSelectionBps))
    else if side == Buy then price == if bar.open < limit then bar.open else limit
    else price == if bar.open > limit then bar.open else limit
  }

  /** A stop gets the worse of open and trigger, moved against the trader by the slippage. */
  predicate StopPrice(side: Side, trigger: real, bar: Bar, config: Config, price: real) {
    var worse := if side == Buy then (if bar.open > trigger then bar.open else trigger)
                 else if bar.open < trigger then bar.open else trigger;
    MovedBy(price, worse, Against(side, config.slippageBps))
  }

  /** The trigger stands so many percent above a low water mark, or below a high one. */
  predicate TrailsAt(side: Side, percent: real, water: real, trigger: real) {
    trigger * 100.0 == water * (if side == Buy then 100.0 + percent else 100.0 - percent)
  }

  /** Whether the bar reaches the order; a trailing one at the given water mark. */
  ghost predicate Reached(o: Order, bar: Bar, water: Option<real>, config: Config) {
    match o.kind
    case MarketOrder => true
    case LimitOrder(limit) => LimitReached(o.side, limit, bar, config)
    case StopOrder(stop) => StopReached(o.side, stop, bar)
    case TrailingStop(percent) =>
      water.Some? && exists trigger: real :: TrailsAt(o.side, percent, water.value, trigger) && StopReached(o.side, trigger, bar)
  }

  ghost predicate PricedAt(o: Order, bar: Bar, water: Option<real>, config: Config, price: real) {
    match o.kind
    case MarketOrder => MarketPrice(o.side, bar, config, price)
    case LimitOrder(limit) => LimitPrice(o.side, limit, bar, config, price)
    case StopOrder(stop) => StopPrice(o.side, stop, bar, config, price)
    case TrailingStop(percent) =>
      water.Some? && exists trigger: real ::
        TrailsAt(o.side, percent, water.value, trigger) && StopPrice(o.side, trigger, bar, config, price)
  }

  predicate TypedAs(kind: OrderKind, t: OrderType) {
    match kind
    case MarketOrder => t == MARKET
    case LimitOrder(_) => t == LIMIT
    case StopOrder(_) => t == STOP
    case TrailingStop(_) => t == TRAILING_STOP
  }

  /** An option pays per contract; anything else pays basis points of its value, a limit order the maker's if there are any. */
  predicate Charged(o: Order, config: Config, f: Fill) {
    if o.symbol in config.instrumentMeta && config.instrumentMeta[o.symbol].assetClass == "option"
    then f.fee == config.optionFeePerContract * f.quantity
    else
      var bps := if o.kind.LimitOrder? && config.makerFeeBps.Some? then config.makerFeeBps.value else config.feeRateBps;
      f.fee * 10000.0 == f.price * f.quantity * bps as real
  }

  /** The fill is one that the bar owes the order. */
  ghost predicate OnTerms(o: Order, bar: Bar, water: Option<real>, config: Config, f: Fill) {
    && TypedAs(o.kind, f.orderType)
    && Reached(o, bar, water, config) && PricedAt(o, bar, water, config, f.price)
    && Charged(o, config, f)
    && (config.maxPctOfVolume.Some? ==> 0.0 < f.quantity <= bar.volume * config.maxPctOfVolume.value)
  }

  // ---------- One order, one bar ----------

  lemma Scaled(base: real, bps: int)
    ensures base * (1.0 + Fraction(bps)) * 10000.0 == base * (10000 + bps) as real
    ensures base * (1.0 - Fraction(bps)) * 10000.0 == base * (10000 - bps) as real
  {
    var f := Fraction(bps);
    assert f * 10000.0 == bps as real;
    assert base * (1.0 + f) * 10000.0 == base * (10000.0 + f * 10000.0);
    assert base * (1.0 - f) * 10000.0 == base * (10000.0 - f * 10000.0);
  }

  lemma SignOfFraction(bps: int)
    ensures Fraction(bps) > 0.0 <==> bps > 0
  {
  }

  lemma MarketTerms(o: Order, bar: Bar, config: Config)
    ensures SimulateMarketFill(o, bar, config).Some? <==> CapAllows(bar, config)
    ensures SimulateMarketFill(o, bar, config).Some? ==>
              MarketPrice(o.side, bar, config, SimulateMarketFill(o, bar, config).value.fill.price)
  {
    Scaled(bar.open, config.slippageBps);
    hide Config.FeeFor, Fraction;
  }

  /**
   Every market order fills exactly when the cap allows it, at the open moved against the
   trader by the slippage: a buy never pays less than the open, a sale never gets more.
   */
  lemma MarketFillsAtOpen(o: Order, bar: Bar, config: Config, trail: map<nat, real>)
    requires o.kind.MarketOrder?
    ensures var e := TryFill(o, bar, config, trail).0;
            && (e.Some? <==> (config.maxPctOfVolume.Some? ==> bar.volume * config.maxPctOfVolume.value > 0.0))
            && (e.Some? ==>
                  var price := e.value.fill.price;
                  && price * 10000.0
                     == bar.open * (if o.side == Buy then 10000 + config.slippageBps else 10000 - config.slippageBps) as real
                  && (bar.open >= 0.0 && config.slippageBps >= 0 ==>
                        if o.side == Buy then price >= bar.open else price <= bar.open))
  {
    hide SimulateMarketFill;
    MarketTerms(o, bar, config);
    if bar.open >= 0.0 && config.slippageBps >= 0 {
      NonNegativeTimes(bar.open, config.slippageBps as real);
    }
  }

  lemma LimitTerms(o: Order, limit: real, bar: Bar, config: Config)
    ensures TryFillLimitOrder(o, limit, bar, config).Some? <==> LimitReached(o.side, limit, bar, config) && CapAllows(bar, config)
    ensures TryFillLimitOrder(o, limit, bar, config).Some? ==>
              LimitPrice(o.side, limit, bar, config, TryFillLimitOrder(o, limit, bar, config).value.fill.price)
  {
    Scaled(limit, config.fillThroughMarginBps);
    Scaled(limit, config.adverseSelectionBps);
    SignOfFraction(config.fillThroughMarginBps);
    SignOfFraction(config.adverseSelectionBps);
    hide Config.MakerFeeFor, Fraction;
  }

  lemma TriggerTerms(o: Order, orderType: OrderType, trigger: real, bar: Bar, config: Config)
    ensures FillAtTrigger(o, orderType, trigger, bar, config).Some? <==> StopReached(o.side, trigger, bar) && CapAllows(bar, config)
    ensures FillAtTrigger(o, orderType, trigger, bar, config).Some? ==>
              StopPrice(o.side, trigger, bar, config, FillAtTrigger(o, orderType, trigger, bar, config).value.fill.price)
  {
    Scaled(Min(bar.open, trigger), config.slippageBps);
    Scaled(Max(bar.open, trigger), config.slippageBps);
    hide Config.FeeFor, Fraction;
  }

  lemma TriggerTrails(side: Side, percent: real, water: real)
    ensures TrailsAt(side, percent, water, TrailTrigger(side, percent, water))
    ensures forall t: real :: TrailsAt(side, percent, water, t) ==> t == TrailTrigger(side, percent, water)
  {
    var p := percent / 100.0;
    assert p * 100.0 == percent;
    assert water * (1.0 - p) * 100.0 == water * (100.0 - p * 100.0);
    assert water * (1.0 + p) * 100.0 == water * (100.0 + p * 100.0);
  }

  /** The water mark a trailing order has when a bar tries it. */
  function WaterThen(o: Order, bar: Bar, trail: map<nat, real>): Option<real> {
    Some(NextWater(o.side, Lookup(trail, o.id), bar))
  }

  lemma ReachedIff(o: Order, bar: Bar, config: Config, trail: map<nat, real>)
    ensures TryFill(o, bar, config, trail).0.Some? <==> Reached(o, bar, WaterThen(o, bar, trail), config) && CapAllows(bar, config)
    ensures TryFill(o, bar, config, trail).0.Some? ==>
              PricedAt(o, bar, WaterThen(o, bar, trail), config, TryFill(o, bar, config, trail).0.value.fill.price)
  {
    hide SimulateMarketFill, TryFillLimitOrder, FillAtTrigger, TrailTrigger, NextWater, CapAllows;
    hide TrailsAt, StopReached, StopPrice, LimitReached, LimitPrice, MarketPrice;
    match o.kind
    case MarketOrder => MarketTerms(o, bar, config);
    case LimitOrder(limit) => LimitTerms(o, limit, bar, config);
    case StopOrder(stop) => TriggerTerms(o, STOP, stop, bar, config);
    case TrailingStop(percent) =>
      var water := WaterThen(o, bar, trail).value;
      TriggerTrails(o.side, percent, water);
      TriggerTerms(o, TRAILING_STOP, TrailTrigger(o.side, percent, water), bar, config);
  }

  lemma FeeTerms(config: Config, symbol: Symbol, price: real, quantity: real)
    ensures config.IsOption(symbol) ==> config.FeeFor(symbol, price, quantity) == config.optionFeePerContract * quantity
    ensures !config.IsOption(symbol) ==> config.FeeFor(symbol, price, quantity) * 10000.0 == price * quantity * config.feeRateBps as real
    ensures config.IsOption(symbol) ==> config.MakerFeeFor(symbol, price, quantity) == config.optionFeePerContract * quantity
    ensures !config.IsOption(symbol) ==>
              var bps := if config.makerFeeBps.Some? then config.makerFeeBps.value else config.feeRateBps;
              config.MakerFeeFor(symbol, price, quantity) * 10000.0 == price * quantity * bps as real
  {
    var value := price * quantity;
    FractionOf(value, config.feeRateBps);
    if config.makerFeeBps.Some? {
      FractionOf(value, config.makerFeeBps.value);
    }
    hide Fraction;
  }

  lemma FractionOf(value: real, bps: int)
    ensures value * Fraction(bps) * 10000.0 == value * bps as real
  {
    var f := Fraction(bps);
    assert f * 10000.0 == bps as real;
    assert value * f * 10000.0 == value * (f * 10000.0);
  }

  lemma FeeUsed(o: Order, bar: Bar, config: Config, trail: map<nat, real>)
    requires TryFill(o, bar, config, trail).0.Some?
    ensures var f := TryFill(o, bar, config, trail).0.value.fill;
            && TypedAs(o.kind, f.orderType)
            && f.fee == (if o.kind.LimitOrder? then config.MakerFeeFor(o.symbol, f.price, f.quantity)
                         else config.FeeFor(o.symbol, f.price, f.quantity))
            && ApplyVolumeCap(o.quantity, bar.volume, config) == Some(f.quantity)
  {
    hide Config.FeeFor, Config.MakerFeeFor, LimitFillPrice, TriggerPrice, TrailTrigger, NextWater, Breached, LimitCrossed, Fraction;
    hide ApplyVolumeCap;
  }

  lemma ChargedRight(o: Order, bar: Bar, config: Config, trail: map<nat, real>)
    requires TryFill(o, bar, config, trail).0.Some?
    ensures var f := TryFill(o, bar, config, trail).0.value.fill;
            && TypedAs(o.kind, f.orderType) && Charged(o, config, f)
            && (config.maxPctOfVolume.Some? && o.quantity > 0.0 ==> 0.0 < f.quantity <= bar.volume * config.maxPctOfVolume.value)
  {
    hide TryFill, Config.FeeFor, Config.MakerFeeFor, Fraction, TypedAs;
    var f := TryFill(o, bar, config, trail).0.value.fill;
    FeeUsed(o, bar, config, trail);
    FeeTerms(config, o.symbol, f.price, f.quantity);
  }

  /** Whatever the order type, a bar fills an order if and only if it reaches it and the cap allows it, and then on these terms. */
  lemma FillsOnTerms(o: Order, bar: Bar, config: Config, trail: map<nat, real>)
    requires o.quantity > 0.0
    ensures TryFill(o, bar, config, trail).0.Some? <==> Reached(o, bar, WaterThen(o, bar, trail), config) && CapAllows(bar, config)
    ensures TryFill(o, bar, config, trail).0.Some? ==>
              OnTerms(o, bar, WaterThen(o, bar, trail), config, TryFill(o, bar, config, trail).0.value.fill)
  {
    hide TryFill, Reached, PricedAt, Charged, TypedAs, CapAllows, WaterThen;
    ReachedIff(o, bar, config, trail);
    if TryFill(o, bar, config, trail).0.Some? {
      ChargedRight(o, bar, config, trail);
    }
  }

  // ---------- Lookups ----------

  /**
   Contract multipliers: a per-symbol override decides whatever the metadata say, metadata
   decide where there is no override, and a symbol with neither has multiplier one.
   */
  lemma MultiplierPrecedence(config: Config, s: Symbol, t: Symbol, x: real, meta: InstrumentMeta)
    ensures config.(contractMultipliers := config.contractMultipliers[s := x]).MultiplierFor(t)
         == if t == s then x else config.MultiplierFor(t)
    ensures config.(instrumentMeta := config.instrumentMeta[s := meta]).MultiplierFor(t)
         == if t == s && s !in config.contractMultipliers then meta.multiplier else config.MultiplierFor(t)
    ensures config.(contractMultipliers := map[], instrumentMeta := map[]).MultiplierFor(t) == 1.0
  {
  }

  // ---------- Runs ----------

  lemma SameExecution(o: Order, bar: Bar, config: Config, trail: map<nat, real>, other: map<nat, real>)
    requires Lookup(trail, o.id) == Lookup(other, o.id)
    ensures TryFill(o, bar, config, trail).0 == TryFill(o, bar, config, other).0
  {
    hide SimulateMarketFill, TryFillLimitOrder, FillAtTrigger, Lookup;
  }

  /** The fill is what trying one of the orders on the tick comes to. */
  ghost predicate TriedFill(config: Config, tick: Tick, trail: map<nat, real>, orders: seq<Order>, f: Fill) {
    exists o :: o in orders && o.symbol in tick.bars
      && TryFill(o, tick.bars[o.symbol], config, trail).0.Some? && TryFill(o, tick.bars[o.symbol], config, trail).0.value.fill == f
  }

  lemma FillOrderTries<S>(env: Env<S>, tick: Tick, st: State<S>, o: Order)
    ensures var after := FillOrder(env, tick, st, o).log.fills;
            after == st.log.fills
            || (after == st.log.fills + [after[|st.log.fills|]]
                && TriedFill(env.config, tick, st.trail, [o], after[|st.log.fills|]))
  {
    hide TryFill, Objection, ApplyFill, Touch, FillOrder;
    FillOutcome(env, tick, st, o);
    if o.symbol in tick.bars && TryFill(o, tick.bars[o.symbol], env.config, st.trail).0.Some? {
      assert TriedFill(env.config, tick, st.trail, [o], TryFill(o, tick.bars[o.symbol], env.config, st.trail).0.value.fill);
    }
  }

  lemma TriedAmong(config: Config, tick: Tick, trail: map<nat, real>, other: map<nat, real>, orders: seq<Order>, more: seq<Order>, f: Fill)
    requires TriedFill(config, tick, trail, orders, f)
    requires forall o :: o in orders ==> o in more && Lookup(trail, o.id) == Lookup(other, o.id)
    ensures TriedFill(config, tick, other, more, f)
  {
    hide TryFill, Lookup;
    var o :| o in orders && o.symbol in tick.bars
      && TryFill(o, tick.bars[o.symbol], config, trail).0.Some? && TryFill(o, tick.bars[o.symbol], config, trail).0.value.fill == f;
    SameExecution(o, tick.bars[o.symbol], config, trail, other);
  }

  lemma {:induction false} FillOrdersTry<S>(env: Env<S>, tick: Tick, st: State<S>, orders: seq<Order>)
    requires DistinctIds(orders)
    ensures var after := FillOrders(env, tick, st, orders).log.fills;
            && st.log.fills <= after
            && forall i :: |st.log.fills| <= i < |after| ==> TriedFill(env.config, tick, st.trail, orders, after[i])
    decreases |orders|
  {
    hide FillOrder, TriedFill, Lookup, DistinctIds, WaterAfter, TickBreaches;
    if orders == [] {
    } else {
      var o, rest := orders[0], orders[1..];
      var next := FillOrder(env, tick, st, o);
      OthersDiffer(orders);
      FillOrderTries(env, tick, st, o);
      FillOrderTrail(env, tick, st, o);
      FillOrdersTry(env, tick, next, rest);
      var after := FillOrders(env, tick, next, rest).log.fills;
      forall i | |st.log.fills| <= i < |after| ensures TriedFill(env.config, tick, st.trail, orders, after[i]) {
        if i < |next.log.fills| {
          TriedAmong(env.config, tick, st.trail, st.trail, [o], orders, after[i]);
        } else {
          TriedAmong(env.config, tick, next.trail, st.trail, rest, orders, after[i]);
        }
      }
    }
  }

  /** At one of the first k bars the fill is on the terms of the order. */
  ghost predicate FairAt<S>(env: Env<S>, j: nat, o: Order, f: Fill)
    requires j < |Timeline(env.market)|
  {
    var tl := Timeline(env.market);
    && tl[j] == f.filledTs && o.symbol in BarsAt(env.market, tl[j])
    && OnTerms(o, BarsAt(env.market, tl[j])[o.symbol], Water(env.market, tl, o, j + 1), env.config, f)
  }

  /** The terms do not depend on how much of the order is left. */
  lemma TermsIgnoreQuantity<S>(env: Env<S>, j: nat, o: Order, p: Order, f: Fill)
    requires j < |Timeline(env.market)| && p == o.(quantity := p.quantity) && FairAt(env, j, p, f)
    ensures FairAt(env, j, o, f)
  {
    hide Timeline, BarsAt, Water, LimitReached, StopReached, LimitPrice, StopPrice, MarketPrice, TrailsAt;
    WaterIgnoresQuantity(env.market, Timeline(env.market), o, p, j + 1);
  }

  lemma WaterAtBar<S>(env: Env<S>, k: nat, o: Order, bar: Bar)
    requires k < |Timeline(env.market)| && o in Run(env, k).pending && o.kind.TrailingStop?
    requires o.symbol in BarsAt(env.market, Timeline(env.market)[k]) && bar == BarsAt(env.market, Timeline(env.market)[k])[o.symbol]
    ensures WaterThen(o, bar, Run(env, k).trail) == Water(env.market, Timeline(env.market), o, k + 1)
  {
    hide Run, Water, BarsAt, Lookup, BreachAt, TickBreaches;
    TrailingRatchet(env, k, o);
    SubmittedBefore(env, k, o);
    TickMatches(env.market, Timeline(env.market), k + 1, o);
  }

  lemma OnlyTrailsUseWater(o: Order, bar: Bar, config: Config, water: Option<real>, other: Option<real>, f: Fill)
    requires !o.kind.TrailingStop? && OnTerms(o, bar, water, config, f)
    ensures OnTerms(o, bar, other, config, f)
  {
  }

  /** The fill of an order that rests before bar k is on its terms at that bar. */
  lemma FairNow<S>(env: Env<S>, k: nat, p: Order, bar: Bar)
    requires k < |Timeline(env.market)| && p in Run(env, k).pending && p.quantity > 0.0
    requires p.symbol in BarsAt(env.market, Timeline(env.market)[k]) && bar == BarsAt(env.market, Timeline(env.market)[k])[p.symbol]
    requires bar.ts == Timeline(env.market)[k] && TryFill(p, bar, env.config, Run(env, k).trail).0.Some?
    ensures FairAt(env, k, p, TryFill(p, bar, env.config, Run(env, k).trail).0.value.fill)
  {
    hide Run, TryFill, BarsAt, Timeline, OnTerms, WaterThen, Water, Reached, CapAllows;
    var trail := Run(env, k).trail;
    var f := TryFill(p, bar, env.config, trail).0.value.fill;
    FillsOnTerms(p, bar, env.config, trail);
    FillNamesOrder(p, bar, env.config, trail);
    if p.kind.TrailingStop? {
      WaterAtBar(env, k, p, bar);
    } else {
      OnlyTrailsUseWater(p, bar, env.config, WaterThen(p, bar, trail), Water(env.market, Timeline(env.market), p, k + 1), f);
    }
  }

  lemma BarsStamped(m: Market, ts: int, s: Symbol)
    requires s in BarsAt(m, ts)
    ensures BarsAt(m, ts)[s].ts == ts
  {
  }

  lemma BarIsFair<S>(env: Env<S>, k: nat, f: Fill)
    requires k < |Timeline(env.market)| && |Run(env, k).log.fills| <= |Run(env, k + 1).log.fills|
    requires f in Run(env, k + 1).log.fills[|Run(env, k).log.fills|..] && f.id.OrderId?
    ensures f.id.id < |Run(env, k).log.submitted| && FairAt(env, k, Run(env, k).log.submitted[f.id.id], f)
  {
    hide Run, TryFill, BarsAt, Timeline, FairAt, FillOrders, BeforeFills, Tried, TriedFill, Water;
    var tick, opening := TickOf(env, k), Opening(env, k);
    BeforeFillsShape(env, tick, Run(env, k));
    TriedDistinct(env, k, k);
    TriedMembers(Run(env, k), k);
    FillOrdersTry(env, tick, opening.(pending := []), opening.pending);
    BarFillsAre(env, k);
    var i :| |Run(env, k).log.fills| <= i < |Run(env, k + 1).log.fills| && Run(env, k + 1).log.fills[i] == f;
    assert TriedFill(env.config, tick, opening.trail, opening.pending, f);
    var p := TriedBy(env.config, tick, opening.trail, opening.pending, f);
    SubmittedBefore(env, k, p);
    RunBalances(env, k, 0);
    assert AsSubmitted(Run(env, k).log.submitted, p);
    BarsStamped(env.market, Timeline(env.market)[k], p.symbol);
    FillNamesOrder(p, tick.bars[p.symbol], env.config, opening.trail);
    FairNow(env, k, p, tick.bars[p.symbol]);
    TermsIgnoreQuantity(env, k, Run(env, k).log.submitted[p.id], p, f);
  }

  lemma TriedBy(config: Config, tick: Tick, trail: map<nat, real>, orders: seq<Order>, f: Fill) returns (o: Order)
    requires TriedFill(config, tick, trail, orders, f)
    ensures o in orders && o.symbol in tick.bars
    ensures TryFill(o, tick.bars[o.symbol], config, trail).0.Some? && TryFill(o, tick.bars[o.symbol], config, trail).0.value.fill == f
  {
    hide TryFill;
    o :| o in orders && o.symbol in tick.bars
      && TryFill(o, tick.bars[o.symbol], config, trail).0.Some? && TryFill(o, tick.bars[o.symbol], config, trail).0.value.fill == f;
  }

  lemma BarFillsAre<S>(env: Env<S>, k: nat)
    requires k < |Timeline(env.market)|
    ensures Run(env, k + 1).log.fills
         == FillOrders(env, TickOf(env, k), Opening(env, k).(pending := []), Opening(env, k).pending).log.fills
  {
    hide Run, Timeline, FillOrders, BeforeFills;
    RunNext(env, k);
  }

  /**
   Every fill is on terms. In any run each fill of a strategy order happened at a bar that
   traded the order's symbol and reached the order, on the order type's own terms for price
   and fee and within the volume cap; a trailing stop's at the water mark it had by then.
   */
  lemma {:induction false} FillsAreOnTerms<S>(env: Env<S>, k: nat, f: Fill)
    requires k <= |Timeline(env.market)|
    requires f in Run(env, k).log.fills && f.id.OrderId?
    ensures f.id.id < |Run(env, k).log.submitted|
    ensures exists j :: 0 <= j < k && FairAt(env, j, Run(env, k).log.submitted[f.id.id], f)
  {
    hide Run, Timeline, FairAt, Tried, BarFills;
    if k == 0 {
      RunStarts(env);
    } else {
      BarShape(env, k);
      var prev, next := Run(env, k - 1), Run(env, k);
      if f in prev.log.fills {
        FillsAreOnTerms(env, k - 1, f);
      } else {
        InSuffix(prev.log.fills, next.log.fills, f);
        BarIsFair(env, k - 1, f);
      }
    }
  }
}
