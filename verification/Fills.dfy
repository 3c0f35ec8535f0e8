/**
 Fill simulation: what one bar does to one resting order. Every simulator returns
 nothing, or the fill and the quantity that stays in the book.
 */
module Fills {
  import opened Prelude
  import opened Types

  datatype Execution = Execution(fill: Fill, remainder: real)

  /** The fillable part of a request under the optional volume cap; None when the cap blocks the bar. */
  function ApplyVolumeCap(requested: real, volume: real, config: Config): Option<real> {
    match config.maxPctOfVolume
    case None => Some(requested)
    case Some(pct) =>
      var fillable := volume * pct;
      if fillable <= 0.0 then None else Some(Min(requested, fillable))
  }

  function Execute(o: Order, bar: Bar, orderType: OrderType, price: real, quantity: real, fee: real): Execution {
    var remainder := o.quantity - quantity;
    Execution(
      Fill(OrderId(o.id), o.symbol, o.side, orderType, quantity, price, fee,
           bar.ts, o.submittedTs, remainder > 0.0, o.tags),
      remainder)
  }

  function SimulateMarketFill(o: Order, bar: Bar, config: Config): Option<Execution> {
    match ApplyVolumeCap(o.quantity, bar.volume, config)
    case None => None
    case Some(quantity) =>
      var price := if o.side == Buy
                   then bar.open * (1.0 + config.Slippage())
                   else bar.open * (1.0 - config.Slippage());
      Some(Execute(o, bar, MARKET, price, quantity, config.FeeFor(o.symbol, price, quantity)))
  }

  /** Whether the bar trades through the limit by the configured margin. */
  predicate LimitCrossed(o: Order, limit: real, bar: Bar, config: Config) {
    if o.side == Buy then bar.low <= limit * (1.0 - config.ThroughMargin())
    else bar.high >= limit * (1.0 + config.ThroughMargin())
  }

  predicate MakerModelActive(config: Config) {
    config.ThroughMargin() > 0.0 || config.AdverseSelection() > 0.0
  }

  function LimitFillPrice(o: Order, limit: real, bar: Bar, config: Config): real {
    if o.side == Buy then
      if MakerModelActive(config) then limit * (1.0 + config.AdverseSelection()) else Min(bar.open, limit)
    else
      if MakerModelActive(config) then limit * (1.0 - config.AdverseSelection()) else Max(bar.open, limit)
  }

  function TryFillLimitOrder(o: Order, limit: real, bar: Bar, config: Config): Option<Execution> {
    if !LimitCrossed(o, limit, bar, config) then None
    else
      var price := LimitFillPrice(o, limit, bar, config);
      match ApplyVolumeCap(o.quantity, bar.volume, config)
      case None => None
      case Some(quantity) =>
        Some(Execute(o, bar, LIMIT, price, quantity, config.MakerFeeFor(o.symbol, price, quantity)))
  }

  /** The high (SELL) or low (BUY) water mark after seeing one more bar. */
  function NextWater(side: Side, previous: Option<real>, bar: Bar): real {
    match previous
    case None => if side == Sell then bar.high else bar.low
    case Some(water) => if side == Sell then Max(water, bar.high) else Min(water, bar.low)
  }

  /** The stop trigger a trailing order has at a given water mark. */
  function TrailTrigger(side: Side, percent: real, water: real): real {
    if side == Sell then water * (1.0 - percent / 100.0) else water * (1.0 + percent / 100.0)
  }

  predicate Breached(side: Side, trigger: real, bar: Bar) {
    if side == Sell then bar.low <= trigger else bar.high >= trigger
  }

  /** The trigger, or the open when the bar has gapped beyond it, moved by the slippage. */
  function TriggerPrice(side: Side, trigger: real, bar: Bar, config: Config): real {
    if side == Sell then Min(bar.open, trigger) * (1.0 - config.Slippage())
    else Max(bar.open, trigger) * (1.0 + config.Slippage())
  }

  function FillAtTrigger(o: Order, orderType: OrderType, trigger: real, bar: Bar, config: Config): Option<Execution> {
    if !Breached(o.side, trigger, bar) then None
    else
      var price := TriggerPrice(o.side, trigger, bar, config);
      match ApplyVolumeCap(o.quantity, bar.volume, config)
      case None => None
      case Some(quantity) =>
        Some(Execute(o, bar, orderType, price, quantity, config.FeeFor(o.symbol, price, quantity)))
  }

  function Lookup(trail: map<nat, real>, id: nat): Option<real> {
    if id in trail then Some(trail[id]) else None
  }

  /** One attempt to fill an order on a bar, with the trailing water marks it leaves behind. */
  function TryFill(o: Order, bar: Bar, config: Config, trail: map<nat, real>): (Option<Execution>, map<nat, real>) {
    match o.kind
    case MarketOrder => (SimulateMarketFill(o, bar, config), trail)
    case LimitOrder(limit) => (TryFillLimitOrder(o, limit, bar, config), trail)
    case StopOrder(stop) => (FillAtTrigger(o, STOP, stop, bar, config), trail)
    case TrailingStop(percent) =>
      var water := NextWater(o.side, Lookup(trail, o.id), bar);
      (FillAtTrigger(o, TRAILING_STOP, TrailTrigger(o.side, percent, water), bar, config), trail[o.id := water])
  }

  /**
   Whatever the order type, a fill is the order's own: it carries its id, symbol, side,
   tags and submission time and the bar's timestamp, its quantity is positive, and fill
   and remainder make up the order exactly. The partial flag says whether anything is left.
   */
  lemma FillSplitsOrder(o: Order, bar: Bar, config: Config, trail: map<nat, real>)
    requires o.quantity > 0.0
    requires TryFill(o, bar, config, trail).0.Some?
    ensures var e := TryFill(o, bar, config, trail).0.value;
            && e.fill.quantity > 0.0 && e.remainder >= 0.0
            && e.fill.quantity + e.remainder == o.quantity
            && (e.fill.isPartial <==> e.remainder > 0.0)
            && e.fill.id == OrderId(o.id) && e.fill.symbol == o.symbol && e.fill.side == o.side
            && e.fill.tags == o.tags && e.fill.filledTs == bar.ts && e.fill.submittedTs == o.submittedTs
    ensures config.maxPctOfVolume.None? ==> TryFill(o, bar, config, trail).0.value.remainder == 0.0
  {
  }

  lemma FillNamesOrder(o: Order, bar: Bar, config: Config, trail: map<nat, real>)
    requires TryFill(o, bar, config, trail).0.Some?
    ensures var f := TryFill(o, bar, config, trail).0.value.fill;
            && f.id == OrderId(o.id) && f.symbol == o.symbol && f.side == o.side && f.tags == o.tags
            && f.submittedTs == o.submittedTs && f.filledTs == bar.ts
  {
  }

  predicate SaneBar(bar: Bar) {
    0.0 < bar.low <= bar.open <= bar.high && bar.low <= bar.close <= bar.high
  }

  /** Whether the volume cap, if there is one, lets anything fill on the bar. */
  predicate CapAllows(bar: Bar, config: Config) {
    config.maxPctOfVolume.Some? ==> bar.volume * config.maxPctOfVolume.value > 0.0
  }

  /**
   A limit order trades exactly when the bar trades through the limit by the margin and the
   cap allows it; through any margin it has also touched the limit. Without a maker model
   the price is inside the bar and never worse than the limit; with one there is no gap
   capture, and the limit is met exactly when adverse selection is off.
   */
  lemma LimitNeverWorse(o: Order, limit: real, bar: Bar, config: Config)
    requires SaneBar(bar)
    ensures var r := TryFillLimitOrder(o, limit, bar, config);
            var touched := if o.side == Buy then bar.low <= limit else bar.high >= limit;
            && (r.Some? <==> LimitCrossed(o, limit, bar, config) && CapAllows(bar, config))
            && (config.fillThroughMarginBps == 0 ==> (LimitCrossed(o, limit, bar, config) <==> touched))
            && (r.Some? && limit > 0.0 && config.fillThroughMarginBps >= 0 ==> touched)
            && (r.Some? && !MakerModelActive(config) && config.fillThroughMarginBps == 0 ==>
                  var price := r.value.fill.price;
                  bar.low <= price <= bar.high && if o.side == Buy then price <= limit else price >= limit)
            && (r.Some? && MakerModelActive(config) && limit > 0.0 && config.adverseSelectionBps >= 0 ==>
                  var price := r.value.fill.price;
                  && (if o.side == Buy then price >= limit else price <= limit)
                  && (price == limit <==> config.adverseSelectionBps == 0))
  {
    FractionZero(config.fillThroughMarginBps);
    assert limit * (1.0 - 0.0) == limit && limit * (1.0 + 0.0) == limit;
    if limit > 0.0 && config.fillThroughMarginBps >= 0 {
      MarginWorsens(limit, config.fillThroughMarginBps);
    }
    if limit > 0.0 && config.adverseSelectionBps >= 0 {
      MarginWorsens(limit, config.adverseSelectionBps);
    }
    hide Config.MakerFeeFor, Fraction;
    assert config.ThroughMargin() == Fraction(config.fillThroughMarginBps);
    assert config.AdverseSelection() == Fraction(config.adverseSelectionBps);
  }

  lemma FractionZero(bps: int)
    ensures Fraction(bps) == 0.0 <==> bps == 0
  {
  }

  lemma MarginWorsens(limit: real, bps: int)
    requires limit > 0.0 && bps >= 0
    ensures Fraction(bps) >= 0.0 && (Fraction(bps) == 0.0 <==> bps == 0)
    ensures limit * (1.0 - Fraction(bps)) <= limit <= limit * (1.0 + Fraction(bps))
    ensures limit * (1.0 - Fraction(bps)) == limit <==> bps == 0
    ensures limit * (1.0 + Fraction(bps)) == limit <==> bps == 0
  {
    var f := Fraction(bps);
    NonNegativeTimes(limit, f);
    assert limit * (1.0 - f) == limit - limit * f;
    assert limit * (1.0 + f) == limit + limit * f;
  }

  /**
   The volume cap binds exactly: a fill never exceeds the cap, an order is cut only down to
   the cap, and a bar whose cap is not positive fills nothing whatever the order.
   */
  lemma CapBinds(o: Order, bar: Bar, config: Config, trail: map<nat, real>)
    requires config.maxPctOfVolume.Some?
    ensures var cap := bar.volume * config.maxPctOfVolume.value;
            && (cap <= 0.0 ==> TryFill(o, bar, config, trail).0.None?)
            && (TryFill(o, bar, config, trail).0.Some? ==>
                  var e := TryFill(o, bar, config, trail).0.value;
                  && e.fill.quantity <= cap
                  && (e.remainder > 0.0 <==> o.quantity > cap)
                  && (o.quantity > cap ==> e.fill.quantity == cap))
  {
    hide LimitFillPrice, Config.FeeFor, Config.MakerFeeFor, TrailTrigger, NextWater, Breached, LimitCrossed;
  }

  /**
   A stop trades exactly when the bar reaches its trigger and the cap allows it, at a price
   inside the bar that is never better than the trigger; slippage only makes it worse.
   */
  lemma StopNeverBetter(o: Order, orderType: OrderType, trigger: real, bar: Bar, config: Config)
    requires SaneBar(bar)
    ensures var r := FillAtTrigger(o, orderType, trigger, bar, config);
            && (r.Some? <==> (if o.side == Sell then bar.low <= trigger else bar.high >= trigger) && CapAllows(bar, config))
            && (r.Some? && (config.slippageBps == 0 || (config.slippageBps > 0 && trigger > 0.0)) ==>
                  var price := r.value.fill.price;
                  if o.side == Sell then price <= trigger && price <= bar.open else price >= trigger && price >= bar.open)
            && (r.Some? && config.slippageBps == 0 ==> bar.low <= r.value.fill.price <= bar.high)
  {
    if Breached(o.side, trigger, bar) {
      TriggerPriceNeverBetter(o.side, trigger, bar, config);
    }
    hide Config.FeeFor, TriggerPrice;
  }

  lemma TriggerPriceNeverBetter(side: Side, trigger: real, bar: Bar, config: Config)
    requires SaneBar(bar) && Breached(side, trigger, bar)
    ensures var price := TriggerPrice(side, trigger, bar, config);
            && (config.slippageBps == 0 || (config.slippageBps > 0 && trigger > 0.0) ==>
                  if side == Sell then price <= trigger && price <= bar.open else price >= trigger && price >= bar.open)
            && (config.slippageBps == 0 ==> bar.low <= price <= bar.high)
  {
    var worst := if side == Sell then Min(bar.open, trigger) else Max(bar.open, trigger);
    FractionZero(config.slippageBps);
    hide Fraction;
    if config.slippageBps == 0 {
      assert worst * (1.0 - 0.0) == worst && worst * (1.0 + 0.0) == worst;
    } else if trigger > 0.0 && config.slippageBps > 0 {
      MarginWorsens(worst, config.slippageBps);
    }
  }
}
