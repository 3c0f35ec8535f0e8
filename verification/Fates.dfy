/**
 The fate of a resting order at the next bar: it expires, is cancelled, is left alone, is
 refused or is filled, and exactly when each of these happens.
 */
module Fates {
  import opened Prelude
  import opened Types
  import opened Fills
  import opened Accounts
  import opened Timelines
  import opened Engine
  import opened Causality
  import opened Orders
  import opened Lifecycle
  import opened Ledger
  import opened Margin
  import opened Trailing
  import opened WaterMarks
  import opened Prices

  // ---------- Expiry and cancellation ----------

  /** The order's lifetime is over at bar k. */
  predicate Due(o: Order, k: nat) {
    o.expiresAt.Some? && o.expiresAt.value <= k
  }

  lemma {:induction false} FillsKeepDecrees<S>(env: Env<S>, tick: Tick, st: State<S>, orders: seq<Order>)
    ensures var after := FillOrders(env, tick, st, orders).log;
            after.expired == st.log.expired && after.cancelled == st.log.cancelled
    decreases |orders|
  {
    hide FillOrder;
    if orders == [] {
    } else {
      FillOrderKeepsDecrees(env, tick, st, orders[0]);
      FillsKeepDecrees(env, tick, FillOrder(env, tick, st, orders[0]), orders[1..]);
    }
  }

  lemma FillOrderKeepsDecrees<S>(env: Env<S>, tick: Tick, st: State<S>, o: Order)
    ensures var after := FillOrder(env, tick, st, o).log;
            after.expired == st.log.expired && after.cancelled == st.log.cancelled
  {
    hide TryFill, Objection, ApplyFill, Touch;
  }

  lemma OpeningDecrees<S>(env: Env<S>, tick: Tick, st: State<S>)
    ensures var before := BeforeFills(env, tick, st).log;
            && before.expired == st.log.expired + Filter(st.pending, Expiring(tick.barCount))
            && before.cancelled == st.log.cancelled
                 + (if st.cancels == {} then [] else Filter(Filter(st.pending, Staying(tick.barCount)), Cancelling(st.cancels)))
  {
    hide SettleAll, SymbolsOf, Filter, Notify, MarkPhase;
    var marked := MarkPhase(tick, st);
    MarkKeepsBook(tick, st);
    SettleKeepsOrders(env.config, tick, marked, SymbolsOf(marked.account.book), 0);
    assert st.log.cancelled + [] == st.log.cancelled;
  }

  lemma MarkKeepsBook<S>(tick: Tick, st: State<S>)
    ensures var marked := MarkPhase(tick, st); marked.log == st.log && marked.pending == st.pending && marked.cancels == st.cancels
  {
  }

  lemma StepDecrees<S>(env: Env<S>, tick: Tick, st: State<S>)
    ensures var before, after := BeforeFills(env, tick, st).log, Step(env, tick, st).log;
            after.expired == before.expired && after.cancelled == before.cancelled
  {
    hide BeforeFills, FillOrders, ContextOf, Submit, MarkToMarket;
    var before := BeforeFills(env, tick, st);
    FillsKeepDecrees(env, tick, before.(pending := []), before.pending);
  }

  /**
   By decree: the orders a bar expires are exactly the resting ones whose lifetime is over at
   it, and the ones it cancels are exactly the others whose cancellation was requested.
   */
  lemma DecreedIff<S>(env: Env<S>, k: nat, o: Order)
    requires k < |Timeline(env.market)|
    ensures var prev, next := Run(env, k), Run(env, k + 1);
            && prev.log.expired <= next.log.expired && prev.log.cancelled <= next.log.cancelled
            && (o in next.log.expired[|prev.log.expired|..] <==> o in prev.pending && Due(o, k))
            && (o in next.log.cancelled[|prev.log.cancelled|..] <==> o in prev.pending && !Due(o, k) && o.id in prev.cancels)
  {
    hide Run, Step, Timeline, BeforeFills, Filter;
    var tick, st := TickOf(env, k), Run(env, k);
    RunNext(env, k);
    OpeningDecrees(env, tick, st);
    StepDecrees(env, tick, st);
    FilterMembers(st.pending, Expiring(k));
    FilterMembers(st.pending, Staying(k));
    FilterMembers(Filter(st.pending, Staying(k)), Cancelling(st.cancels));
    var next := Run(env, k + 1).log;
    assert next.expired[|st.log.expired|..] == Filter(st.pending, Expiring(k));
    if st.cancels == {} {
      assert next.cancelled[|st.log.cancelled|..] == [];
    } else {
      assert next.cancelled[|st.log.cancelled|..] == Filter(Filter(st.pending, Staying(k)), Cancelling(st.cancels));
    }
  }

  // ---------- An order's turn ----------

  /** The logs of bar k only grow from an order's turn on. */
  lemma TurnLogs<S>(env: Env<S>, k: nat, i: nat)
    requires k < |Timeline(env.market)| && i < |BarOrders(env, k)|
    ensures var o := BarOrders(env, k)[i];
            var next := FillOrder(env, TickOf(env, k), MidBar(env, k, i), o);
            && Continues(Run(env, k).log, MidBar(env, k, i).log, TickOf(env, k).ts)
            && Continues(next.log, Run(env, k + 1).log, TickOf(env, k).ts)
            && next.pending <= Run(env, k + 1).pending
  {
    hide Run, Step, Timeline, FillOrders, FillOrder, BeforeFills, Continues, DistinctIds, Tried;
    var tick, orders := TickOf(env, k), BarOrders(env, k);
    var opening := Opening(env, k).(pending := []);
    RunNext(env, k);
    BarOrdersAreTried(env, k);
    SliceDiffers(orders, i);
    FillOrdersSplit(env, tick, opening, orders[..i] + [orders[i]], orders[i + 1..]);
    FillOrdersSnoc(env, tick, opening, orders[..i], orders[i]);
    var next := FillOrder(env, tick, MidBar(env, k, i), orders[i]);
    var filled := FillOrders(env, tick, next, orders[i + 1..]);
    BeforeFillsContinue(env, tick, Run(env, k));
    FillsContinue(env, tick, opening, orders[..i]);
    ContinuesTrans(Run(env, k).log, opening.log, MidBar(env, k, i).log, tick.ts);
    FillsContinue(env, tick, next, orders[i + 1..]);
    FillOrdersAdd(env, tick, next, orders[i + 1..]);
    AfterFills(env, tick, Run(env, k), filled);
    ContinuesTrans(next.log, filled.log, Run(env, k + 1).log, tick.ts);
  }

  lemma AfterFills<S>(env: Env<S>, tick: Tick, st: State<S>, filled: State<S>)
    requires filled == FillPhase(env, tick, BeforeFills(env, tick, st))
    ensures filled.pending <= Step(env, tick, st).pending
    ensures Continues(filled.log, Step(env, tick, st).log, tick.ts)
  {
    hide FillPhase, BeforeFills, ContextOf, Submit, MarkToMarket, Continues;
    StrategyContinues(env, tick, filled);
  }

  /** None of the later fills is of the order. */
  predicate NoFillOf(before: seq<Fill>, after: seq<Fill>, id: nat) {
    |before| <= |after| && forall i :: |before| <= i < |after| ==> after[i].id != OrderId(id)
  }

  /** What becomes of an order that bar k tries: left alone, refused, or filled in part or in full. */
  datatype Fate = LeftAlone | RefusedFor(reason: Reason) | FilledWith(fill: Fill)

  /** The bar left the order as it was. */
  predicate IsLeftAlone<S>(prev: State<S>, next: State<S>, o: Order) {
    o in next.pending && NoFillOf(prev.log.fills, next.log.fills, o.id)
  }

  /** The bar rejected the order: it is logged with its reason, gone from the book and not filled. */
  predicate IsRefused<S>(prev: State<S>, next: State<S>, o: Order, reason: Reason) {
    && |prev.log.rejected| <= |next.log.rejected| && Rejection(o, reason) in next.log.rejected[|prev.log.rejected|..]
    && !InBook(next.pending, o.id)
    && NoFillOf(prev.log.fills, next.log.fills, o.id)
  }

  /** The bar filled the order by the cap's allowance, and what is left of it rests on. */
  predicate IsFilled<S>(config: Config, prev: State<S>, next: State<S>, o: Order, bar: Bar, f: Fill) {
    && |prev.log.fills| <= |next.log.fills| && f in next.log.fills[|prev.log.fills|..] && f.id == OrderId(o.id)
    && f.quantity == (if config.maxPctOfVolume.Some? && bar.volume * config.maxPctOfVolume.value < o.quantity
                      then bar.volume * config.maxPctOfVolume.value else o.quantity)
    && if f.quantity < o.quantity then o.(quantity := o.quantity - f.quantity) in next.pending else !InBook(next.pending, o.id)
  }

  lemma TurnOf<S>(env: Env<S>, k: nat, o: Order)
    requires k < |Timeline(env.market)| && o in BarOrders(env, k)
    ensures var turn := AtTurn(env, k, o);
            var after := FillOrder(env, TickOf(env, k), turn, o);
            && Continues(Run(env, k).log, turn.log, TickOf(env, k).ts)
            && Continues(after.log, Run(env, k + 1).log, TickOf(env, k).ts)
            && after.pending <= Run(env, k + 1).pending
            && !InBook(turn.pending, o.id) && (InBook(Run(env, k + 1).pending, o.id) <==> InBook(after.pending, o.id))
            && Lookup(turn.trail, o.id) == Lookup(Run(env, k).trail, o.id)
  {
    hide Run, FillOrders, FillOrder, BeforeFills, Lookup, DistinctIds, Timeline, Continues;
    BarOrdersAreTried(env, k);
    SubmittedBefore(env, k, o);
    var opening := Opening(env, k).(pending := []);
    NoneIn(opening.pending, o.id);
    hide InBook;
    var orders := BarOrders(env, k);
    AroundTheTurn(env, TickOf(env, k), opening, orders, IndexOf(orders, o));
    BarTail(env, k, o.id);
    TurnLogs(env, k, IndexOf(orders, o));
  }

  /** What trying the order on its bar comes to, from the water mark stored before the bar. */
  function Attempt<S>(env: Env<S>, k: nat, o: Order): Option<Execution>
    requires k < |Timeline(env.market)|
  {
    if o.symbol in TickOf(env, k).bars then TryFill(o, TickOf(env, k).bars[o.symbol], env.config, Run(env, k).trail).0 else None
  }

  /** The objection that the account at the order's turn has to a fill. */
  function ObjectionAtTurn<S>(env: Env<S>, k: nat, o: Order, f: Fill): Option<Reason>
    requires k < |Timeline(env.market)| && o in BarOrders(env, k)
  {
    Objection(env.config, Touch(AtTurn(env, k, o).account, o.symbol), AtTurn(env, k, o).marks, f)
  }

  /** If an order's turn adds no fill, the bar does not fill it. */
  lemma NotFilledOtherwise<S>(env: Env<S>, k: nat, o: Order)
    requires k < |Timeline(env.market)| && o in BarOrders(env, k)
    requires var turn := AtTurn(env, k, o);
             FillOrder(env, TickOf(env, k), turn, o).log.fills == turn.log.fills
    ensures NoFillOf(Run(env, k).log.fills, Run(env, k + 1).log.fills, o.id)
  {
    hide Run, Timeline, FillOrders, FillOrder, BeforeFills, Tried, DistinctIds, InBook, Lookup;
    var tick, orders := TickOf(env, k), BarOrders(env, k);
    var n := IndexOf(orders, o);
    BarOrdersAreTried(env, k);
    SliceDiffers(orders, n);
    var opening := Opening(env, k).(pending := []);
    var turn := AtTurn(env, k, o);
    var next := FillOrder(env, tick, turn, o);
    FillOrdersSplit(env, tick, opening, orders[..n] + [o], orders[n + 1..]);
    FillOrdersSnoc(env, tick, opening, orders[..n], o);
    OthersFill(env, tick, opening, orders[..n], o.id);
    OthersFill(env, tick, next, orders[n + 1..], o.id);
    BarFillsAre(env, k);
    BeforeFillsShape(env, tick, Run(env, k));
  }

  lemma OthersFill<S>(env: Env<S>, tick: Tick, st: State<S>, orders: seq<Order>, id: nat)
    requires TickStamped(tick) && DistinctIds(orders) && forall p :: p in orders ==> p.id != id
    ensures var after := FillOrders(env, tick, st, orders).log.fills;
            st.log.fills <= after && NoFillOf(st.log.fills, after, id)
  {
    hide FillOrders, DistinctIds;
    FillOrdersAdd(env, tick, st, orders);
    var after := FillOrders(env, tick, st, orders).log.fills;
    var added := after[|st.log.fills|..];
    forall i | |st.log.fills| <= i < |after| ensures after[i].id != OrderId(id) {
      assert after[i] == added[i - |st.log.fills|];
      assert FillsSome(orders, tick.ts, added[i - |st.log.fills|]);
    }
  }

  /**
   The fate of an order that bar k tries, by what the attempt comes to: nothing, then it is
   left alone; a fill that the account at its turn objects to, then it is refused for that
   reason; or a fill, which is then logged, with what is left of the order resting on.
   */
  lemma TriedFate<S>(env: Env<S>, k: nat, o: Order)
    requires k < |Timeline(env.market)| && o in BarOrders(env, k)
    ensures var prev, next, e := Run(env, k), Run(env, k + 1), Attempt(env, k, o);
            && (e.None? ==> IsLeftAlone(prev, next, o))
            && (e.Some? ==>
                  var objection := ObjectionAtTurn(env, k, o, e.value.fill);
                  && (objection.Some? ==> IsRefused(prev, next, o, objection.value))
                  && (objection.None? ==> IsFilled(env.config, prev, next, o, TickOf(env, k).bars[o.symbol], e.value.fill)))
  {
    hide Run, Timeline, FillOrders, FillOrder, TryFill, Objection, Touch, ApplyFill, BeforeFills, AtTurn, Lookup, BarOrders, TickOf;
    TurnOf(env, k, o);
    var tick, turn := TickOf(env, k), AtTurn(env, k, o);
    var after := FillOrder(env, tick, turn, o);
    FillOutcome(env, tick, turn, o);
    if o.symbol in tick.bars {
      SameExecution(o, tick.bars[o.symbol], env.config, turn.trail, Run(env, k).trail);
    }
    var e := Attempt(env, k, o);
    if e.None? {
      LeftAloneAtTurn(env, k, o);
    } else if ObjectionAtTurn(env, k, o, e.value.fill).Some? {
      RefusedAtTurn(env, k, o, ObjectionAtTurn(env, k, o, e.value.fill).value);
    } else {
      FilledAtTurn(env, k, o, e.value);
    }
  }

  lemma FillsContinueTo(a: Log, b: Log, ts: int)
    requires Continues(a, b, ts)
    ensures a.fills <= b.fills && a.rejected <= b.rejected
  {
  }

  lemma NextInSuffix<T>(before: seq<T>, turn: seq<T>, x: T, after: seq<T>)
    requires before <= turn && turn + [x] <= after
    ensures |before| <= |after| && x in after[|before|..]
  {
    assert after[|before|..][|turn| - |before|] == x;
  }

  lemma LeftAloneAtTurn<S>(env: Env<S>, k: nat, o: Order)
    requires k < |Timeline(env.market)| && o in BarOrders(env, k)
    requires var after := FillOrder(env, TickOf(env, k), AtTurn(env, k, o), o);
             after.pending == AtTurn(env, k, o).pending + [o] && after.log == AtTurn(env, k, o).log
    ensures IsLeftAlone(Run(env, k), Run(env, k + 1), o)
  {
    hide Run, Timeline, FillOrders, FillOrder, BeforeFills, AtTurn, BarOrders, TickOf, Lookup, InBook;
    TurnOf(env, k, o);
    NotFilledOtherwise(env, k, o);
    var after := FillOrder(env, TickOf(env, k), AtTurn(env, k, o), o);
    assert o in after.pending;
  }

  lemma RefusedAtTurn<S>(env: Env<S>, k: nat, o: Order, reason: Reason)
    requires k < |Timeline(env.market)| && o in BarOrders(env, k)
    requires var after := FillOrder(env, TickOf(env, k), AtTurn(env, k, o), o);
             var turn := AtTurn(env, k, o);
             after.pending == turn.pending && after.log == turn.log.(rejected := turn.log.rejected + [Rejection(o, reason)])
    ensures IsRefused(Run(env, k), Run(env, k + 1), o, reason)
  {
    hide Run, Timeline, FillOrders, FillOrder, BeforeFills, AtTurn, BarOrders, TickOf, Lookup, InBook;
    TurnOf(env, k, o);
    NotFilledOtherwise(env, k, o);
    var turn := AtTurn(env, k, o);
    NextInSuffix(Run(env, k).log.rejected, turn.log.rejected, Rejection(o, reason), Run(env, k + 1).log.rejected);
  }

  lemma FilledAtTurn<S>(env: Env<S>, k: nat, o: Order, e: Execution)
    requires k < |Timeline(env.market)| && o in BarOrders(env, k)
    requires o.symbol in TickOf(env, k).bars && TryFill(o, TickOf(env, k).bars[o.symbol], env.config, Run(env, k).trail).0 == Some(e)
    requires var after := FillOrder(env, TickOf(env, k), AtTurn(env, k, o), o);
             var turn := AtTurn(env, k, o);
             && after.log == turn.log.(fills := turn.log.fills + [e.fill])
             && after.pending == if e.remainder > 0.0 then turn.pending + [o.(quantity := e.remainder)] else turn.pending
    ensures IsFilled(env.config, Run(env, k), Run(env, k + 1), o, TickOf(env, k).bars[o.symbol], e.fill)
  {
    hide Run, Timeline, FillOrders, FillOrder, TryFill, BeforeFills, AtTurn, BarOrders, TickOf, Lookup, InBook;
    hide Continues;
    TurnOf(env, k, o);
    var turn, bar := AtTurn(env, k, o), TickOf(env, k).bars[o.symbol];
    var after := FillOrder(env, TickOf(env, k), turn, o);
    FillsContinueTo(Run(env, k).log, turn.log, TickOf(env, k).ts);
    FillsContinueTo(after.log, Run(env, k + 1).log, TickOf(env, k).ts);
    NextInSuffix(Run(env, k).log.fills, turn.log.fills, e.fill, Run(env, k + 1).log.fills);
    FillNamesOrder(o, bar, env.config, Run(env, k).trail);
    QuantityFilled(o, bar, env.config, Run(env, k).trail);
    BookAfterTurn(turn.pending, after.pending, o);
    NextInBook(turn.pending, after.pending, Run(env, k + 1).pending, o, e.remainder);
  }

  lemma NextInBook(turn: seq<Order>, after: seq<Order>, next: seq<Order>, o: Order, remainder: real)
    requires after == if remainder > 0.0 then turn + [o.(quantity := remainder)] else turn
    requires after <= next && !InBook(turn, o.id)
    ensures remainder > 0.0 ==> o.(quantity := remainder) in next
    ensures remainder <= 0.0 ==> !InBook(after, o.id)
  {
    if remainder > 0.0 {
      assert next[|turn|] == after[|turn|];
    }
  }

  lemma QuantityFilled(o: Order, bar: Bar, config: Config, trail: map<nat, real>)
    requires TryFill(o, bar, config, trail).0.Some?
    ensures var e := TryFill(o, bar, config, trail).0.value;
            && e.fill.quantity == (if config.maxPctOfVolume.Some? && bar.volume * config.maxPctOfVolume.value < o.quantity
                                   then bar.volume * config.maxPctOfVolume.value else o.quantity)
            && e.remainder == o.quantity - e.fill.quantity
  {
    hide Config.FeeFor, Config.MakerFeeFor, LimitFillPrice, TriggerPrice, TrailTrigger, NextWater, Breached, LimitCrossed, Fraction;
  }

  /**
   No order is forgotten. Whatever rests in the book before bar k of a run expires if its
   lifetime is over, else is cancelled if that was requested, else is tried; and the attempt
   comes to a fill if and only if the order's symbol trades, the bar reaches the order, a
   trailing stop at its water mark by then, and the volume cap allows it.
   */
  lemma EveryOrderIsServed<S>(env: Env<S>, k: nat, o: Order)
    requires k < |Timeline(env.market)| && o in Run(env, k).pending
    ensures o in BarOrders(env, k) <==> !Due(o, k) && o.id !in Run(env, k).cancels
    ensures o.symbol !in TickOf(env, k).bars ==> Attempt(env, k, o).None?
    ensures o.symbol in TickOf(env, k).bars ==>
              var bar := TickOf(env, k).bars[o.symbol];
              var water := Water(env.market, Timeline(env.market), o, k + 1);
              && (Attempt(env, k, o).Some? <==> Reached(o, bar, water, env.config) && CapAllows(bar, env.config))
              && (Attempt(env, k, o).Some? ==> OnTerms(o, bar, water, env.config, Attempt(env, k, o).value.fill))
  {
    hide Run, Timeline, TryFill, BarOrders, BarsAt, Reached, PricedAt, Charged, TypedAs, CapAllows, WaterThen, Water;
    BarOrdersAreTried(env, k);
    if o.symbol in TickOf(env, k).bars {
      var bar := TickOf(env, k).bars[o.symbol];
      RunBalances(env, k, 0);
      assert AsSubmitted(Run(env, k).log.submitted, o);
      FillsOnTerms(o, bar, env.config, Run(env, k).trail);
      if o.kind.TrailingStop? {
        WaterAtBar(env, k, o, bar);
      } else {
        OnlyTrailsWait(o, bar, env.config, WaterThen(o, bar, Run(env, k).trail), Water(env.market, Timeline(env.market), o, k + 1));
      }
    }
  }

  /**
   In every run the reason a strategy is given for a refusal is true: of the position the fill
   would have made, or of the equity and the exposure that the account would have had.
   */
  lemma RefusalsAreTrue<S>(env: Env<S>, k: nat, o: Order)
    requires k < |Timeline(env.market)| && o in BarOrders(env, k) && Attempt(env, k, o).Some?
    requires ObjectionAtTurn(env, k, o, Attempt(env, k, o).value.fill).Some?
    ensures var turn, f := AtTurn(env, k, o), Attempt(env, k, o).value.fill;
            IsTrue(env.config, Touch(turn.account, o.symbol), turn.marks, f, ObjectionAtTurn(env, k, o, f).value)
  {
    hide Run, Timeline, TryFill, BeforeFills, FillOrders, Touch, Objection, InOrder, IsTrue;
    var turn, f := AtTurn(env, k, o), Attempt(env, k, o).value.fill;
    MidBarInOrder(env, k, IndexOf(BarOrders(env, k), o));
    FillNamesOrder(o, TickOf(env, k).bars[o.symbol], env.config, Run(env, k).trail);
    TouchedStanding(env.config, turn, o.symbol);
    RefusalIsTrue(env.config, Touch(turn.account, o.symbol), turn.marks, f);
  }

  lemma OnlyTrailsWait(o: Order, bar: Bar, config: Config, water: Option<real>, other: Option<real>)
    requires !o.kind.TrailingStop?
    ensures Reached(o, bar, water, config) <==> Reached(o, bar, other, config)
    ensures forall price: real :: PricedAt(o, bar, water, config, price) <==> PricedAt(o, bar, other, config, price)
  {
  }
}
