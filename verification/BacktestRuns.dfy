/**
 The engine loop itself: one object holds the loop's variables and updates them in place,
 phase by phase, with the portfolio object and the forward-only history cursors. Each
 phase is proved to do what the state machine's phase does, and the run to return exactly
 what the state machine computes.
 */
module BacktestRuns {
  import opened Prelude
  import opened Types
  import opened Fills
  import opened Accounts
  import opened Portfolios
  import opened Timelines
  import opened Engine

  lemma {:induction false} NotifySnoc<S>(callback: (S, Order) -> S, s: S, orders: seq<Order>, o: Order)
    ensures Notify(callback, s, orders + [o]) == callback(Notify(callback, s, orders), o)
    decreases |orders|
  {
    if orders == [] {
    } else {
      assert (orders + [o])[1..] == orders[1..] + [o];
      NotifySnoc(callback, callback(s, orders[0]), orders[1..], o);
    }
  }

  lemma NotifyNone<S>(callback: (S, Order) -> S, s: S)
    ensures Notify(callback, s, []) == s
  {
  }

  /** What a prefix filters to, one element at a time; the whole is its own longest prefix. */
  lemma FilterPrefix<T>(s: seq<T>, i: nat, test: T -> bool)
    requires i < |s|
    ensures Filter(s[..i + 1], test) == if test(s[i]) then Filter(s[..i], test) + [s[i]] else Filter(s[..i], test)
  {
    assert s[..i + 1] == s[..i] + [s[i]];
    FilterAppend(s[..i], [s[i]], test);
  }

  lemma FilterBounds<T>(s: seq<T>, test: T -> bool)
    ensures Filter(s[..0], test) == [] && Filter(s[..|s|], test) == Filter(s, test)
  {
    assert s[..|s|] == s;
  }

  /** The closes of those of the symbols that have a bar at the tick. */
  function Closes(tick: Tick, symbols: seq<Symbol>): map<Symbol, real> {
    map s | s in symbols && s in tick.bars :: tick.bars[s].close
  }

  lemma ClosesPrefix(marks: map<Symbol, real>, tick: Tick, symbols: seq<Symbol>, i: nat)
    requires i < |symbols|
    ensures marks + Closes(tick, symbols[..i + 1])
         == if symbols[i] in tick.bars
            then (marks + Closes(tick, symbols[..i]))[symbols[i] := tick.bars[symbols[i]].close]
            else marks + Closes(tick, symbols[..i])
  {
    assert symbols[..i + 1] == symbols[..i] + [symbols[i]];
    var fewer, more := Closes(tick, symbols[..i]), Closes(tick, symbols[..i + 1]);
    assert forall s :: s in symbols[..i + 1] <==> s in symbols[..i] || s == symbols[i];
    assert more == if symbols[i] in tick.bars then fewer[symbols[i] := tick.bars[symbols[i]].close] else fewer;
  }

  lemma ClosesBounds(marks: map<Symbol, real>, tick: Tick, symbols: seq<Symbol>)
    requires forall s :: s in tick.bars ==> s in symbols
    ensures marks + Closes(tick, symbols[..0]) == marks
    ensures Closes(tick, symbols[..|symbols|]) == map s | s in tick.bars :: tick.bars[s].close
  {
    assert symbols[..|symbols|] == symbols;
  }

  /** The history slices of some of the symbols. */
  function Slices(m: Market, symbols: seq<Symbol>, ts: int): map<Symbol, seq<Bar>> {
    map s | s in symbols :: RowsUpTo(Frame(m, s), ts)
  }

  lemma SlicesPrefix(m: Market, symbols: seq<Symbol>, i: nat, ts: int)
    requires i < |symbols|
    ensures Slices(m, symbols[..i + 1], ts) == Slices(m, symbols[..i], ts)[symbols[i] := RowsUpTo(Frame(m, symbols[i]), ts)]
  {
    hide RowsUpTo, Frame;
    assert symbols[..i + 1] == symbols[..i] + [symbols[i]];
  }

  lemma SlicesBounds(m: Market, ts: int)
    ensures Slices(m, m.symbols[..0], ts) == map[]
    ensures Slices(m, m.symbols[..|m.symbols|], ts) == History(m, ts)
  {
    hide RowsUpTo, Frame;
    assert m.symbols[..|m.symbols|] == m.symbols;
  }

  /** In a sorted frame the rows up to a timestamp are those before the first later row. */
  lemma CursorIsFilter(frame: seq<Bar>, pos: nat, ts: int)
    requires SortedFrame(frame) && pos <= |frame|
    requires forall i :: 0 <= i < pos ==> frame[i].ts <= ts
    requires pos < |frame| ==> frame[pos].ts > ts
    ensures frame[..pos] == RowsUpTo(frame, ts)
  {
    assert frame == frame[..pos] + frame[pos..];
    FilterAppend(frame[..pos], frame[pos..], StampedBy(ts));
    FilterAll(frame[..pos], StampedBy(ts));
    FilterNone(frame[pos..], StampedBy(ts));
  }

  // ---------- Counting cursor moves ----------

  /** A number per symbol added up over the distinct symbols of a list. */
  function Total(symbols: seq<Symbol>, number: Symbol -> nat): nat {
    if symbols == [] then 0
    else
      var n := |symbols| - 1;
      Total(symbols[..n], number) + (if symbols[n] in symbols[..n] then 0 else number(symbols[n]))
  }

  function Moves(advances: map<Symbol, nat>): Symbol -> nat {
    (s: Symbol) => if s in advances then advances[s] else 0
  }

  function Rows(m: Market): Symbol -> nat {
    (s: Symbol) => |Frame(m, s)|
  }

  /** No cursor has moved more often than its frame has rows. */
  predicate WithinRows(m: Market, advances: map<Symbol, nat>) {
    forall s :: s in m.symbols ==> s in advances && advances[s] <= |Frame(m, s)|
  }

  lemma {:induction false} TotalGrows(symbols: seq<Symbol>, fewer: Symbol -> nat, more: Symbol -> nat)
    requires forall s :: s in symbols ==> fewer(s) <= more(s)
    ensures Total(symbols, fewer) <= Total(symbols, more)
  {
    if symbols == [] {
    } else {
      TotalGrows(symbols[..|symbols| - 1], fewer, more);
    }
  }

  class BacktestRun<S> {
    const env: Env<S>
    const portfolio: Portfolio
    var strategy: S
    var pending: seq<Order>
    var marks: map<Symbol, real>
    var trail: map<nat, real>
    var cancels: set<nat>
    var settled: set<Symbol>
    var fills: seq<Fill>
    var equity: seq<EquityPoint>
    var rejected: seq<Rejection>
    var cancelled: seq<Order>
    var expired: seq<Order>
    var signals: seq<SignalEvent>
    var submitted: seq<Order>
    var cursors: map<Symbol, nat>
    /** How often each symbol's cursor has been moved, counted move by move. */
    ghost var advances: map<Symbol, nat>

    function View(): State<S>
      reads this, portfolio
    {
      State(strategy, portfolio.View(), pending, marks, trail, cancels, settled,
            Log(fills, equity, rejected, cancelled, expired, signals, submitted))
    }

    /** Every symbol's cursor stands within its frame, behind no row later than ts, and has moved no more often than it had to. */
    ghost predicate CursorsBehind(ts: int)
      reads this`cursors, this`advances
    {
      && advances == cursors
      && forall s :: s in env.market.symbols ==>
           && s in cursors && cursors[s] <= |Frame(env.market, s)|
           && forall i :: 0 <= i < cursors[s] ==> Frame(env.market, s)[i].ts <= ts
    }

    constructor (env: Env<S>)
      ensures this.env == env && fresh(portfolio)
      ensures AtStart()
    {
      this.env := env;
      portfolio := new Portfolio(env.config.startingCash);
      strategy := env.strategy.initial;
      pending, marks, trail, cancels, settled := [], map[], map[], {}, {};
      fills, equity, rejected, cancelled, expired, signals, submitted := [], [], [], [], [], [], [];
      cursors := map s | s in env.market.symbols :: 0;
      advances := map s | s in env.market.symbols :: 0;
    }

    method UpdateMarks(tick: Tick)
      requires forall s :: s in tick.bars ==> s in env.market.symbols
      modifies this`marks
      ensures View() == MarkPhase(tick, old(View()))
    {
      hide Closes;
      var symbols := env.market.symbols;
      ClosesBounds(marks, tick, symbols);
      for i := 0 to |symbols|
        invariant marks == old(marks) + Closes(tick, symbols[..i])
      {
        ClosesPrefix(old(marks), tick, symbols, i);
        if symbols[i] in tick.bars {
          marks := marks[symbols[i] := tick.bars[symbols[i]].close];
        }
      }
    }

    method SettleExpiringOptions(tick: Tick)
      modifies this`fills, this`settled, portfolio
      ensures View() == SettlePhase(env.config, tick, old(View()))
    {
      var symbols := SymbolsOf(portfolio.positions);
      for i := 0 to |symbols|
        invariant SettleAll(env.config, tick, View(), symbols[i..]) == SettlePhase(env.config, tick, old(View()))
        invariant View() == old(View()).(account := portfolio.View(), settled := settled, log := old(View()).log.(fills := fills))
      {
        SettleOption(tick, symbols[i]);
        assert symbols[i..][1..] == symbols[i + 1..];
      }
    }

    method SettleOption(tick: Tick, symbol: Symbol)
      modifies this`fills, this`settled, portfolio
      ensures View() == SettleOne(env.config, tick, old(View()), symbol)
    {
      var quantity := Get(portfolio.positions, symbol).quantity;
      if quantity == 0.0 || symbol in settled || !OptionExpired(env.config, symbol, tick.ts) {
        return;
      }
      var price := SettlementPrice(env.config.instrumentMeta[symbol], symbol, marks);
      portfolio.ApplySell(symbol, quantity, price, 0.0);
      fills := fills + [Fill(Expiry(symbol, tick.barCount), symbol, Sell, MARKET, quantity, price, 0.0,
                             tick.ts, tick.ts, false, [])];
      settled := settled + {symbol};
    }

    method ExpireOrders(tick: Tick)
      modifies this`strategy, this`pending, this`expired
      ensures View() == ExpirePhase(env.strategy, tick, old(View()))
    {
      hide Filter, Notify;
      NotifyNone(env.strategy.onExpired, strategy);
      FilterBounds(pending, Staying(tick.barCount));
      FilterBounds(pending, Expiring(tick.barCount));
      var surviving: seq<Order> := [];
      for i := 0 to |pending|
        invariant pending == old(pending)
        invariant surviving == Filter(pending[..i], Staying(tick.barCount))
        invariant expired == old(expired) + Filter(pending[..i], Expiring(tick.barCount))
        invariant strategy == Notify(env.strategy.onExpired, old(strategy), Filter(pending[..i], Expiring(tick.barCount)))
      {
        var o := pending[i];
        FilterPrefix(pending, i, Staying(tick.barCount));
        FilterPrefix(pending, i, Expiring(tick.barCount));
        if o.expiresAt.Some? && tick.barCount >= o.expiresAt.value {
          NotifySnoc(env.strategy.onExpired, old(strategy), Filter(pending[..i], Expiring(tick.barCount)), o);
          expired := expired + [o];
          strategy := env.strategy.onExpired(strategy, o);
        } else {
          surviving := surviving + [o];
        }
      }
      pending := surviving;
    }

    method CancelOrders()
      modifies this`strategy, this`pending, this`cancelled, this`cancels
      ensures View() == CancelPhase(env.strategy, old(View()))
    {
      if cancels == {} {
        return;
      }
      hide Filter, Notify;
      DropCancelled(cancels);
      cancels := {};
    }

    /** Moves the orders with the requested ids to the cancelled ones and tells the strategy of each. */
    method DropCancelled(requested: set<nat>)
      modifies this`strategy, this`pending, this`cancelled
      ensures pending == Filter(old(pending), Keeping(requested))
      ensures cancelled == old(cancelled) + Filter(old(pending), Cancelling(requested))
      ensures strategy == Notify(env.strategy.onCancelled, old(strategy), Filter(old(pending), Cancelling(requested)))
    {
      hide Filter, Notify;
      NotifyNone(env.strategy.onCancelled, strategy);
      FilterBounds(pending, Keeping(requested));
      FilterBounds(pending, Cancelling(requested));
      var surviving: seq<Order> := [];
      for i := 0 to |pending|
        invariant pending == old(pending)
        invariant surviving == Filter(pending[..i], Keeping(requested))
        invariant cancelled == old(cancelled) + Filter(pending[..i], Cancelling(requested))
        invariant strategy == Notify(env.strategy.onCancelled, old(strategy), Filter(pending[..i], Cancelling(requested)))
      {
        var o := pending[i];
        FilterPrefix(pending, i, Keeping(requested));
        FilterPrefix(pending, i, Cancelling(requested));
        if o.id in requested {
          NotifySnoc(env.strategy.onCancelled, old(strategy), Filter(pending[..i], Cancelling(requested)), o);
          cancelled := cancelled + [o];
          strategy := env.strategy.onCancelled(strategy, o);
        } else {
          surviving := surviving + [o];
        }
      }
      pending := surviving;
    }

    method FillOrders(tick: Tick)
      modifies this`strategy, this`pending, this`trail, this`fills, this`rejected, portfolio
      ensures View() == FillPhase(env, tick, old(View()))
    {
      hide FillOrder;
      var orders := pending;
      pending := [];
      for i := 0 to |orders|
        invariant Engine.FillOrders(env, tick, View(), orders[i..]) == FillPhase(env, tick, old(View()))
      {
        TryOrder(tick, orders[i]);
        assert orders[i..][1..] == orders[i + 1..];
      }
    }

    /** One pass of the fill loop: pending collects the orders that stay. */
    method TryOrder(tick: Tick, o: Order)
      modifies this`strategy, this`pending, this`trail, this`fills, this`rejected, portfolio
      ensures View() == FillOrder(env, tick, old(View()), o)
    {
      hide Objection, Book, Reject, TryFill, Touch, FillOrder;
      FillOutcome(env, tick, View(), o);
      if o.symbol !in tick.bars {
        pending := pending + [o];
        return;
      }
      var execution := SimulateOrder(o, tick.bars[o.symbol]);
      if execution.None? {
        pending := pending + [o];
        return;
      }
      FillNamesOrder(o, tick.bars[o.symbol], env.config, old(trail));
      var reason := CheckFill(execution.value.fill);
      if reason.Some? {
        RejectOrder(o, reason.value);
        return;
      }
      BookFill(o, execution.value);
    }

    method RejectOrder(o: Order, reason: Reason)
      modifies this`strategy, this`rejected
      ensures View() == Reject(env.strategy, old(View()), o, reason)
    {
      rejected := rejected + [Rejection(o, reason)];
      strategy := env.strategy.onRejected(strategy, o, reason);
    }

    /** Chooses the simulator by the order's type. */
    method SimulateOrder(o: Order, bar: Bar) returns (execution: Option<Execution>)
      modifies this`trail
      ensures (execution, trail) == TryFill(o, bar, env.config, old(trail))
    {
      hide FillAtTrigger, SimulateMarketFill, TryFillLimitOrder;
      match o.kind
      case MarketOrder => execution := SimulateMarketFill(o, bar, env.config);
      case LimitOrder(limit) => execution := TryFillLimitOrder(o, limit, bar, env.config);
      case StopOrder(_) => execution := TryFillStopOrder(o, bar);
      case TrailingStop(_) => execution := TryFillStopOrder(o, bar);
    }

    /** A stop meets a bar; a trailing one first moves its stored water mark, whether or not it then triggers. */
    method TryFillStopOrder(o: Order, bar: Bar) returns (execution: Option<Execution>)
      requires o.kind.StopOrder? || o.kind.TrailingStop?
      modifies this`trail
      ensures (execution, trail) == TryFill(o, bar, env.config, old(trail))
    {
      hide FillAtTrigger;
      if o.kind.StopOrder? {
        return FillAtTrigger(o, STOP, o.kind.stop, bar, env.config);
      }
      var fraction := o.kind.percent / 100.0;
      var water := if o.side == Sell then bar.high else bar.low;
      var trigger;
      if o.side == Sell {
        if o.id in trail && !(trail[o.id] < bar.high) {
          water := trail[o.id];
        }
        trigger := water * (1.0 - fraction);
      } else {
        if o.id in trail && !(bar.low < trail[o.id]) {
          water := trail[o.id];
        }
        trigger := water * (1.0 + fraction);
      }
      assert water == NextWater(o.side, Lookup(trail, o.id), bar);
      assert trigger == TrailTrigger(o.side, o.kind.percent, water);
      trail := trail[o.id := water];
      hide NextWater, TrailTrigger;
      execution := FillAtTrigger(o, TRAILING_STOP, trigger, bar, env.config);
    }

    /** Applies an accepted fill, then requeues what is left of its order or retires its water mark. */
    method BookFill(o: Order, e: Execution)
      modifies this`pending, this`trail, this`fills, portfolio
      ensures View() == Book(env.config, old(View()), o, e)
    {
      hide Accounts.ApplyFill;
      var f := e.fill;
      portfolio.ApplyFill(f.symbol, f.side, f.quantity, f.price, f.fee, env.config.MultiplierFor(f.symbol));
      fills := fills + [f];
      if e.remainder > 0.0 {
        pending := pending + [o.(quantity := e.remainder)];
      } else {
        trail := trail - {o.id};
      }
    }

    /** The shorting and buying-power rules against the live portfolio. */
    method CheckFill(f: Fill) returns (reason: Option<Reason>)
      modifies portfolio
      ensures portfolio.View() == Touch(old(portfolio.View()), f.symbol)
      ensures reason == Objection(env.config, portfolio.View(), marks, f)
    {
      hide Project, Put, Get;
      var m := env.config.MultiplierFor(f.symbol);
      var signed := if f.side == Buy then f.quantity else -f.quantity;
      var p := portfolio.GetPosition(f.symbol);
      GetPut(old(portfolio.positions), p, f.symbol);
      var held := p.quantity;
      var after := held + signed;
      if after < 0.0 && !env.config.allowShort {
        return Some(ShortingDisabled(f.quantity, after, held));
      }
      var mark := if f.symbol in marks then marks[f.symbol] else f.price;
      if Notional(Abs(after), mark, m) > Notional(Abs(held), mark, m) {
        var cashAfter := portfolio.cash - Notional(signed, f.price, m) - f.fee;
        var projection := portfolio.ProjectedEquityAndGross(cashAfter, marks[f.symbol := mark], f.symbol, after, m);
        if projection.equity < env.config.marginRate * projection.gross {
          return Some(BuyingPower(projection.equity, env.config.marginRate, projection.gross));
        }
      }
      return None;
    }

    /** The history slices, by advancing each symbol's cursor past the rows up to ts. */
    method AdvanceCursors(ts: int) returns (history: map<Symbol, seq<Bar>>)
      requires SortedMarket(env.market) && CursorsBehind(ts)
      modifies this`cursors, this`advances
      ensures history == History(env.market, ts)
      ensures CursorsBehind(ts) && WithinRows(env.market, advances)
    {
      hide RowsUpTo, SortedMarket, Slices, Frame, History;
      var symbols := env.market.symbols;
      SlicesBounds(env.market, ts);
      history := map[];
      for i := 0 to |symbols|
        invariant CursorsBehind(ts)
        invariant history == Slices(env.market, symbols[..i], ts)
      {
        SlicesPrefix(env.market, symbols, i, ts);
        var rows := AdvanceCursor(symbols[i], ts);
        history := history[symbols[i] := rows];
      }
    }

    method AdvanceCursor(s: Symbol, ts: int) returns (rows: seq<Bar>)
      requires s in env.market.symbols && SortedMarket(env.market) && CursorsBehind(ts)
      modifies this`cursors, this`advances
      ensures rows == RowsUpTo(Frame(env.market, s), ts)
      ensures CursorsBehind(ts)
    {
      var frame := Frame(env.market, s);
      var pos := cursors[s];
      while pos < |frame| && frame[pos].ts <= ts
        invariant pos <= |frame| && cursors == old(cursors)
        invariant advances == old(advances)[s := pos]
        invariant forall j :: 0 <= j < pos ==> frame[j].ts <= ts
      {
        pos := pos + 1;
        advances := advances[s := advances[s] + 1];
      }
      cursors := cursors[s := pos];
      CursorIsFilter(frame, pos, ts);
      rows := frame[..pos];
    }

    method CallStrategy(tick: Tick)
      requires SortedMarket(env.market) && CursorsBehind(tick.ts)
      modifies this`strategy, this`pending, this`cancels, this`signals, this`submitted, this`cursors, this`advances
      ensures View() == StrategyPhase(env, tick, old(View()))
      ensures CursorsBehind(tick.ts) && WithinRows(env.market, advances)
    {
      hide History, OptionChain, OpenQuantities, Submit, CursorsBehind, WithinRows;
      var history := AdvanceCursors(tick.ts);
      var context := BarContext(tick.ts, tick.barCount, env.market.symbols, history,
                                OpenQuantities(portfolio.positions), portfolio.cash, pending,
                                OptionChain(env.config), |submitted|);
      var response := env.strategy.onBar(strategy, context);
      var orders := Submit(response.requests, tick.ts, tick.barCount, |submitted|);
      strategy := response.state;
      submitted := submitted + orders;
      pending := pending + orders;
      cancels := response.cancels;
      signals := signals + response.signals;
    }

    method RecordEquity(tick: Tick)
      modifies this`equity
      ensures View() == EquityPhase(tick, old(View()))
    {
      var value := portfolio.MarkToMarket(marks);
      equity := equity + [EquityPoint(tick.ts, portfolio.cash, value, portfolio.cash + value)];
    }

    /** The phases of a bar before any order is tried. */
    method OpenBar(tick: Tick)
      requires forall s :: s in tick.bars ==> s in env.market.symbols
      modifies this`marks, this`fills, this`settled, this`strategy, this`pending
      modifies this`expired, this`cancelled, this`cancels, portfolio
      ensures View() == BeforeFills(env, tick, old(View()))
    {
      hide MarkPhase, SettlePhase, ExpirePhase, CancelPhase;
      UpdateMarks(tick);
      SettleExpiringOptions(tick);
      ExpireOrders(tick);
      CancelOrders();
    }

    /** One bar of the timeline, in the engine's order of phases. */
    method ProcessBar(tick: Tick)
      requires SortedMarket(env.market) && CursorsBehind(tick.ts)
      requires forall s :: s in tick.bars ==> s in env.market.symbols
      modifies this, portfolio
      ensures View() == Step(env, tick, old(View()))
      ensures CursorsBehind(tick.ts) && WithinRows(env.market, advances)
    {
      hide BeforeFills, FillPhase, StrategyPhase, EquityPhase, CursorsBehind, WithinRows;
      OpenBar(tick);
      FillOrders(tick);
      CallStrategy(tick);
      RecordEquity(tick);
    }

    /** No bar has been processed and no cursor has moved. */
    ghost predicate AtStart()
      reads this, portfolio
    {
      && View() == Initial(env)
      && WithinRows(env.market, advances)
      && (forall s :: s in env.market.symbols ==> advances[s] == 0)
      && forall ts :: CursorsBehind(ts)
    }

    /**
     The whole run, bar by bar: it ends in the state machine's last state, and counted from its
     start all cursors together have moved at most once per row of the traded frames.
     */
    method WalkTimeline()
      requires SortedMarket(env.market) && AtStart()
      modifies this, portfolio
      ensures View() == Run(env, |Timeline(env.market)|)
      ensures WithinRows(env.market, advances)
      ensures Total(env.market.symbols, Moves(advances)) <= Total(env.market.symbols, Rows(env.market))
    {
      hide Step, BarsAt, Frame, Initial, WithinRows, Total;
      var timeline := Timeline(env.market);
      for k := 0 to |timeline|
        invariant View() == Run(env, k) && WithinRows(env.market, advances)
        invariant k < |timeline| ==> CursorsBehind(timeline[k])
      {
        TickSymbols(env.market, k, timeline[k]);
        ProcessBar(TickAt(env.market, k, timeline[k]));
        assert k + 1 < |timeline| ==> timeline[k] < timeline[k + 1];
      }
      MovesBounded(env.market, advances);
    }
  }

  lemma MovesBounded(m: Market, advances: map<Symbol, nat>)
    requires WithinRows(m, advances)
    ensures Total(m.symbols, Moves(advances)) <= Total(m.symbols, Rows(m))
  {
    TotalGrows(m.symbols, Moves(advances), Rows(m));
  }

  lemma TickSymbols(m: Market, barCount: nat, ts: int)
    ensures forall s :: s in TickAt(m, barCount, ts).bars ==> s in m.symbols
  {
  }

  method CheckInputs(m: Market) returns (error: Option<InputError>)
    ensures error == ValidateInputs(m)
  {
    if m.symbols == [] {
      return Some(NoSymbols);
    }
    for i := 0 to |m.symbols|
      invariant Complaint(m.frames, m.symbols) == Complaint(m.frames, m.symbols[i..])
    {
      var s := m.symbols[i];
      assert m.symbols[i..][1..] == m.symbols[i + 1..];
      if s !in m.frames {
        return Some(NoBars(s));
      }
      if m.frames[s] == [] {
        return Some(EmptyBars(s));
      }
    }
    return None;
  }

  /** The backtest: over sorted frames the loop returns exactly what the state machine computes. */
  method RunBacktest<S>(env: Env<S>) returns (r: Result<BacktestResult<S>, InputError>)
    requires SortedMarket(env.market)
    ensures r == Backtest(env)
  {
    hide Run, Timeline, ValidateInputs;
    var error := CheckInputs(env.market);
    if error.Some? {
      return Err(error.value);
    }
    var run := new BacktestRun(env);
    run.WalkTimeline();
    return Ok(BacktestResult(env.config, run.fills, run.equity, run.portfolio.cash, run.portfolio.positions,
                             run.rejected, run.cancelled, run.expired, run.strategy, run.signals, |run.submitted|));
  }
}
