/**
 Causality: a run never depends on bars it has not reached. Running on the market cut
 off at a timestamp reproduces, state for state, the full run up to that timestamp.
 */
module Causality {
  import opened Prelude
  import opened Types
  import opened Fills
  import opened Accounts
  import opened Timelines
  import opened Engine

  function WithMarket<S>(env: Env<S>, m: Market): Env<S> {
    Env(env.config, m, env.strategy)
  }

  /** Resting orders meet only the tick's own bars, never the rest of the market. */
  lemma {:induction false} FillsIgnoreMarket<S>(env: Env<S>, other: Market, tick: Tick, st: State<S>, orders: seq<Order>)
    ensures FillOrders(WithMarket(env, other), tick, st, orders) == FillOrders(env, tick, st, orders)
    decreases |orders|
  {
    if orders == [] {
    } else {
      assert FillOrder(WithMarket(env, other), tick, st, orders[0]) == FillOrder(env, tick, st, orders[0]);
      FillsIgnoreMarket(env, other, tick, FillOrder(env, tick, st, orders[0]), orders[1..]);
    }
  }

  /** A bar depends on the market only through the bars and the history it shows. */
  lemma StepSeesViews<S>(env: Env<S>, other: Market, barCount: nat, ts: int, st: State<S>)
    requires other.symbols == env.market.symbols
    requires BarsAt(other, ts) == BarsAt(env.market, ts) && History(other, ts) == History(env.market, ts)
    ensures Step(WithMarket(env, other), TickAt(other, barCount, ts), st) == Step(env, TickAt(env.market, barCount, ts), st)
  {
    var otherEnv := WithMarket(env, other);
    var tick := TickAt(env.market, barCount, ts);
    assert BeforeFills(otherEnv, tick, st) == BeforeFills(env, tick, st);
    var before := BeforeFills(env, tick, st);
    FillsIgnoreMarket(env, other, tick, before.(pending := []), before.pending);
    var filled := FillPhase(env, tick, before);
    assert ContextOf(otherEnv, tick, filled) == ContextOf(env, tick, filled);
  }

  lemma StepsAgree<S>(env: Env<S>, cut: int, barCount: nat, ts: int, st: State<S>)
    requires ts <= cut
    ensures var cutMarket := Truncate(env.market, cut);
            Step(WithMarket(env, cutMarket), TickAt(cutMarket, barCount, ts), st)
            == Step(env, TickAt(env.market, barCount, ts), st)
  {
    hide Step, BarsAt, History;
    ViewsAgree(env.market, cut, ts);
    StepSeesViews(env, Truncate(env.market, cut), barCount, ts, st);
  }

  /** The run on the truncated market passes through the same states. */
  lemma {:induction false} RunsAgree<S>(env: Env<S>, cut: int, k: nat)
    requires k <= CountUpTo(Timeline(env.market), cut)
    ensures k <= |Timeline(Truncate(env.market, cut))|
    ensures Run(WithMarket(env, Truncate(env.market, cut)), k) == Run(env, k)
  {
    hide Step;
    TimelineCut(env.market, cut);
    if k == 0 {
    } else {
      RunsAgree(env, cut, k - 1);
      StepsAgree(env, cut, k - 1, Timeline(env.market)[k - 1], Run(env, k - 1));
    }
  }

  // ---------- Frames of symbols that are not traded ----------

  /** Two markets with the same traded symbols and the same frames for them. */
  predicate SameTraded(a: Market, b: Market) {
    a.symbols == b.symbols && forall s :: s in a.symbols ==> Frame(a, s) == Frame(b, s) && (s in a.frames <==> s in b.frames)
  }

  lemma SameViews(a: Market, b: Market, ts: int)
    requires SameTraded(a, b)
    ensures Timeline(a) == Timeline(b) && BarsAt(a, ts) == BarsAt(b, ts) && History(a, ts) == History(b, ts)
  {
    hide Frame, BarAt, RowsUpTo, HasStamp;
    SameMembersSameSequence(Timeline(a), Timeline(b));
  }

  lemma {:induction false} SameComplaints(a: Market, b: Market, symbols: seq<Symbol>)
    requires SameTraded(a, b) && forall s :: s in symbols ==> s in a.symbols
    ensures Complaint(a.frames, symbols) == Complaint(b.frames, symbols)
  {
    if symbols != [] {
      assert symbols[0] in a.symbols;
      SameComplaints(a, b, symbols[1..]);
    }
  }

  lemma {:induction false} SameRuns<S>(env: Env<S>, other: Market, k: nat)
    requires SameTraded(env.market, other) && k <= |Timeline(env.market)|
    ensures Timeline(other) == Timeline(env.market)
    ensures Run(WithMarket(env, other), k) == Run(env, k)
  {
    hide Step, SameTraded, BarsAt, History, Timeline;
    SameViews(env.market, other, 0);
    if k > 0 {
      SameRuns(env, other, k - 1);
      var ts := Timeline(env.market)[k - 1];
      SameViews(env.market, other, ts);
      SameSymbols(env.market, other);
      StepSeesViews(env, other, k - 1, ts, Run(env, k - 1));
    }
  }

  lemma SameSymbols(a: Market, b: Market)
    requires SameTraded(a, b)
    ensures a.symbols == b.symbols
  {
  }

  /** The frames of symbols that are not traded make no difference to a backtest. */
  lemma UntradedIgnored<S>(env: Env<S>, other: Market)
    requires SameTraded(env.market, other)
    ensures Backtest(WithMarket(env, other)) == Backtest(env)
  {
    hide Run, Timeline;
    SameComplaints(env.market, other, env.market.symbols);
    SameRuns(env, other, |Timeline(env.market)|);
  }

  // ---------- The logs only grow, and by entries of the current bar ----------

  /** Every stamped entry of a log is at or before ts. */
  predicate StampedUpTo(log: Log, ts: int) {
    && (forall f :: f in log.fills ==> f.filledTs <= ts)
    && (forall p :: p in log.equity ==> p.ts <= ts)
  }

  /** One log continues another, with stamped entries at exactly ts. */
  predicate Continues(before: Log, after: Log, ts: int) {
    && before.fills <= after.fills
    && before.equity <= after.equity
    && before.rejected <= after.rejected
    && before.cancelled <= after.cancelled
    && before.expired <= after.expired
    && before.signals <= after.signals
    && before.submitted <= after.submitted
    && (forall i :: |before.fills| <= i < |after.fills| ==> after.fills[i].filledTs == ts)
    && (forall i :: |before.equity| <= i < |after.equity| ==> after.equity[i].ts == ts)
  }

  lemma ContinuesTrans(a: Log, b: Log, c: Log, ts: int)
    requires Continues(a, b, ts) && Continues(b, c, ts)
    ensures Continues(a, c, ts)
  {
  }

  lemma {:induction false} SettleContinues<S>(config: Config, tick: Tick, st: State<S>, symbols: seq<Symbol>)
    ensures Continues(st.log, SettleAll(config, tick, st, symbols).log, tick.ts)
    decreases |symbols|
  {
    if symbols == [] {
    } else {
      var next := SettleOne(config, tick, st, symbols[0]);
      SettleContinues(config, tick, next, symbols[1..]);
      ContinuesTrans(st.log, next.log, SettleAll(config, tick, st, symbols).log, tick.ts);
    }
  }

  predicate TickStamped(tick: Tick) {
    forall s :: s in tick.bars ==> tick.bars[s].ts == tick.ts
  }

  lemma FillContinues<S>(env: Env<S>, tick: Tick, st: State<S>, o: Order)
    requires TickStamped(tick)
    ensures Continues(st.log, FillOrder(env, tick, st, o).log, tick.ts)
  {
    hide TryFill, Objection, ApplyFill, Touch, FillOrder;
    FillOutcome(env, tick, st, o);
    if o.symbol in tick.bars && TryFill(o, tick.bars[o.symbol], env.config, st.trail).0.Some? {
      FillNamesOrder(o, tick.bars[o.symbol], env.config, st.trail);
    }
  }

  lemma {:induction false} FillsContinue<S>(env: Env<S>, tick: Tick, st: State<S>, orders: seq<Order>)
    requires TickStamped(tick)
    ensures Continues(st.log, FillOrders(env, tick, st, orders).log, tick.ts)
    decreases |orders|
  {
    if orders == [] {
    } else {
      FillContinues(env, tick, st, orders[0]);
      hide FillOrder, Continues;
      var next := FillOrder(env, tick, st, orders[0]);
      FillsContinue(env, tick, next, orders[1..]);
      ContinuesTrans(st.log, next.log, FillOrders(env, tick, st, orders).log, tick.ts);
    }
  }

  lemma BeforeFillsContinue<S>(env: Env<S>, tick: Tick, st: State<S>)
    ensures Continues(st.log, BeforeFills(env, tick, st).log, tick.ts)
    ensures BeforeFills(env, tick, st).log.equity == st.log.equity
  {
    hide SettleAll, Filter, Notify;
    var marked := MarkPhase(tick, st);
    SettleContinues(env.config, tick, marked, SymbolsOf(marked.account.book));
    SettleKeepsEquity(env.config, tick, marked, SymbolsOf(marked.account.book));
  }

  lemma StrategyContinues<S>(env: Env<S>, tick: Tick, st: State<S>)
    ensures var after := EquityPhase(tick, StrategyPhase(env, tick, st));
            Continues(st.log, after.log, tick.ts) && |after.log.equity| == |st.log.equity| + 1
  {
    hide MarkToMarket, ContextOf, Submit;
  }

  lemma StepContinues<S>(env: Env<S>, tick: Tick, st: State<S>)
    requires TickStamped(tick)
    ensures Continues(st.log, Step(env, tick, st).log, tick.ts)
    ensures |Step(env, tick, st).log.equity| == |st.log.equity| + 1
  {
    hide BeforeFills, FillOrders, EquityPhase, StrategyPhase, Continues;
    var before := BeforeFills(env, tick, st);
    var filled := FillPhase(env, tick, before);
    BeforeFillsContinue(env, tick, st);
    FillsContinue(env, tick, before.(pending := []), before.pending);
    FillsKeepEquity(env, tick, before.(pending := []), before.pending);
    StrategyContinues(env, tick, filled);
    ContinuesTrans(st.log, before.log, filled.log, tick.ts);
    ContinuesTrans(st.log, filled.log, Step(env, tick, st).log, tick.ts);
  }

  lemma {:induction false} SettleKeepsEquity<S>(config: Config, tick: Tick, st: State<S>, symbols: seq<Symbol>)
    ensures SettleAll(config, tick, st, symbols).log.equity == st.log.equity
    decreases |symbols|
  {
    if symbols == [] {
    } else {
      SettleKeepsEquity(config, tick, SettleOne(config, tick, st, symbols[0]), symbols[1..]);
    }
  }

  lemma {:induction false} FillsKeepEquity<S>(env: Env<S>, tick: Tick, st: State<S>, orders: seq<Order>)
    ensures FillOrders(env, tick, st, orders).log.equity == st.log.equity
    decreases |orders|
  {
    if orders == [] {
    } else {
      FillsKeepEquity(env, tick, FillOrder(env, tick, st, orders[0]), orders[1..]);
    }
  }

  /** An earlier state's log is a prefix of a later one's, and the rest is stamped later. */
  predicate Prolongs(before: Log, after: Log, ts: int) {
    && before.fills <= after.fills
    && before.equity <= after.equity
    && before.rejected <= after.rejected
    && before.cancelled <= after.cancelled
    && before.expired <= after.expired
    && before.signals <= after.signals
    && before.submitted <= after.submitted
    && (forall i :: |before.fills| <= i < |after.fills| ==> after.fills[i].filledTs > ts)
    && (forall i :: |before.equity| <= i < |after.equity| ==> after.equity[i].ts > ts)
  }

  lemma {:induction false} LogsExtend<S>(env: Env<S>, k: nat, n: nat, ts: int)
    requires k <= n <= |Timeline(env.market)|
    requires forall i :: k <= i < n ==> ts < Timeline(env.market)[i]
    ensures Prolongs(Run(env, k).log, Run(env, n).log, ts)
  {
    hide Step, Run, Timeline;
    if k == n {
    } else {
      LogsExtend(env, k, n - 1, ts);
      RunNext(env, n - 1);
      StepContinues(env, TickAt(env.market, n - 1, Timeline(env.market)[n - 1]), Run(env, n - 1));
    }
  }

  lemma {:induction false} StampsBounded<S>(env: Env<S>, k: nat, ts: int)
    requires k <= |Timeline(env.market)|
    requires forall i :: 0 <= i < k ==> Timeline(env.market)[i] <= ts
    ensures StampedUpTo(Run(env, k).log, ts)
    ensures |Run(env, k).log.equity| == k
  {
    hide Step;
    if k == 0 {
    } else {
      StampsBounded(env, k - 1, ts);
      var before, after := Run(env, k - 1).log, Run(env, k).log;
      StepContinues(env, TickAt(env.market, k - 1, Timeline(env.market)[k - 1]), Run(env, k - 1));
      forall f | f in after.fills ensures f.filledTs <= ts {
        var i :| 0 <= i < |after.fills| && after.fills[i] == f;
        if i < |before.fills| { assert before.fills[i] in before.fills; }
      }
      forall p | p in after.equity ensures p.ts <= ts {
        var i :| 0 <= i < |after.equity| && after.equity[i] == p;
        if i < |before.equity| { assert before.equity[i] in before.equity; }
      }
    }
  }

  // ---------- Causality of whole backtests ----------

  function FilledBy(ts: int): Fill -> bool { (f: Fill) => f.filledTs <= ts }

  function FilledAfter(ts: int): Fill -> bool { (f: Fill) => f.filledTs > ts }

  function PointBy(ts: int): EquityPoint -> bool { (p: EquityPoint) => p.ts <= ts }

  function PointAfter(ts: int): EquityPoint -> bool { (p: EquityPoint) => p.ts > ts }

  lemma SplitFilter<T>(all: seq<T>, n: nat, early: T -> bool, late: T -> bool)
    requires n <= |all|
    requires forall i :: 0 <= i < n ==> early(all[i]) && !late(all[i])
    requires forall i :: n <= i < |all| ==> !early(all[i]) && late(all[i])
    ensures Filter(all, early) == all[..n]
    ensures Filter(all, late) == all[n..]
  {
    assert all == all[..n] + all[n..];
    FilterAppend(all[..n], all[n..], early);
    FilterAppend(all[..n], all[n..], late);
    FilterAll(all[..n], early);
    FilterNone(all[n..], early);
    FilterNone(all[..n], late);
    FilterAll(all[n..], late);
  }

  /** The result of the full run, cut at ts: the k bars up to ts and what they recorded. */
  predicate IsPrefixUpTo<S>(part: BacktestResult<S>, whole: BacktestResult<S>, ts: int) {
    && part.fills == Filter(whole.fills, FilledBy(ts))
    && part.equityCurve == Filter(whole.equityCurve, PointBy(ts))
    && part.fills + Filter(whole.fills, FilledAfter(ts)) == whole.fills
    && part.equityCurve + Filter(whole.equityCurve, PointAfter(ts)) == whole.equityCurve
    && part.rejected <= whole.rejected
    && part.cancelled <= whole.cancelled
    && part.expired <= whole.expired
    && part.signals <= whole.signals
    && part.ordersSubmitted <= whole.ordersSubmitted
  }

  /** Every state of a run records exactly the part of the final result that is stamped so far. */
  lemma StateIsPrefix<S>(env: Env<S>, cut: int)
    ensures var tl := Timeline(env.market);
            IsPrefixUpTo(ResultOf(env.config, Run(env, CountUpTo(tl, cut))), ResultOf(env.config, Run(env, |tl|)), cut)
  {
    hide Step, Run, Timeline, CountUpTo, Prolongs, StampedUpTo, Filter;
    var tl := Timeline(env.market);
    var k := CountUpTo(tl, cut);
    LogsExtend(env, k, |tl|, cut);
    StampsBounded(env, k, cut);
    LogSplits(Run(env, k).log, Run(env, |tl|).log, cut);
  }

  /** A log that prolongs another one stamped up to ts is split by ts into that other one and the rest. */
  lemma LogSplits(part: Log, whole: Log, ts: int)
    requires Prolongs(part, whole, ts) && StampedUpTo(part, ts)
    ensures part.fills == Filter(whole.fills, FilledBy(ts)) && part.equity == Filter(whole.equity, PointBy(ts))
    ensures part.fills + Filter(whole.fills, FilledAfter(ts)) == whole.fills
    ensures part.equity + Filter(whole.equity, PointAfter(ts)) == whole.equity
    ensures part.rejected <= whole.rejected && part.cancelled <= whole.cancelled && part.expired <= whole.expired
    ensures part.signals <= whole.signals && part.submitted <= whole.submitted
  {
    hide Filter;
    forall i | 0 <= i < |part.fills| ensures whole.fills[i].filledTs <= ts {
      assert part.fills[i] in part.fills;
    }
    forall i | 0 <= i < |part.equity| ensures whole.equity[i].ts <= ts {
      assert part.equity[i] in part.equity;
    }
    SplitFilter(whole.fills, |part.fills|, FilledBy(ts), FilledAfter(ts));
    SplitFilter(whole.equity, |part.equity|, PointBy(ts), PointAfter(ts));
  }

  /** The truncated market is accepted exactly when every traded symbol has a bar by then. */
  lemma CutAccepted(m: Market, cut: int)
    requires ValidateInputs(m).None?
    ensures ValidateInputs(Truncate(m, cut)).None? <==>
              forall s :: s in m.symbols ==> exists b :: b in Frame(m, s) && b.ts <= cut
  {
    ComplaintFree(m.frames, m.symbols);
    ComplaintFree(Truncate(m, cut).frames, m.symbols);
    forall s | s in m.symbols
      ensures RowsUpTo(m.frames[s], cut) != [] <==> exists b :: b in Frame(m, s) && b.ts <= cut
    {
      FilterMembers(m.frames[s], StampedBy(cut));
      var rows := RowsUpTo(m.frames[s], cut);
      if rows != [] { assert rows[0] in rows; }
      if exists b :: b in Frame(m, s) && b.ts <= cut {
        var b :| b in Frame(m, s) && b.ts <= cut;
        assert b in rows;
      }
    }
  }

  /**
   No look-ahead. For every strategy, market and time: the backtest on the bars up to that
   time is accepted exactly when each symbol has one, it passes through the very states of
   the full run, and what it records is the part of the full result up to that time.
   */
  lemma NoLookAhead<S>(env: Env<S>, cut: int)
    requires Backtest(env).Ok?
    ensures var part := Backtest(WithMarket(env, Truncate(env.market, cut)));
            var k := CountUpTo(Timeline(env.market), cut);
            && (part.Ok? <==> forall s :: s in env.market.symbols ==> exists b :: b in Frame(env.market, s) && b.ts <= cut)
            && (part.Ok? ==>
                  && part.value == ResultOf(env.config, Run(env, k))
                  && IsPrefixUpTo(part.value, Backtest(env).value, cut))
  {
    ComplaintFree(env.market.frames, env.market.symbols);
    CutAccepted(env.market, cut);
    TimelineCut(env.market, cut);
    RunsAgree(env, cut, CountUpTo(Timeline(env.market), cut));
    StateIsPrefix(env, cut);
  }
}
