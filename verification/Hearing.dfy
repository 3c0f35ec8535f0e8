/**
 What a strategy is shown and told. A strategy that writes down every bar context it gets and
 every callback does not disturb the run, and what it has written down at the end is the
 run's own record.
 */
module Hearing {
  import opened Prelude
  import opened Types
  import opened Fills
  import opened Accounts
  import opened Timelines
  import opened Engine
  import opened Orders
  import opened Lifecycle
  import opened Ledger

  /** A strategy's state together with all it has been shown and told and all it has answered. */
  datatype Heard<S> = Heard(
    inner: S,
    contexts: seq<BarContext>,
    answers: seq<Response<S>>,
    expired: seq<Order>,
    cancelled: seq<Order>,
    rejected: seq<Rejection>)

  /** The strategy that acts as the given one and writes everything down. */
  function Recording<S>(strategy: Strategy<S>): Strategy<Heard<S>> {
    Strategy(
      Heard(strategy.initial, [], [], [], [], []),
      (h: Heard<S>, context: BarContext) =>
        var answer := strategy.onBar(h.inner, context);
        Response(h.(inner := answer.state, contexts := h.contexts + [context], answers := h.answers + [answer]),
                 answer.requests, answer.cancels, answer.signals),
      (h: Heard<S>, o: Order) => h.(inner := strategy.onExpired(h.inner, o), expired := h.expired + [o]),
      (h: Heard<S>, o: Order) => h.(inner := strategy.onCancelled(h.inner, o), cancelled := h.cancelled + [o]),
      (h: Heard<S>, o: Order, reason: Reason) =>
        h.(inner := strategy.onRejected(h.inner, o, reason), rejected := h.rejected + [Rejection(o, reason)]))
  }

  function Recorded<S>(env: Env<S>): Env<Heard<S>> {
    Env(env.config, env.market, Recording(env.strategy))
  }

  /** The state as it would be without the writing. */
  function Strip<S>(st: State<Heard<S>>): State<S> {
    State(st.strategy.inner, st.account, st.pending, st.marks, st.trail, st.cancels, st.settled, st.log)
  }

  /** The recording state is the other one, and has heard of exactly the orders in the log. */
  predicate Mirrors<S(==)>(r: State<Heard<S>>, st: State<S>) {
    && Strip(r) == st
    && r.strategy.expired == st.log.expired && r.strategy.cancelled == st.log.cancelled && r.strategy.rejected == st.log.rejected
  }

  /** A phase changed nothing that has been written down about bars. */
  predicate SameBars<S(==)>(before: State<Heard<S>>, after: State<Heard<S>>) {
    before.strategy.contexts == after.strategy.contexts && before.strategy.answers == after.strategy.answers
  }

  // ---------- Phase by phase ----------

  lemma MarkMirrors<S>(tick: Tick, r: State<Heard<S>>, st: State<S>)
    requires Mirrors(r, st)
    ensures Mirrors(MarkPhase(tick, r), MarkPhase(tick, st)) && SameBars(r, MarkPhase(tick, r))
  {
  }

  lemma {:induction false} SettleMirrors<S>(config: Config, tick: Tick, r: State<Heard<S>>, st: State<S>, symbols: seq<Symbol>)
    requires Mirrors(r, st)
    ensures Mirrors(SettleAll(config, tick, r, symbols), SettleAll(config, tick, st, symbols))
    ensures SameBars(r, SettleAll(config, tick, r, symbols))
    decreases |symbols|
  {
    if symbols == [] {
    } else {
      SettleOneMirrors(config, tick, r, st, symbols[0]);
      hide SettleOne, Mirrors;
      SettleMirrors(config, tick, SettleOne(config, tick, r, symbols[0]), SettleOne(config, tick, st, symbols[0]), symbols[1..]);
    }
  }

  lemma SettleOneMirrors<S>(config: Config, tick: Tick, r: State<Heard<S>>, st: State<S>, symbol: Symbol)
    requires Mirrors(r, st)
    ensures Mirrors(SettleOne(config, tick, r, symbol), SettleOne(config, tick, st, symbol))
    ensures SameBars(r, SettleOne(config, tick, r, symbol))
  {
    hide ApplyFill, SettlementPrice, Get;
    assert Settles(config, tick, r, symbol) <==> Settles(config, tick, st, symbol);
    if Settles(config, tick, st, symbol) {
      assert SettlementFill(config, tick, r, symbol) == SettlementFill(config, tick, st, symbol);
    }
  }

  lemma {:induction false} HearsExpired<S>(strategy: Strategy<S>, h: Heard<S>, orders: seq<Order>)
    ensures Notify(Recording(strategy).onExpired, h, orders)
         == h.(inner := Notify(strategy.onExpired, h.inner, orders), expired := h.expired + orders)
    decreases |orders|
  {
    if orders == [] {
      assert h.expired + [] == h.expired;
    } else {
      var next := Recording(strategy).onExpired(h, orders[0]);
      HearsExpired(strategy, next, orders[1..]);
      assert h.expired + [orders[0]] + orders[1..] == h.expired + orders;
    }
  }

  lemma {:induction false} HearsCancelled<S>(strategy: Strategy<S>, h: Heard<S>, orders: seq<Order>)
    ensures Notify(Recording(strategy).onCancelled, h, orders)
         == h.(inner := Notify(strategy.onCancelled, h.inner, orders), cancelled := h.cancelled + orders)
    decreases |orders|
  {
    if orders == [] {
      assert h.cancelled + [] == h.cancelled;
    } else {
      var next := Recording(strategy).onCancelled(h, orders[0]);
      HearsCancelled(strategy, next, orders[1..]);
      assert h.cancelled + [orders[0]] + orders[1..] == h.cancelled + orders;
    }
  }

  lemma ExpireMirrors<S>(strategy: Strategy<S>, tick: Tick, r: State<Heard<S>>, st: State<S>)
    requires Mirrors(r, st)
    ensures Mirrors(ExpirePhase(Recording(strategy), tick, r), ExpirePhase(strategy, tick, st))
    ensures SameBars(r, ExpirePhase(Recording(strategy), tick, r))
  {
    hide Filter, Notify;
    HearsExpired(strategy, r.strategy, Filter(st.pending, Expiring(tick.barCount)));
  }

  lemma CancelMirrors<S>(strategy: Strategy<S>, r: State<Heard<S>>, st: State<S>)
    requires Mirrors(r, st)
    ensures Mirrors(CancelPhase(Recording(strategy), r), CancelPhase(strategy, st))
    ensures SameBars(r, CancelPhase(Recording(strategy), r))
  {
    hide Filter, Notify;
    HearsCancelled(strategy, r.strategy, Filter(st.pending, Cancelling(st.cancels)));
  }

  lemma FillOrderMirrors<S>(env: Env<S>, tick: Tick, r: State<Heard<S>>, st: State<S>, o: Order)
    requires Mirrors(r, st)
    ensures Mirrors(FillOrder(Recorded(env), tick, r, o), FillOrder(env, tick, st, o))
    ensures SameBars(r, FillOrder(Recorded(env), tick, r, o))
  {
    hide FillOrder, TryFill, Objection, ApplyFill, Touch;
    FillOutcome(Recorded(env), tick, r, o);
    FillOutcome(env, tick, st, o);
  }

  lemma {:induction false} FillsMirror<S>(env: Env<S>, tick: Tick, r: State<Heard<S>>, st: State<S>, orders: seq<Order>)
    requires Mirrors(r, st)
    ensures Mirrors(FillOrders(Recorded(env), tick, r, orders), FillOrders(env, tick, st, orders))
    ensures SameBars(r, FillOrders(Recorded(env), tick, r, orders))
    decreases |orders|
  {
    if orders == [] {
    } else {
      FillOrderMirrors(env, tick, r, st, orders[0]);
      hide FillOrder, Mirrors;
      FillsMirror(env, tick, FillOrder(Recorded(env), tick, r, orders[0]), FillOrder(env, tick, st, orders[0]), orders[1..]);
    }
  }

  lemma BeforeFillsMirror<S>(env: Env<S>, tick: Tick, r: State<Heard<S>>, st: State<S>)
    requires Mirrors(r, st)
    ensures Mirrors(BeforeFills(Recorded(env), tick, r), BeforeFills(env, tick, st))
    ensures SameBars(r, BeforeFills(Recorded(env), tick, r))
  {
    hide MarkPhase, SettleAll, ExpirePhase, CancelPhase, SymbolsOf;
    MarkMirrors(tick, r, st);
    var symbols := SymbolsOf(MarkPhase(tick, st).account.book);
    SettleMirrors(env.config, tick, MarkPhase(tick, r), MarkPhase(tick, st), symbols);
    var settled := SettlePhase(env.config, tick, MarkPhase(tick, st));
    var rSettled := SettlePhase(env.config, tick, MarkPhase(tick, r));
    ExpireMirrors(env.strategy, tick, rSettled, settled);
    CancelMirrors(env.strategy, ExpirePhase(Recording(env.strategy), tick, rSettled), ExpirePhase(env.strategy, tick, settled));
  }

  /** The strategy's own part of the bar: the context is written down with the answer to it. */
  lemma StrategyMirrors<S>(env: Env<S>, tick: Tick, r: State<Heard<S>>, st: State<S>)
    requires Mirrors(r, st)
    ensures var after := EquityPhase(tick, StrategyPhase(env, tick, st));
            var rAfter := EquityPhase(tick, StrategyPhase(Recorded(env), tick, r));
            var context := ContextOf(env, tick, st);
            && Mirrors(rAfter, after)
            && rAfter.strategy.contexts == r.strategy.contexts + [context]
            && rAfter.strategy.answers == r.strategy.answers + [env.strategy.onBar(st.strategy, context)]
  {
    hide Submit, MarkToMarket, History, OptionChain, OpenQuantities;
    assert ContextOf(Recorded(env), tick, r) == ContextOf(env, tick, st);
  }

  /** The state in which the strategy is called at a bar. */
  function Called<S>(env: Env<S>, k: nat): State<S>
    requires k < |Timeline(env.market)|
  {
    FillPhase(env, TickAt(env.market, k, Timeline(env.market)[k]), BeforeFills(env, TickAt(env.market, k, Timeline(env.market)[k]), Run(env, k)))
  }

  /** One more bar: the recording run mirrors it and has one more context and answer. */
  lemma BarMirrors<S>(env: Env<S>, k: nat)
    requires k < |Timeline(env.market)| && Mirrors(Run(Recorded(env), k), Run(env, k))
    ensures Mirrors(Run(Recorded(env), k + 1), Run(env, k + 1))
    ensures var context := ContextOf(env, TickAt(env.market, k, Timeline(env.market)[k]), Called(env, k));
            var before, after := Run(Recorded(env), k).strategy, Run(Recorded(env), k + 1).strategy;
            && after.contexts == before.contexts + [context]
            && after.answers == before.answers + [env.strategy.onBar(Called(env, k).strategy, context)]
  {
    hide Run, Timeline, BeforeFills, FillOrders, StrategyPhase, EquityPhase, Mirrors, ContextOf;
    var tick := TickAt(env.market, k, Timeline(env.market)[k]);
    RunNext(env, k);
    RunNext(Recorded(env), k);
    var before, rBefore := BeforeFills(env, tick, Run(env, k)), BeforeFills(Recorded(env), tick, Run(Recorded(env), k));
    BeforeFillsMirror(env, tick, Run(Recorded(env), k), Run(env, k));
    MirrorsPending(rBefore, before);
    FillsMirror(env, tick, rBefore.(pending := []), before.(pending := []), before.pending);
    StrategyMirrors(env, tick, FillPhase(Recorded(env), tick, rBefore), Called(env, k));
  }

  lemma MirrorsPending<S>(r: State<Heard<S>>, st: State<S>)
    requires Mirrors(r, st)
    ensures r.pending == st.pending && Mirrors(r.(pending := []), st.(pending := []))
  {
  }

  lemma MirrorsAtStart<S>(env: Env<S>)
    ensures Mirrors(Initial(Recorded(env)), Initial(env))
  {
  }

  /**
   Writing everything down does not disturb a run, and a strategy is told of exactly the
   orders that the run records as expired, cancelled and rejected, in that order and with
   the recorded reasons.
   */
  lemma {:induction false} HearsTheLog<S>(env: Env<S>, k: nat)
    requires k <= |Timeline(env.market)|
    ensures Strip(Run(Recorded(env), k)) == Run(env, k)
    ensures var h, log := Run(Recorded(env), k).strategy, Run(env, k).log;
            && h.expired == log.expired && h.cancelled == log.cancelled && h.rejected == log.rejected
            && |h.contexts| == |h.answers| == k
  {
    hide Run, Timeline, ContextOf, Called;
    if k == 0 {
      RunStarts(env);
      RunStarts(Recorded(env));
      MirrorsAtStart(env);
    } else {
      HearsTheLog(env, k - 1);
      BarMirrors(env, k - 1);
    }
  }

  // ---------- What a bar shows ----------

  predicate Shows(positions: seq<(Symbol, real)>, s: Symbol, quantity: real) {
    (s, quantity) in positions
  }

  lemma {:induction false} OpenQuantitiesShow(book: seq<Position>, s: Symbol, quantity: real)
    requires DistinctSymbols(book)
    ensures Shows(OpenQuantities(book), s, quantity) <==> quantity != 0.0 && Get(book, s).quantity == quantity
  {
    if book == [] {
    } else {
      OpenQuantitiesShow(book[1..], s, quantity);
      if book[0].symbol == s {
        NotTwice(book);
      }
    }
  }

  lemma NotTwice(book: seq<Position>)
    requires book != [] && DistinctSymbols(book)
    ensures Get(book[1..], book[0].symbol).quantity == 0.0
  {
    GetListed(book[1..], book[0].symbol);
    assert forall i :: 0 <= i < |book[1..]| ==> book[1..][i] == book[i + 1];
  }

  /** The strategy's response becomes the bar's orders, cancel requests and signals. */
  lemma CalledAnswers<S>(env: Env<S>, k: nat)
    requires k < |Timeline(env.market)|
    ensures var called, next := Called(env, k), Run(env, k + 1);
            var context := ContextOf(env, TickAt(env.market, k, Timeline(env.market)[k]), called);
            var answer := env.strategy.onBar(called.strategy, context);
            var orders := Submit(answer.requests, Timeline(env.market)[k], k, |called.log.submitted|);
            && next.account == called.account && next.log.fills == called.log.fills
            && next.pending == called.pending + orders && next.log.submitted == called.log.submitted + orders
            && next.cancels == answer.cancels && next.log.signals == called.log.signals + answer.signals
            && next.strategy == answer.state
  {
    hide Run, Timeline, FillPhase, BeforeFills, ContextOf, Submit, MarkToMarket;
    RunNext(env, k);
  }

  lemma CalledLogs<S>(env: Env<S>, k: nat)
    requires k < |Timeline(env.market)|
    ensures var called, prev := Called(env, k), Run(env, k);
            called.log.submitted == prev.log.submitted && called.log.signals == prev.log.signals
  {
    hide Run, Timeline, FillOrders, BeforeFills, Tried;
    var tick := TickAt(env.market, k, Timeline(env.market)[k]);
    var before := BeforeFills(env, tick, Run(env, k));
    BeforeFillsShape(env, tick, Run(env, k));
    OpeningKeepsSignals(env, tick, Run(env, k));
    FillsKeepSubmitted(env, tick, before.(pending := []), before.pending);
    FillsKeepSignals(env, tick, before.(pending := []), before.pending);
  }

  lemma OpeningKeepsSignals<S>(env: Env<S>, tick: Tick, st: State<S>)
    ensures BeforeFills(env, tick, st).log.signals == st.log.signals
  {
    hide SettleAll, SymbolsOf, Filter, Notify, MarkPhase;
    var marked := MarkPhase(tick, st);
    MarkKeepsLog(tick, st);
    SettleKeepsOrders(env.config, tick, marked, SymbolsOf(marked.account.book), 0);
  }

  lemma MarkKeepsLog<S>(tick: Tick, st: State<S>)
    ensures MarkPhase(tick, st).log == st.log
  {
  }

  lemma {:induction false} FillsKeepSignals<S>(env: Env<S>, tick: Tick, st: State<S>, orders: seq<Order>)
    ensures FillOrders(env, tick, st, orders).log.signals == st.log.signals
    decreases |orders|
  {
    hide FillOrder;
    if orders == [] {
    } else {
      FillOrderKeepsSignals(env, tick, st, orders[0]);
      FillsKeepSignals(env, tick, FillOrder(env, tick, st, orders[0]), orders[1..]);
    }
  }

  lemma FillOrderKeepsSignals<S>(env: Env<S>, tick: Tick, st: State<S>, o: Order)
    ensures FillOrder(env, tick, st, o).log.signals == st.log.signals
  {
    hide TryFill, Objection, ApplyFill, Touch;
  }

  /** A context shows the account, the history and the book as they are at bar k, after its fills. */
  ghost predicate ShowsBar<S>(env: Env<S>, k: nat, context: BarContext)
    requires k < |Timeline(env.market)|
  {
    var next, tl := Run(env, k + 1), Timeline(env.market);
    && context.ts == tl[k] && context.barCount == k && context.symbols == env.market.symbols
    && context.cash == env.config.startingCash + Sum(next.log.fills, FlowOf(env.config))
    && (forall s: Symbol, quantity: real ::
          Shows(context.positions, s, quantity) <==> quantity != 0.0 && quantity == Held(next.log.fills, s))
    && context.nextOrderId == |Run(env, k).log.submitted| <= |next.log.submitted|
    && next.pending == context.pending + next.log.submitted[context.nextOrderId..]
    && (forall s :: s in context.history <==> s in env.market.symbols)
    && (forall s :: s in context.history ==>
          && context.history[s] == Filter(Frame(env.market, s), StampedBy(tl[k]))
          && forall b :: b in context.history[s] <==> b in Frame(env.market, s) && b.ts <= tl[k])
    && (forall s :: s in context.optionChain <==>
          s in env.config.instrumentMeta && env.config.instrumentMeta[s].assetClass == "option")
    && (forall s :: s in context.optionChain ==> context.optionChain[s] == env.config.instrumentMeta[s])
  }

  lemma HistoryShows(m: Market, ts: int)
    ensures forall s :: s in History(m, ts) <==> s in m.symbols
    ensures forall s :: s in History(m, ts) ==>
              && History(m, ts)[s] == Filter(Frame(m, s), StampedBy(ts))
              && forall b :: b in History(m, ts)[s] <==> b in Frame(m, s) && b.ts <= ts
  {
    forall s | s in m.symbols ensures forall b :: b in Filter(Frame(m, s), StampedBy(ts)) <==> b in Frame(m, s) && b.ts <= ts {
      FilterMembers(Frame(m, s), StampedBy(ts));
    }
  }

  lemma ChainShows(config: Config)
    ensures forall s :: s in OptionChain(config) <==> s in config.instrumentMeta && config.instrumentMeta[s].assetClass == "option"
    ensures forall s :: s in OptionChain(config) ==> OptionChain(config)[s] == config.instrumentMeta[s]
  {
  }

  lemma ContextShows<S>(env: Env<S>, k: nat)
    requires k < |Timeline(env.market)|
    ensures ShowsBar(env, k, ContextOf(env, TickAt(env.market, k, Timeline(env.market)[k]), Called(env, k)))
  {
    hide Run, Timeline, Called, OpenQuantities, History, OptionChain, FlowOf, Held, Basis, Get, Submit, Sum, Filter, Shows, Frame;
    CalledAnswers(env, k);
    CalledLogs(env, k);
    RunInOrder(env, k + 1);
    var next, called := Run(env, k + 1), Called(env, k);
    HistoryShows(env.market, Timeline(env.market)[k]);
    ChainShows(env.config);
    forall s: Symbol, quantity: real
      ensures Shows(OpenQuantities(called.account.book), s, quantity) <==> quantity != 0.0 && quantity == Held(next.log.fills, s)
    {
      OpenQuantitiesShow(called.account.book, s, quantity);
      assert Agrees(env.config, next.log.fills, Get(next.account.book, s));
    }
  }

  /** The answer to a bar's context is what the bar submits, cancels and signals. */
  predicate Obeyed<S>(env: Env<S>, k: nat, answer: Response<S>)
    requires k < |Timeline(env.market)|
  {
    var prev, next := Run(env, k), Run(env, k + 1);
    && next.log.submitted == prev.log.submitted + Submit(answer.requests, Timeline(env.market)[k], k, |prev.log.submitted|)
    && next.cancels == answer.cancels
    && next.log.signals == prev.log.signals + answer.signals
  }

  /**
   What a strategy is shown. In any run the j-th context carries the j-th timestamp and bar
   number, the cash and the open signed quantities that the fills up to then have left, the
   rows of each traded symbol up to then, the option contracts of the configuration, and the
   orders still resting after the bar's fills; and the answer to it becomes the bar's orders,
   cancel requests and signals.
   */
  lemma {:induction false} HearsTheBars<S>(env: Env<S>, k: nat, j: nat)
    requires j < k <= |Timeline(env.market)|
    ensures var h := Run(Recorded(env), k).strategy;
            && |h.contexts| == |h.answers| == k
            && ShowsBar(env, j, h.contexts[j]) && Obeyed(env, j, h.answers[j])
  {
    hide Run, Timeline, ContextOf, Called, ShowsBar, Submit;
    HearsTheLog(env, k - 1);
    BarMirrors(env, k - 1);
    if j < k - 1 {
      HearsTheBars(env, k - 1, j);
    } else {
      ContextShows(env, j);
      CalledAnswers(env, j);
      CalledLogs(env, j);
    }
  }

  // ---------- The result ----------

  function SignalsOf<S>(answers: seq<Response<S>>): seq<SignalEvent> {
    if answers == [] then [] else SignalsOf(answers[..|answers| - 1]) + answers[|answers| - 1].signals
  }

  /** How many valid requests the answers make. */
  function RequestsOf<S>(answers: seq<Response<S>>): nat {
    if answers == [] then 0
    else RequestsOf(answers[..|answers| - 1]) + |Filter(answers[|answers| - 1].requests, IsValid())|
  }

  lemma AnswersSnoc<S>(answers: seq<Response<S>>, last: Response<S>)
    ensures SignalsOf(answers + [last]) == SignalsOf(answers) + last.signals
    ensures RequestsOf(answers + [last]) == RequestsOf(answers) + |Filter(last.requests, IsValid())|
  {
    hide Filter;
    assert (answers + [last])[..|answers|] == answers;
  }

  /** A run's signals are those of all answers, and it has submitted one order for each valid request. */
  lemma {:induction false} AnswersAddUp<S>(env: Env<S>, k: nat)
    requires k <= |Timeline(env.market)|
    ensures var answers, log := Run(Recorded(env), k).strategy.answers, Run(env, k).log;
            log.signals == SignalsOf(answers) && |log.submitted| == RequestsOf(answers)
  {
    hide Run, Timeline, ContextOf, Called, Submit, SignalsOf, RequestsOf, Filter;
    if k == 0 {
      RunStarts(env);
      RunStarts(Recorded(env));
      NoAnswers<S>();
    } else {
      AnswersAddUp(env, k - 1);
      HearsTheLog(env, k - 1);
      BarMirrors(env, k - 1);
      CalledAnswers(env, k - 1);
      CalledLogs(env, k - 1);
      var before, after := Run(Recorded(env), k - 1).strategy.answers, Run(Recorded(env), k).strategy.answers;
      AnswersSnoc(before, after[k - 1]);
      assert after == before + [after[k - 1]];
      SubmitsEachValid(after[k - 1].requests, Timeline(env.market)[k - 1], k - 1, |Run(env, k - 1).log.submitted|);
    }
  }

  lemma NoAnswers<S>()
    ensures SignalsOf<S>([]) == [] && RequestsOf<S>([]) == 0
  {
  }

  lemma {:induction false} CurveStamps<S>(env: Env<S>, n: nat)
    requires n <= |Timeline(env.market)|
    ensures |Run(env, n).log.equity| == n
    ensures forall j :: 0 <= j < n ==> Run(env, n).log.equity[j].ts == Timeline(env.market)[j]
    ensures n > 0 ==> Run(env, n).log.equity[n - 1].cash == Run(env, n).account.cash
  {
    hide Run, Timeline, MarkToMarket;
    if n == 0 {
      RunStarts(env);
    } else {
      forall j | 0 <= j < n ensures |Run(env, n).log.equity| == n && Run(env, n).log.equity[j].ts == Timeline(env.market)[j] {
        EquityPointOfBar(env, n, j);
      }
      EquityPointOfBar(env, n, n - 1);
    }
  }

  /**
   What a backtest returns: the cash and the positions that its fills leave, one equity point
   for each timestamp, the last one with the final cash, the orders that the strategy was told
   had expired, been cancelled or been rejected, its final state, the signals of all its
   answers, and the number of its valid requests.
   */
  lemma ResultReports<S>(env: Env<S>)
    requires Backtest(env).Ok?
    ensures Backtest(Recorded(env)).Ok?
    ensures var r, h := Backtest(env).value, Backtest(Recorded(env)).value.strategyState;
            var tl := Timeline(env.market);
            && r.config == env.config
            && r.finalCash == env.config.startingCash + Sum(r.fills, FlowOf(env.config))
            && (forall s: Symbol :: Get(r.finalPositions, s).quantity == Held(r.fills, s))
            && |r.equityCurve| == |tl| && (forall j :: 0 <= j < |tl| ==> r.equityCurve[j].ts == tl[j])
            && (tl != [] ==> r.equityCurve[|tl| - 1].cash == r.finalCash)
            && r.expired == h.expired && r.cancelled == h.cancelled && r.rejected == h.rejected
            && r.strategyState == h.inner
            && r.signals == SignalsOf(h.answers) && r.ordersSubmitted == RequestsOf(h.answers)
  {
    hide Run, Timeline, FlowOf, Held, Basis, Get, Sum, SignalsOf, RequestsOf, ValidateInputs;
    var n := |Timeline(env.market)|;
    RunInOrder(env, n);
    CurveStamps(env, n);
    HearsTheLog(env, n);
    AnswersAddUp(env, n);
    forall s: Symbol ensures Get(Run(env, n).account.book, s).quantity == Held(Run(env, n).log.fills, s) {
      assert Agrees(env.config, Run(env, n).log.fills, Get(Run(env, n).account.book, s));
    }
  }
}
