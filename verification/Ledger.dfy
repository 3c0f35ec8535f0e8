/**
 Conservation of money over runs. The account is at all times what its fills make it:
 cash, positions, and realized P&L with the cost of what is held tell the same story.
 */
module Ledger {
  import opened Prelude
  import opened Types
  import opened Fills
  import opened Accounts
  import opened Timelines
  import opened Engine
  import opened Causality

  // ---------- What a list of fills amounts to ----------

  function FlowOf(config: Config): Fill -> real {
    (f: Fill) => -Notional(SignedQuantity(f), f.price, config.MultiplierFor(f.symbol)) - f.fee
  }

  function SignedFor(symbol: Symbol): Fill -> real {
    (f: Fill) => if f.symbol == symbol then SignedQuantity(f) else 0.0
  }

  /** The signed quantity that fills leave in a symbol. */
  function Held(fills: seq<Fill>, symbol: Symbol): real {
    Sum(fills, SignedFor(symbol))
  }

  /** The fees of fills that opened a position or added to one. */
  function EntryFees(fills: seq<Fill>): real {
    if fills == [] then 0.0
    else
      var n := |fills| - 1;
      var f := fills[n];
      EntryFees(fills[..n]) + (if Reduces(Held(fills[..n], f.symbol), SignedQuantity(f)) then 0.0 else f.fee)
  }

  /** The fees of a symbol's fills that reduced, closed or flipped a position. */
  function ExitFees(fills: seq<Fill>, symbol: Symbol): real {
    if fills == [] then 0.0
    else
      var n := |fills| - 1;
      var f := fills[n];
      ExitFees(fills[..n], symbol)
      + (if f.symbol == symbol && Reduces(Held(fills[..n], symbol), SignedQuantity(f)) then f.fee else 0.0)
  }

  /** Sells minus buys of a symbol at a contract multiplier. */
  function ProceedsFor(symbol: Symbol, m: real): Fill -> real {
    (f: Fill) => if f.symbol == symbol then -Notional(SignedQuantity(f), f.price, m) else 0.0
  }

  /** Proceeds scale with the multiplier. */
  lemma {:induction false} ProceedsScale(fills: seq<Fill>, symbol: Symbol, m: real)
    ensures Sum(fills, ProceedsFor(symbol, m)) == m * Sum(fills, ProceedsFor(symbol, 1.0))
  {
    if fills == [] {
    } else {
      ProceedsScale(fills[1..], symbol, m);
      var f := fills[0];
      var one, rest := ProceedsFor(symbol, 1.0)(f), Sum(fills[1..], ProceedsFor(symbol, 1.0));
      assert ProceedsFor(symbol, m)(f) == m * one by {
        ScaledNotional(SignedQuantity(f), f.price, m);
      }
      assert m * (one + rest) == m * one + m * rest;
    }
  }

  lemma ScaledNotional(quantity: real, price: real, m: real)
    ensures -Notional(quantity, price, m) == m * -Notional(quantity, price, 1.0)
  {
    assert m * -(quantity * price * 1.0) == -(quantity * price * m);
  }

  function BasisOf(): Position -> real {
    (p: Position) => Basis(p)
  }

  // ---------- The ledger invariant ----------

  /** One symbol's position agrees with the fills: quantity, multiplier and basis. */
  ghost predicate Agrees(config: Config, fills: seq<Fill>, p: Position) {
    && p.quantity == Held(fills, p.symbol)
    && Carries(p, config.MultiplierFor(p.symbol))
    && Basis(p) == Sum(fills, ProceedsFor(p.symbol, config.MultiplierFor(p.symbol))) - ExitFees(fills, p.symbol)
  }

  ghost predicate Reconciled(config: Config, a: Account, fills: seq<Fill>) {
    && DistinctSymbols(a.book)
    && (forall s: Symbol :: Agrees(config, fills, Get(a.book, s)))
    && a.cash == config.startingCash + Sum(fills, FlowOf(config))
    && a.cash == config.startingCash + Sum(a.book, BasisOf()) - EntryFees(fills)
  }

  lemma FillAgrees(config: Config, fills: seq<Fill>, p: Position, f: Fill)
    requires Agrees(config, fills, p) && f.symbol == p.symbol
    ensures var m := config.MultiplierFor(f.symbol);
            var q := ApplyToPosition(p, SignedQuantity(f), f.price, f.fee, m);
            && Agrees(config, fills + [f], q)
            && Basis(q) == Basis(p) - Notional(SignedQuantity(f), f.price, m)
                           - (if Reduces(p.quantity, SignedQuantity(f)) then f.fee else 0.0)
  {
    var m := config.MultiplierFor(f.symbol);
    FillMovesBasis(p, SignedQuantity(f), f.price, f.fee, m);
    SumSnoc(fills, f, SignedFor(f.symbol));
    SumSnoc(fills, f, ProceedsFor(f.symbol, m));
    assert (fills + [f])[..|fills|] == fills;
  }

  lemma OtherFillAgrees(config: Config, fills: seq<Fill>, p: Position, f: Fill)
    requires Agrees(config, fills, p) && f.symbol != p.symbol
    ensures Agrees(config, fills + [f], p)
  {
    SumSnoc(fills, f, SignedFor(p.symbol));
    SumSnoc(fills, f, ProceedsFor(p.symbol, config.MultiplierFor(p.symbol)));
    assert (fills + [f])[..|fills|] == fills;
  }

  /** Applying a fill at its symbol's multiplier and logging it keeps account and fills reconciled. */
  lemma FillReconciles(config: Config, a: Account, fills: seq<Fill>, f: Fill)
    requires Reconciled(config, a, fills)
    ensures Reconciled(config,
              ApplyFill(a, f.symbol, f.side, f.quantity, f.price, f.fee, config.MultiplierFor(f.symbol)), fills + [f])
  {
    var m := config.MultiplierFor(f.symbol);
    var p := Get(a.book, f.symbol);
    var q := ApplyToPosition(p, SignedQuantity(f), f.price, f.fee, m);
    FillAgrees(config, fills, p, f);
    AppliedShape(a, f.symbol, f.side, f.quantity, f.price, f.fee, m);
    PutDistinct(a.book, q);
    forall s: Symbol ensures Agrees(config, fills + [f], Get(Put(a.book, q), s)) {
      GetPut(a.book, q, s);
      if s != f.symbol {
        assert Agrees(config, fills, Get(a.book, s));
        OtherFillAgrees(config, fills, Get(a.book, s), f);
      }
    }
    SumSnoc(fills, f, FlowOf(config));
    ZeroBasis(f.symbol);
    SumPut(a.book, q, BasisOf());
    assert (fills + [f])[..|fills|] == fills;
  }

  lemma ZeroBasis(symbol: Symbol)
    ensures Basis(ZeroPosition(symbol)) == 0.0
  {
  }

  lemma TouchReconciles(config: Config, a: Account, fills: seq<Fill>, symbol: Symbol)
    requires Reconciled(config, a, fills)
    ensures Reconciled(config, Touch(a, symbol), fills)
  {
    var p := Get(a.book, symbol);
    PutDistinct(a.book, p);
    forall s: Symbol ensures Get(Put(a.book, p), s) == Get(a.book, s) {
      GetPut(a.book, p, s);
    }
    ZeroBasis(symbol);
    SumPut(a.book, p, BasisOf());
  }

  // ---------- Runs stay reconciled ----------

  /** Every open position has a mark. */
  ghost predicate Marked(book: seq<Position>, marks: map<Symbol, real>) {
    forall s: Symbol :: Get(book, s).quantity != 0.0 ==> s in marks
  }

  ghost predicate InOrder<S>(config: Config, st: State<S>) {
    Reconciled(config, st.account, st.log.fills) && Marked(st.account.book, st.marks)
  }

  lemma AppliedMarked(a: Account, marks: map<Symbol, real>, symbol: Symbol, side: Side, quantity: real, price: real,
                      fee: real, m: real)
    requires Marked(a.book, marks)
    requires symbol in marks
    ensures Marked(ApplyFill(a, symbol, side, quantity, price, fee, m).book, marks)
  {
    AppliedShape(a, symbol, side, quantity, price, fee, m);
    var q := ApplyToPosition(Get(a.book, symbol), Signed(side, quantity), price, fee, m);
    forall s: Symbol ensures Get(Put(a.book, q), s).quantity != 0.0 ==> s in marks {
      GetPut(a.book, q, s);
    }
  }

  lemma SettleOneInOrder<S>(config: Config, tick: Tick, st: State<S>, symbol: Symbol)
    requires InOrder(config, st)
    ensures InOrder(config, SettleOne(config, tick, st, symbol))
  {
    if Settles(config, tick, st, symbol) {
      var f := SettlementFill(config, tick, st, symbol);
      assert Agrees(config, st.log.fills, Get(st.account.book, symbol));
      FillReconciles(config, st.account, st.log.fills, f);
      AppliedMarked(st.account, st.marks, symbol, Sell, f.quantity, f.price, f.fee, config.MultiplierFor(symbol));
    }
  }

  lemma {:induction false} SettleInOrder<S>(config: Config, tick: Tick, st: State<S>, symbols: seq<Symbol>)
    requires InOrder(config, st)
    ensures var after := SettleAll(config, tick, st, symbols);
            InOrder(config, after) && after.marks == st.marks
    decreases |symbols|
  {
    hide SettleOne, InOrder;
    if symbols == [] {
    } else {
      SettleOneInOrder(config, tick, st, symbols[0]);
      SettleOneKeepsMarks(config, tick, st, symbols[0]);
      SettleInOrder(config, tick, SettleOne(config, tick, st, symbols[0]), symbols[1..]);
    }
  }

  lemma SettleOneKeepsMarks<S>(config: Config, tick: Tick, st: State<S>, symbol: Symbol)
    ensures SettleOne(config, tick, st, symbol).marks == st.marks
  {
  }

  lemma FillOrderInOrder<S>(env: Env<S>, tick: Tick, st: State<S>, o: Order)
    requires InOrder(env.config, st) && tick.bars.Keys <= st.marks.Keys
    ensures var after := FillOrder(env, tick, st, o);
            InOrder(env.config, after) && after.marks == st.marks
  {
    hide Objection, Reconciled, Marked, ApplyFill, Touch, TryFill, FillOrder;
    FillOutcome(env, tick, st, o);
    if o.symbol in tick.bars {
      assert o.symbol in st.marks;
      var touched := Touch(st.account, o.symbol);
      TouchReconciles(env.config, st.account, st.log.fills, o.symbol);
      TouchMarked(st.account, st.marks, o.symbol);
      var execution := TryFill(o, tick.bars[o.symbol], env.config, st.trail).0;
      if execution.Some? {
        var f := execution.value.fill;
        FillNamesOrder(o, tick.bars[o.symbol], env.config, st.trail);
        FillReconciles(env.config, touched, st.log.fills, f);
        AppliedMarked(touched, st.marks, f.symbol, f.side, f.quantity, f.price, f.fee, env.config.MultiplierFor(f.symbol));
      }
    }
  }

  lemma TouchMarked(a: Account, marks: map<Symbol, real>, symbol: Symbol)
    requires Marked(a.book, marks)
    ensures Marked(Touch(a, symbol).book, marks)
  {
    forall s: Symbol ensures Get(Touch(a, symbol).book, s) == Get(a.book, s) {
      GetPut(a.book, Get(a.book, symbol), s);
    }
  }

  lemma {:induction false} FillsInOrder<S>(env: Env<S>, tick: Tick, st: State<S>, orders: seq<Order>)
    requires InOrder(env.config, st) && tick.bars.Keys <= st.marks.Keys
    ensures var after := FillOrders(env, tick, st, orders);
            InOrder(env.config, after) && after.marks == st.marks
    decreases |orders|
  {
    hide FillOrder, InOrder;
    if orders == [] {
    } else {
      FillOrderInOrder(env, tick, st, orders[0]);
      FillsInOrder(env, tick, FillOrder(env, tick, st, orders[0]), orders[1..]);
    }
  }

  lemma BeforeFillsInOrder<S>(env: Env<S>, tick: Tick, st: State<S>)
    requires InOrder(env.config, st)
    ensures var before := BeforeFills(env, tick, st);
            InOrder(env.config, before) && tick.bars.Keys <= before.marks.Keys
  {
    hide SettleAll, Reconciled;
    var marked := MarkPhase(tick, st);
    SettleInOrder(env.config, tick, marked, SymbolsOf(marked.account.book));
  }

  lemma StepInOrder<S>(env: Env<S>, tick: Tick, st: State<S>)
    requires InOrder(env.config, st)
    ensures InOrder(env.config, Step(env, tick, st))
  {
    hide BeforeFills, FillOrders, Reconciled, Marked;
    BeforeFillsInOrder(env, tick, st);
    var before := BeforeFills(env, tick, st);
    FillsInOrder(env, tick, before.(pending := []), before.pending);
  }

  lemma InitialInOrder<S>(env: Env<S>)
    ensures InOrder(env.config, Initial(env))
  {
    forall s: Symbol ensures Agrees(env.config, [], Get([], s)) {
      ZeroBasis(s);
    }
  }

  lemma {:induction false} RunInOrder<S>(env: Env<S>, k: nat)
    requires k <= |Timeline(env.market)|
    ensures InOrder(env.config, Run(env, k))
  {
    hide Step, InOrder, Run, Timeline;
    if k == 0 {
      RunStarts(env);
      InitialInOrder(env);
    } else {
      RunInOrder(env, k - 1);
      RunNext(env, k - 1);
      StepInOrder(env, TickAt(env.market, k - 1, Timeline(env.market)[k - 1]), Run(env, k - 1));
    }
  }

  /**
   The account is what its fills make it. In every reachable state: cash is the starting
   cash plus the cash flow of the fills; each symbol's quantity is the signed sum of its
   fills; and realized P&L less the cost still held is that symbol's sells minus buys at
   its multiplier, less the fees of its reducing fills.
   */
  lemma AccountReconciles<S>(env: Env<S>, k: nat, s: Symbol)
    requires k <= |Timeline(env.market)|
    ensures var st := Run(env, k);
            var p := Get(st.account.book, s);
            && st.account.cash == env.config.startingCash + Sum(st.log.fills, FlowOf(env.config))
            && p.quantity == Held(st.log.fills, s)
            && Basis(p) == Sum(st.log.fills, ProceedsFor(s, env.config.MultiplierFor(s))) - ExitFees(st.log.fills, s)
  {
    hide Run, FlowOf, ProceedsFor, Basis, ExitFees, Held;
    RunInOrder(env, k);
    assert Agrees(env.config, Run(env, k).log.fills, Get(Run(env, k).account.book, s));
  }

  // ---------- Equity ----------

  /** Realized plus unrealized P&L of a position. */
  function ProfitAt(marks: map<Symbol, real>, p: Position): real {
    p.realizedPnl
    + (if p.symbol in marks then Notional(p.quantity, marks[p.symbol] - p.avgCost, p.multiplier) else 0.0)
  }

  function Profit(marks: map<Symbol, real>): Position -> real {
    (p: Position) => ProfitAt(marks, p)
  }

  lemma ProfitIsBasisPlusValue(marks: map<Symbol, real>, p: Position)
    requires p.quantity != 0.0 ==> p.symbol in marks
    ensures Basis(p) + ValueAt(marks, p) == ProfitAt(marks, p)
  {
    if p.quantity != 0.0 {
      var q, m, cost, mark := p.quantity, p.multiplier, p.avgCost, marks[p.symbol];
      assert q * (mark - cost) * m == q * mark * m - q * cost * m;
    } else {
      assert Notional(0.0, p.avgCost, p.multiplier) == 0.0;
      if p.symbol in marks {
        assert Notional(0.0, marks[p.symbol] - p.avgCost, p.multiplier) == 0.0;
      }
    }
  }

  lemma EquityFromProfit(config: Config, a: Account, marks: map<Symbol, real>, fills: seq<Fill>)
    requires Reconciled(config, a, fills) && Marked(a.book, marks)
    ensures Equity(a, marks) == config.startingCash + Sum(a.book, Profit(marks)) - EntryFees(fills)
  {
    forall p | p in a.book ensures BasisOf()(p) + MarketValue(marks)(p) == Profit(marks)(p) {
      GetIsEntry(a.book, p);
      assert Get(a.book, p.symbol).quantity != 0.0 ==> p.symbol in marks;
      ProfitIsBasisPlusValue(marks, p);
    }
    SumAdd(a.book, BasisOf(), MarketValue(marks), Profit(marks));
  }

  /** Equity point j of any longer run is the one recorded by bar j, from the state it leaves. */
  lemma {:induction false} EquityPointOfBar<S>(env: Env<S>, n: nat, j: nat)
    requires j < n <= |Timeline(env.market)|
    ensures |Run(env, n).log.equity| == n
    ensures var st := Run(env, j + 1);
            Run(env, n).log.equity[j]
            == EquityPoint(Timeline(env.market)[j], st.account.cash, MarkToMarket(st.account.book, st.marks),
                           Equity(st.account, st.marks))
  {
    hide Step, Run, Timeline, MarkToMarket;
    var tick := TickAt(env.market, n - 1, Timeline(env.market)[n - 1]);
    StepRecords(env, tick, Run(env, n - 1));
    RunNext(env, n - 1);
    if j < n - 1 {
      EquityPointOfBar(env, n - 1, j);
    } else if n > 1 {
      EquityPointOfBar(env, n - 1, n - 2);
    } else {
      RunStarts(env);
    }
  }

  lemma StepRecords<S>(env: Env<S>, tick: Tick, prev: State<S>)
    ensures var next := Step(env, tick, prev);
            next.log.equity == prev.log.equity
              + [EquityPoint(tick.ts, next.account.cash, MarkToMarket(next.account.book, next.marks),
                             Equity(next.account, next.marks))]
  {
    hide SettleAll, FillOrders;
    var marked := MarkPhase(tick, prev);
    SettleKeepsEquity(env.config, tick, marked, SymbolsOf(marked.account.book));
    var before := BeforeFills(env, tick, prev);
    FillsKeepEquity(env, tick, before.(pending := []), before.pending);
  }

  /**
   Equity decomposition. At every point of the equity curve of every run, total equity is
   the starting cash, plus each position's realized and unrealized P&L, minus the fees of
   the fills that opened or added to positions. Option settlements are included.
   */
  lemma EquityDecomposes<S>(env: Env<S>, n: nat, j: nat)
    requires j < n <= |Timeline(env.market)|
    ensures j < |Run(env, n).log.equity|
    ensures var st := Run(env, j + 1);
            Run(env, n).log.equity[j].totalEquity
            == env.config.startingCash + Sum(st.account.book, Profit(st.marks)) - EntryFees(st.log.fills)
  {
    hide Run;
    EquityPointOfBar(env, n, j);
    RunInOrder(env, j + 1);
    EquityFromProfit(env.config, Run(env, j + 1).account, Run(env, j + 1).marks, Run(env, j + 1).log.fills);
  }
}
