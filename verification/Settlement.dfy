/**
 Option settlement: what an expiring option is worth, which open positions a bar closes, and
 that no symbol is settled twice.
 */
module Settlement {
  import opened Prelude
  import opened Types
  import opened Fills
  import opened Accounts
  import opened Timelines
  import opened Engine

  /** The metas of a call and a put on one underlying at one strike. */
  predicate CallAndPut(call: InstrumentMeta, put: InstrumentMeta) {
    && call.underlying.Some? && call.underlying.value != "" && call.strike.Some?
    && put.underlying == call.underlying && put.strike == call.strike
    && (call.right == Some("C") || call.right == Some("c"))
    && put.right.Some? && put.right.value != "" && put.right.value != "C" && put.right.value != "c"
  }

  /**
   Settlement is at intrinsic value: with the underlying's mark known, neither side is worth
   less than nothing, at most one is worth anything, and call less put is mark less strike.
   */
  lemma SettlementParity(call: InstrumentMeta, put: InstrumentMeta, c: Symbol, p: Symbol, marks: map<Symbol, real>)
    requires CallAndPut(call, put) && call.underlying.value in marks
    ensures var cv, pv := SettlementPrice(call, c, marks), SettlementPrice(put, p, marks);
            && cv >= 0.0 && pv >= 0.0 && (cv == 0.0 || pv == 0.0)
            && cv - pv == marks[call.underlying.value] - call.strike.value
  {
  }

  // ---------- What a bar settles ----------

  lemma SettleOneEffect<S>(config: Config, tick: Tick, st: State<S>, symbol: Symbol, s: Symbol)
    ensures var after := SettleOne(config, tick, st, symbol);
            var hit := s == symbol && Settles(config, tick, st, s);
            && Get(after.account.book, s).quantity == (if hit then 0.0 else Get(st.account.book, s).quantity)
            && (s in after.settled <==> s in st.settled || hit)
  {
    if Settles(config, tick, st, symbol) {
      var f := SettlementFill(config, tick, st, symbol);
      var m := Get(st.account.book, symbol).multiplier;
      AppliedShape(st.account, symbol, Sell, f.quantity, f.price, f.fee, m);
      GetPut(st.account.book, ApplyToPosition(Get(st.account.book, symbol), -f.quantity, f.price, f.fee, m), s);
    }
  }

  /** Settling a list of symbols closes exactly the listed positions that are due and not settled before. */
  lemma {:induction false} SettleAllEffect<S>(config: Config, tick: Tick, st: State<S>, symbols: seq<Symbol>, s: Symbol)
    ensures var after := SettleAll(config, tick, st, symbols);
            var hit := s in symbols && Settles(config, tick, st, s);
            && Get(after.account.book, s).quantity == (if hit then 0.0 else Get(st.account.book, s).quantity)
            && (s in after.settled <==> s in st.settled || hit)
    decreases |symbols|
  {
    hide SettleOne, Get;
    if symbols == [] {
    } else {
      SettleOneEffect(config, tick, st, symbols[0], s);
      SettleAllEffect(config, tick, SettleOne(config, tick, st, symbols[0]), symbols[1..], s);
    }
  }

  lemma {:induction false} OpenIsListed(book: seq<Position>, s: Symbol)
    requires Get(book, s).quantity != 0.0
    ensures s in SymbolsOf(book)
  {
    if book[0].symbol != s {
      OpenIsListed(book[1..], s);
    }
  }

  /**
   The settlement phase closes every open option position that is due, and touches no other,
   except that a symbol settled once is never settled again.
   */
  lemma SettlementCloses<S>(config: Config, tick: Tick, st: State<S>, s: Symbol)
    ensures Get(SettlePhase(config, tick, st).account.book, s).quantity
         == if Settles(config, tick, st, s) then 0.0 else Get(st.account.book, s).quantity
  {
    SettleAllEffect(config, tick, st, SymbolsOf(st.account.book), s);
    if Get(st.account.book, s).quantity != 0.0 {
      OpenIsListed(st.account.book, s);
    }
  }

  /** An expired option position survives the settlement phase if and only if it was opened after an earlier settlement. */
  lemma ExpiredStaysOpenIff<S>(config: Config, tick: Tick, st: State<S>, s: Symbol)
    requires OptionExpired(config, s, tick.ts)
    ensures Get(SettlePhase(config, tick, st).account.book, s).quantity != 0.0
            <==> Get(st.account.book, s).quantity != 0.0 && s in st.settled
  {
    hide Get, OptionExpired, SettlePhase;
    SettlementCloses(config, tick, st, s);
  }

  // ---------- Runs ----------

  /** Settlement fills are of settled symbols, one for each. */
  predicate SettledOnce(fills: seq<Fill>, settled: set<Symbol>) {
    && (forall i :: 0 <= i < |fills| && fills[i].id.Expiry? ==>
          fills[i].id.symbol == fills[i].symbol && fills[i].symbol in settled)
    && (forall i, j :: 0 <= i < j < |fills| && fills[i].id.Expiry? && fills[j].id.Expiry? ==> fills[i].symbol != fills[j].symbol)
  }

  lemma {:induction false} SettlingOnce<S>(config: Config, tick: Tick, st: State<S>, symbols: seq<Symbol>)
    requires SettledOnce(st.log.fills, st.settled)
    ensures var after := SettleAll(config, tick, st, symbols); SettledOnce(after.log.fills, after.settled)
    decreases |symbols|
  {
    hide ApplyFill, Get, OptionExpired, SettlementPrice;
    if symbols == [] {
    } else {
      SettlingOnce(config, tick, SettleOne(config, tick, st, symbols[0]), symbols[1..]);
    }
  }

  lemma {:induction false} FillsKeepSettled<S>(env: Env<S>, tick: Tick, st: State<S>, orders: seq<Order>)
    requires SettledOnce(st.log.fills, st.settled)
    ensures var after := FillOrders(env, tick, st, orders); SettledOnce(after.log.fills, after.settled)
    decreases |orders|
  {
    if orders == [] {
    } else {
      FillKeepsSettled(env, tick, st, orders[0]);
      hide FillOrder, SettledOnce;
      FillsKeepSettled(env, tick, FillOrder(env, tick, st, orders[0]), orders[1..]);
    }
  }

  lemma FillKeepsSettled<S>(env: Env<S>, tick: Tick, st: State<S>, o: Order)
    requires SettledOnce(st.log.fills, st.settled)
    ensures var after := FillOrder(env, tick, st, o); SettledOnce(after.log.fills, after.settled)
  {
    hide TryFill, Objection, ApplyFill, Touch, FillOrder;
    FillOutcome(env, tick, st, o);
    if o.symbol in tick.bars && TryFill(o, tick.bars[o.symbol], env.config, st.trail).0.Some? {
      FillNamesOrder(o, tick.bars[o.symbol], env.config, st.trail);
    }
  }

  lemma StepSettlesOnce<S>(env: Env<S>, tick: Tick, st: State<S>)
    requires SettledOnce(st.log.fills, st.settled)
    ensures var after := Step(env, tick, st); SettledOnce(after.log.fills, after.settled)
  {
    hide SettleAll, FillOrders, SettledOnce, ContextOf, MarkToMarket, Submit;
    var marked := MarkPhase(tick, st);
    SettlingOnce(env.config, tick, marked, SymbolsOf(marked.account.book));
    var before := BeforeFills(env, tick, st);
    FillsKeepSettled(env, tick, before.(pending := []), before.pending);
  }

  /** Over any run no option is settled twice, and a settlement fill is always of the symbol it names. */
  lemma {:induction false} SettledAtMostOnce<S>(env: Env<S>, k: nat)
    requires k <= |Timeline(env.market)|
    ensures SettledOnce(Run(env, k).log.fills, Run(env, k).settled)
  {
    hide Step;
    if k == 0 {
    } else {
      SettledAtMostOnce(env, k - 1);
      StepSettlesOnce(env, TickAt(env.market, k - 1, Timeline(env.market)[k - 1]), Run(env, k - 1));
    }
  }
}
