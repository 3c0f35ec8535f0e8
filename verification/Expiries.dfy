/**
 Settlements of expired options over whole runs: which fills settle, on which day, how much
 and at what price, in terms of the fills before them and the closes of the bars.
 */
module Expiries {
  import opened Prelude
  import opened Types
  import opened Fills
  import opened Accounts
  import opened Timelines
  import opened Engine
  import opened Lifecycle
  import opened Ledger
  import opened Margin
  import opened Settlement
  import opened Marks

  /** The contract names an underlying, a strike and a right. */
  predicate NamesIntrinsic(meta: InstrumentMeta) {
    && meta.underlying.Some? && meta.underlying.value != "" && meta.strike.Some?
    && meta.right.Some? && meta.right.value != ""
  }

  /**
   The price a settlement must have: intrinsic value at the underlying's last close if the
   contract names one and it has one, else the option's own last close, else nothing.
   */
  predicate FairPrice(meta: InstrumentMeta, own: Option<real>, underlying: Option<real>, price: real) {
    if NamesIntrinsic(meta) && underlying.Some? then
      var u, strike := underlying.value, meta.strike.value;
      if meta.right.value == "C" || meta.right.value == "c"
      then price == if u > strike then u - strike else 0.0
      else price == if u < strike then strike - u else 0.0
    else price == if own.Some? then own.value else 0.0
  }

  function UnderlyingClose(meta: InstrumentMeta, m: Market, tl: seq<int>, k: nat): Option<real>
    requires k <= |tl|
  {
    if meta.underlying.Some? then LastClose(m, tl, meta.underlying.value, k) else None
  }

  /** Fill i of a log settles, at bar b, exactly what the fills before it left of an option that has expired by then. */
  predicate SettledFairly(config: Config, m: Market, tl: seq<int>, b: nat, fills: seq<Fill>, i: nat)
    requires b < |tl| && i < |fills|
  {
    var f := fills[i];
    && f.id == Expiry(f.symbol, b) && f.side == Sell && f.orderType == MARKET && f.fee == 0.0 && !f.isPartial && f.tags == []
    && f.filledTs == f.submittedTs == tl[b]
    && f.quantity == Held(fills[..i], f.symbol) != 0.0
    && f.symbol in config.instrumentMeta
    && var meta := config.instrumentMeta[f.symbol];
       && meta.assetClass == "option" && meta.expiry.Some? && meta.expiry.value * 86400 <= tl[b]
       && FairPrice(meta, LastClose(m, tl, f.symbol, b + 1), UnderlyingClose(meta, m, tl, b + 1), f.price)
  }

  lemma FairStays(config: Config, m: Market, tl: seq<int>, b: nat, before: seq<Fill>, after: seq<Fill>, i: nat)
    requires b < |tl| && i < |before| && before <= after && SettledFairly(config, m, tl, b, before, i)
    ensures SettledFairly(config, m, tl, b, after, i)
  {
    hide FairPrice, Held, LastClose, UnderlyingClose;
    assert after[..i] == before[..i];
  }

  lemma DueDay(day: int, ts: int)
    requires DateOf(ts) >= day
    ensures day * 86400 <= ts
  {
  }

  lemma PriceIsFair(meta: InstrumentMeta, m: Market, tl: seq<int>, k: nat, s: Symbol, marks: map<Symbol, real>)
    requires k <= |tl| && forall t: Symbol :: MarkOf(marks, t) == LastClose(m, tl, t, k)
    ensures FairPrice(meta, LastClose(m, tl, s, k), UnderlyingClose(meta, m, tl, k), SettlementPrice(meta, s, marks))
  {
    hide LastClose;
    assert MarkOf(marks, s) == LastClose(m, tl, s, k);
    if meta.underlying.Some? {
      assert MarkOf(marks, meta.underlying.value) == LastClose(m, tl, meta.underlying.value, k);
    }
  }

  lemma SettleOneFair<S>(config: Config, m: Market, tl: seq<int>, b: nat, tick: Tick, st: State<S>, symbol: Symbol)
    requires InOrder(config, st) && b < |tl| && tick.ts == tl[b] && tick.barCount == b
    requires forall t: Symbol :: MarkOf(st.marks, t) == LastClose(m, tl, t, b + 1)
    ensures var after := SettleOne(config, tick, st, symbol).log.fills;
            after == st.log.fills
            || (|after| == |st.log.fills| + 1 && st.log.fills <= after && SettledFairly(config, m, tl, b, after, |st.log.fills|))
  {
    hide ApplyFill, LastClose, Held, FairPrice, UnderlyingClose, SettlementPrice, Basis, MarkOf, Sum, DistinctSymbols, Marked;
    if Settles(config, tick, st, symbol) {
      var f := SettlementFill(config, tick, st, symbol);
      PriceIsFair(config.instrumentMeta[symbol], m, tl, b + 1, symbol, st.marks);
      DueDay(config.instrumentMeta[symbol].expiry.value, tick.ts);
      assert Agrees(config, st.log.fills, Get(st.account.book, symbol));
      assert (st.log.fills + [f])[..|st.log.fills|] == st.log.fills;
    }
  }

  lemma {:induction false} SettleAllFair<S>(config: Config, m: Market, tl: seq<int>, b: nat, tick: Tick, st: State<S>, symbols: seq<Symbol>)
    requires InOrder(config, st) && b < |tl| && tick.ts == tl[b] && tick.barCount == b
    requires forall t: Symbol :: MarkOf(st.marks, t) == LastClose(m, tl, t, b + 1)
    ensures var after := SettleAll(config, tick, st, symbols).log.fills;
            st.log.fills <= after
            && forall i :: |st.log.fills| <= i < |after| ==> SettledFairly(config, m, tl, b, after, i)
    decreases |symbols|
  {
    hide SettleOne, InOrder, LastClose, SettledFairly, MarkOf;
    if symbols == [] {
    } else {
      var next := SettleOne(config, tick, st, symbols[0]);
      SettleOneFair(config, m, tl, b, tick, st, symbols[0]);
      SettleOneInOrder(config, tick, st, symbols[0]);
      SettleOneKeepsMarks(config, tick, st, symbols[0]);
      SettleAllFair(config, m, tl, b, tick, next, symbols[1..]);
      var after := SettleAll(config, tick, st, symbols).log.fills;
      if |next.log.fills| > |st.log.fills| {
        FairStays(config, m, tl, b, next.log.fills, after, |st.log.fills|);
      }
    }
  }

  /** Of the fills of a bar those before the orders are tried are fair settlements, and the others are not settlements. */
  lemma BarSettlesFairly<S>(env: Env<S>, k: nat)
    requires k < |Timeline(env.market)|
    ensures var before, after := Run(env, k).log.fills, Run(env, k + 1).log.fills;
            && before <= after
            && forall i :: |before| <= i < |after| && after[i].id.Expiry? ==>
                 SettledFairly(env.config, env.market, Timeline(env.market), k, after, i)
  {
    hide Run, Timeline, SettleAll, FillOrders, SymbolsOf, MarkPhase, LastClose, SettledFairly, InOrder, MarkOf, Tried;
    var tick, tl := TickOf(env, k), Timeline(env.market);
    var marked := MarkPhase(tick, Run(env, k));
    OpeningFills(env, k);
    RunInOrder(env, k);
    MarkedInOrder(env.config, tick, Run(env, k));
    forall t: Symbol ensures MarkOf(marked.marks, t) == LastClose(env.market, tl, t, k + 1) {
      MidBarMarks(env, k, 0, t);
    }
    SettleAllFair(env.config, env.market, tl, k, tick, marked, SymbolsOf(marked.account.book));
    OrdersDoNotSettle(env, k);
    var settled, after := Opening(env, k).log.fills, Run(env, k + 1).log.fills;
    forall i | |Run(env, k).log.fills| <= i < |after| && after[i].id.Expiry?
      ensures SettledFairly(env.config, env.market, tl, k, after, i)
    {
      assert i < |settled|;
      FairStays(env.config, env.market, tl, k, settled, after, i);
    }
  }

  lemma MarkedInOrder<S>(config: Config, tick: Tick, st: State<S>)
    requires InOrder(config, st)
    ensures InOrder(config, MarkPhase(tick, st)) && MarkPhase(tick, st).log == st.log
  {
  }

  lemma OpeningFills<S>(env: Env<S>, k: nat)
    requires k < |Timeline(env.market)|
    ensures var marked := MarkPhase(TickOf(env, k), Run(env, k));
            Opening(env, k).log.fills == SettleAll(env.config, TickOf(env, k), marked, SymbolsOf(marked.account.book)).log.fills
  {
    hide Run, SettleAll, SymbolsOf, Timeline, MarkPhase, Filter, Notify;
  }

  lemma OrdersDoNotSettle<S>(env: Env<S>, k: nat)
    requires k < |Timeline(env.market)|
    ensures var before, after := Opening(env, k).log.fills, Run(env, k + 1).log.fills;
            before <= after && forall i :: |before| <= i < |after| ==> after[i].id.OrderId?
  {
    hide Run, Timeline, FillOrders, BeforeFills, Tried, DistinctIds;
    RunNext(env, k);
    TriedDistinct(env, k, k);
    BeforeFillsShape(env, TickOf(env, k), Run(env, k));
    var opening := Opening(env, k);
    FillOrdersAdd(env, TickOf(env, k), opening.(pending := []), opening.pending);
    var after := Run(env, k + 1).log.fills;
    var added := after[|opening.log.fills|..];
    forall i | |opening.log.fills| <= i < |after| ensures after[i].id.OrderId? {
      assert after[i] == added[i - |opening.log.fills|];
      assert FillsSome(opening.pending, TickOf(env, k).ts, added[i - |opening.log.fills|]);
    }
  }

  /**
   Settlement over runs. Every settlement fill of any run is of an option whose expiry date
   had come at its bar; it sells, free of charge, exactly what the fills before it had left;
   and its price is the intrinsic value at the underlying's last close when the contract
   names an underlying that has one, otherwise the option's own last close, otherwise zero.
   */
  lemma {:induction false} SettlementsAreFair<S>(env: Env<S>, k: nat, i: nat)
    requires k <= |Timeline(env.market)| && i < |Run(env, k).log.fills| && Run(env, k).log.fills[i].id.Expiry?
    ensures Run(env, k).log.fills[i].id.bar < k
    ensures SettledFairly(env.config, env.market, Timeline(env.market), Run(env, k).log.fills[i].id.bar, Run(env, k).log.fills, i)
  {
    hide Run, Timeline, SettledFairly;
    if k == 0 {
      RunStarts(env);
    } else {
      BarSettlesFairly(env, k - 1);
      var before, after := Run(env, k - 1).log.fills, Run(env, k).log.fills;
      if i < |before| {
        SettlementsAreFair(env, k - 1, i);
        FairStays(env.config, env.market, Timeline(env.market), before[i].id.bar, before, after, i);
      } else {
        FairNamesBar(env.config, env.market, Timeline(env.market), k - 1, after, i);
      }
    }
  }

  lemma FairNamesBar(config: Config, m: Market, tl: seq<int>, b: nat, fills: seq<Fill>, i: nat)
    requires b < |tl| && i < |fills| && SettledFairly(config, m, tl, b, fills, i)
    ensures fills[i].id == Expiry(fills[i].symbol, b)
  {
  }

  // ---------- Every due option is settled ----------

  predicate HasSettlement(fills: seq<Fill>, s: Symbol) {
    exists i :: 0 <= i < |fills| && fills[i].id.Expiry? && fills[i].symbol == s
  }

  /** Every settled symbol has its settlement fill. */
  predicate SettledHaveFills(settled: set<Symbol>, fills: seq<Fill>) {
    forall s :: s in settled ==> HasSettlement(fills, s)
  }

  lemma StillHasSettlement(before: seq<Fill>, after: seq<Fill>, s: Symbol)
    requires before <= after && HasSettlement(before, s)
    ensures HasSettlement(after, s)
  {
    var i :| 0 <= i < |before| && before[i].id.Expiry? && before[i].symbol == s;
    assert after[i] == before[i];
  }

  lemma SettleOneHasFill<S>(config: Config, tick: Tick, st: State<S>, symbol: Symbol)
    requires SettledHaveFills(st.settled, st.log.fills)
    ensures var after := SettleOne(config, tick, st, symbol); SettledHaveFills(after.settled, after.log.fills)
  {
    hide ApplyFill, SettlementPrice, Get, HasSettlement;
    var after := SettleOne(config, tick, st, symbol);
    forall s | s in after.settled ensures HasSettlement(after.log.fills, s) {
      if s in st.settled {
        StillHasSettlement(st.log.fills, after.log.fills, s);
      } else {
        LastSettles(st.log.fills, SettlementFill(config, tick, st, symbol));
      }
    }
  }

  lemma LastSettles(fills: seq<Fill>, f: Fill)
    requires f.id.Expiry?
    ensures HasSettlement(fills + [f], f.symbol)
  {
    assert (fills + [f])[|fills|] == f;
  }

  lemma {:induction false} SettleAllHaveFills<S>(config: Config, tick: Tick, st: State<S>, symbols: seq<Symbol>)
    requires SettledHaveFills(st.settled, st.log.fills)
    ensures var after := SettleAll(config, tick, st, symbols); SettledHaveFills(after.settled, after.log.fills)
    decreases |symbols|
  {
    if symbols == [] {
    } else {
      SettleOneHasFill(config, tick, st, symbols[0]);
      hide SettleOne, SettledHaveFills;
      SettleAllHaveFills(config, tick, SettleOne(config, tick, st, symbols[0]), symbols[1..]);
    }
  }

  lemma {:induction false} FillsKeepSettledSet<S>(env: Env<S>, tick: Tick, st: State<S>, orders: seq<Order>)
    ensures FillOrders(env, tick, st, orders).settled == st.settled
    decreases |orders|
  {
    hide FillOrder;
    if orders == [] {
    } else {
      FillOrderKeepsSettledSet(env, tick, st, orders[0]);
      FillsKeepSettledSet(env, tick, FillOrder(env, tick, st, orders[0]), orders[1..]);
    }
  }

  lemma FillOrderKeepsSettledSet<S>(env: Env<S>, tick: Tick, st: State<S>, o: Order)
    ensures FillOrder(env, tick, st, o).settled == st.settled
  {
    hide TryFill, Objection, ApplyFill, Touch;
  }

  lemma OpeningSettled<S>(env: Env<S>, k: nat)
    requires k < |Timeline(env.market)|
    ensures var marked := MarkPhase(TickOf(env, k), Run(env, k));
            && Opening(env, k).settled == SettleAll(env.config, TickOf(env, k), marked, SymbolsOf(marked.account.book)).settled
            && marked.settled == Run(env, k).settled && marked.log == Run(env, k).log && marked.account == Run(env, k).account
  {
    hide Run, SettleAll, SymbolsOf, Timeline, Filter, Notify;
  }

  lemma SettledAfterBar<S>(env: Env<S>, k: nat)
    requires k < |Timeline(env.market)|
    ensures Run(env, k + 1).settled == Opening(env, k).settled
  {
    hide Run, Timeline, FillOrders, BeforeFills, ContextOf, Submit, MarkToMarket;
    RunNext(env, k);
    FillsKeepSettledSet(env, TickOf(env, k), Opening(env, k).(pending := []), Opening(env, k).pending);
  }

  lemma {:induction false} RunSettledHaveFills<S>(env: Env<S>, k: nat)
    requires k <= |Timeline(env.market)|
    ensures SettledHaveFills(Run(env, k).settled, Run(env, k).log.fills)
  {
    hide Run, Timeline, SettleAll, SymbolsOf, MarkPhase, BeforeFills, HasSettlement;
    if k == 0 {
      RunStarts(env);
    } else {
      var marked := MarkPhase(TickOf(env, k - 1), Run(env, k - 1));
      RunSettledHaveFills(env, k - 1);
      OpeningSettled(env, k - 1);
      OpeningFills(env, k - 1);
      SettleAllHaveFills(env.config, TickOf(env, k - 1), marked, SymbolsOf(marked.account.book));
      SettledAfterBar(env, k - 1);
      OrdersDoNotSettle(env, k - 1);
      forall s | s in Run(env, k).settled ensures HasSettlement(Run(env, k).log.fills, s) {
        StillHasSettlement(Opening(env, k - 1).log.fills, Run(env, k).log.fills, s);
      }
    }
  }

  lemma DueIffDay(day: int, ts: int)
    ensures DateOf(ts) >= day <==> day * 86400 <= ts
  {
  }

  /** An open, due and never settled option position is settled by the bar. */
  lemma DueSettles<S>(env: Env<S>, k: nat, s: Symbol)
    requires k < |Timeline(env.market)| && s in env.config.instrumentMeta
    requires var meta := env.config.instrumentMeta[s];
             meta.assetClass == "option" && meta.expiry.Some? && meta.expiry.value * 86400 <= Timeline(env.market)[k]
    requires Held(Run(env, k).log.fills, s) != 0.0 && s !in Run(env, k).settled
    ensures s in Run(env, k + 1).settled
  {
    hide Run, Timeline, SettleAll, MarkPhase, BeforeFills, Held, Basis;
    var marked := MarkPhase(TickOf(env, k), Run(env, k));
    RunInOrder(env, k);
    assert Agrees(env.config, Run(env, k).log.fills, Get(Run(env, k).account.book, s));
    OpeningSettled(env, k);
    SettledAfterBar(env, k);
    DueIffDay(env.config.instrumentMeta[s].expiry.value, Timeline(env.market)[k]);
    OpenIsListed(marked.account.book, s);
    SettleAllEffect(env.config, TickOf(env, k), marked, SymbolsOf(marked.account.book), s);
  }

  /** Among the later fills is one that settles the symbol at bar k. */
  predicate SettledByBar(before: seq<Fill>, after: seq<Fill>, s: Symbol, k: nat) {
    exists i :: |before| <= i < |after| && after[i].id == Expiry(s, k)
  }

  lemma LaterSettlement(before: seq<Fill>, after: seq<Fill>, s: Symbol) returns (i: nat)
    requires before <= after && HasSettlement(after, s) && !HasSettlement(before, s)
    ensures |before| <= i < |after| && after[i].id.Expiry? && after[i].symbol == s
  {
    assert forall j :: 0 <= j < |before| ==> after[j] == before[j];
    i :| 0 <= i < |after| && after[i].id.Expiry? && after[i].symbol == s;
  }

  /**
   No due option is forgotten. If at some bar of a run the fills so far have left a position in
   an option whose expiry date has come, and none of them has settled it, that bar does.
   */
  lemma DueOptionsSettle<S>(env: Env<S>, k: nat, s: Symbol)
    requires k < |Timeline(env.market)| && s in env.config.instrumentMeta
    requires var meta := env.config.instrumentMeta[s];
             meta.assetClass == "option" && meta.expiry.Some? && meta.expiry.value * 86400 <= Timeline(env.market)[k]
    requires Held(Run(env, k).log.fills, s) != 0.0 && !HasSettlement(Run(env, k).log.fills, s)
    ensures SettledByBar(Run(env, k).log.fills, Run(env, k + 1).log.fills, s, k)
  {
    hide Run, Timeline, Held, SettledFairly;
    RunSettledHaveFills(env, k);
    DueSettles(env, k, s);
    RunSettledHaveFills(env, k + 1);
    BarSettlesFairly(env, k);
    var before, after := Run(env, k).log.fills, Run(env, k + 1).log.fills;
    var i := LaterSettlement(before, after, s);
    FairNamesBar(env.config, env.market, Timeline(env.market), k, after, i);
  }
}
