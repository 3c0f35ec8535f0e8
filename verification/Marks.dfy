/**
 What a mark is. Over every run a symbol's mark is the close of its last bar so far, on every
 use the engine makes of it: the equity curve, the margin checks and the option settlements
 are all valued at those closes.
 */
module Marks {
  import opened Prelude
  import opened Types
  import opened Accounts
  import opened Timelines
  import opened Engine
  import opened Orders
  import opened Ledger
  import opened Margin
  import opened Settlement

  // ---------- The last close ----------

  /** The close of a symbol's last bar among the first k bars of a timeline. */
  function LastClose(m: Market, tl: seq<int>, s: Symbol, k: nat): Option<real>
    requires k <= |tl|
  {
    if k == 0 then None
    else if s in BarsAt(m, tl[k - 1]) then Some(BarsAt(m, tl[k - 1])[s].close)
    else LastClose(m, tl, s, k - 1)
  }

  /** Bar j is the symbol's last among the first k. */
  predicate LastBarAt(m: Market, tl: seq<int>, s: Symbol, k: nat, j: int)
    requires k <= |tl|
  {
    0 <= j < k && s in BarsAt(m, tl[j]) && forall i :: j < i < k ==> s !in BarsAt(m, tl[i])
  }

  lemma {:induction false} LastCloseIsLast(m: Market, tl: seq<int>, s: Symbol, k: nat)
    requires k <= |tl|
    ensures LastClose(m, tl, s, k).Some? <==> exists j :: 0 <= j < k && s in BarsAt(m, tl[j])
    ensures forall j :: LastBarAt(m, tl, s, k, j) ==> LastClose(m, tl, s, k) == Some(BarsAt(m, tl[j])[s].close)
  {
    hide BarsAt;
    if k > 0 {
      LastCloseIsLast(m, tl, s, k - 1);
      forall j | LastBarAt(m, tl, s, k, j)
        ensures LastClose(m, tl, s, k) == Some(BarsAt(m, tl[j])[s].close)
      {
        if j < k - 1 {
          assert LastBarAt(m, tl, s, k - 1, j);
        }
      }
    }
  }

  function MarkOf(marks: map<Symbol, real>, s: Symbol): Option<real> {
    if s in marks then Some(marks[s]) else None
  }

  // ---------- Marks over runs ----------

  /** A bar moves the marks of the symbols that trade and leaves them alone afterwards. */
  lemma StepMarks<S>(env: Env<S>, tick: Tick, st: State<S>)
    ensures BeforeFills(env, tick, st).marks == MarkPhase(tick, st).marks
    ensures Step(env, tick, st).marks == MarkPhase(tick, st).marks
  {
    hide SettleAll, FillOrders, MarkPhase, SymbolsOf, ContextOf, Submit, MarkToMarket;
    var marked := MarkPhase(tick, st);
    SettleKeepsMarks(env.config, tick, marked, SymbolsOf(marked.account.book));
    var before := BeforeFills(env, tick, st);
    FillsKeepMarks(env, tick, before.(pending := []), before.pending);
  }

  lemma MarkedNow<S>(tick: Tick, st: State<S>, s: Symbol)
    ensures MarkOf(MarkPhase(tick, st).marks, s) == if s in tick.bars then Some(tick.bars[s].close) else MarkOf(st.marks, s)
  {
  }

  lemma {:induction false} RunMarks<S>(env: Env<S>, k: nat, s: Symbol)
    requires k <= |Timeline(env.market)|
    ensures MarkOf(Run(env, k).marks, s) == LastClose(env.market, Timeline(env.market), s, k)
  {
    hide Run, Step, Timeline, MarkPhase, BarsAt;
    if k == 0 {
      RunStarts(env);
    } else {
      RunMarks(env, k - 1, s);
      RunNext(env, k - 1);
      var tick := TickAt(env.market, k - 1, Timeline(env.market)[k - 1]);
      StepMarks(env, tick, Run(env, k - 1));
      MarkedNow(tick, Run(env, k - 1), s);
    }
  }

  /**
   Marks are last closes. After k bars of any run a symbol has a mark exactly when one of
   those bars traded it, and the mark is the close of its bar at the last of them.
   */
  lemma MarksAreLastCloses<S>(env: Env<S>, k: nat, s: Symbol)
    requires k <= |Timeline(env.market)|
    ensures var tl := Timeline(env.market);
            && (s in Run(env, k).marks <==> exists j :: 0 <= j < k && s in BarsAt(env.market, tl[j]))
            && forall j :: 0 <= j < k && s in BarsAt(env.market, tl[j]) && (forall i :: j < i < k ==> s !in BarsAt(env.market, tl[i])) ==>
                 s in Run(env, k).marks && Run(env, k).marks[s] == BarsAt(env.market, tl[j])[s].close
  {
    hide Run, BarsAt, Timeline, LastClose;
    RunMarks(env, k, s);
    var tl := Timeline(env.market);
    LastCloseIsLast(env.market, tl, s, k);
    forall j | 0 <= j < k && s in BarsAt(env.market, tl[j]) && (forall i :: j < i < k ==> s !in BarsAt(env.market, tl[i]))
      ensures s in Run(env, k).marks && Run(env, k).marks[s] == BarsAt(env.market, tl[j])[s].close
    {
      assert LastBarAt(env.market, tl, s, k, j);
    }
  }

  /** While a bar settles options and tries its orders the marks are already those of the bar. */
  lemma MidBarMarks<S>(env: Env<S>, k: nat, i: nat, s: Symbol)
    requires k < |Timeline(env.market)| && i <= |BarOrders(env, k)|
    ensures MarkOf(MarkPhase(TickOf(env, k), Run(env, k)).marks, s) == LastClose(env.market, Timeline(env.market), s, k + 1)
    ensures MarkOf(MidBar(env, k, i).marks, s) == LastClose(env.market, Timeline(env.market), s, k + 1)
  {
    hide Run, BeforeFills, FillOrders, Timeline, MarkPhase, LastClose;
    RunMarks(env, k + 1, s);
    RunNext(env, k);
    StepMarks(env, TickOf(env, k), Run(env, k));
    FillsKeepMarks(env, TickOf(env, k), Opening(env, k).(pending := []), BarOrders(env, k)[..i]);
  }

  // ---------- The equity curve at closes ----------

  /** The value of a symbol after k bars: what its fills left, at its last close and contract multiplier. */
  function WorthAt(config: Config, m: Market, tl: seq<int>, fills: seq<Fill>, k: nat): Symbol -> real
    requires k <= |tl|
  {
    (s: Symbol) =>
      match LastClose(m, tl, s, k)
      case None => 0.0
      case Some(close) => Held(fills, s) * close * config.MultiplierFor(s)
  }

  lemma {:induction false} BookWorth(book: seq<Position>, weight: Position -> real, worth: Symbol -> real)
    requires forall p :: p in book ==> weight(p) == worth(p.symbol)
    ensures Sum(book, weight) == Sum(SymbolsOf(book), worth)
  {
    if book == [] {
    } else {
      assert book[0] in book;
      BookWorth(book[1..], weight, worth);
    }
  }

  lemma PositionWorth(config: Config, m: Market, tl: seq<int>, fills: seq<Fill>, k: nat, marks: map<Symbol, real>, p: Position)
    requires k <= |tl| && MarkOf(marks, p.symbol) == LastClose(m, tl, p.symbol, k)
    requires p.quantity == Held(fills, p.symbol) && Carries(p, config.MultiplierFor(p.symbol))
    ensures MarketValue(marks)(p) == WorthAt(config, m, tl, fills, k)(p.symbol)
  {
    hide Held, LastClose;
    if p.symbol in marks && p.quantity == 0.0 {
      var close := marks[p.symbol];
      assert 0.0 * close == 0.0;
    }
  }

  lemma {:induction false} SymbolsDistinct(book: seq<Position>)
    requires DistinctSymbols(book)
    ensures Distinct(SymbolsOf(book)) && |SymbolsOf(book)| == |book|
    ensures forall i :: 0 <= i < |book| ==> SymbolsOf(book)[i] == book[i].symbol
  {
    if book != [] {
      SymbolsDistinct(book[1..]);
    }
  }

  /**
   The equity curve, from the fills and the bars alone. Point j of any run shows the starting
   cash plus the cash flow of the fills so far, and the sum, over different symbols that
   include every one held, of what the fills left times its last close times its contract
   multiplier; every symbol held has such a close.
   */
  lemma EquityFromCloses<S>(env: Env<S>, n: nat, j: nat)
    requires j < n <= |Timeline(env.market)|
    ensures j < |Run(env, n).log.equity|
    ensures var st, tl := Run(env, j + 1), Timeline(env.market);
            var point, symbols := Run(env, n).log.equity[j], SymbolsOf(st.account.book);
            && point.ts == tl[j]
            && point.cash == env.config.startingCash + Sum(st.log.fills, FlowOf(env.config))
            && point.positionsValue == Sum(symbols, WorthAt(env.config, env.market, tl, st.log.fills, j + 1))
            && point.totalEquity == point.cash + point.positionsValue
            && Distinct(symbols)
            && forall s: Symbol :: Held(st.log.fills, s) != 0.0 ==> s in symbols && LastClose(env.market, tl, s, j + 1).Some?
  {
    hide Run, Timeline, Held, LastClose, WorthAt, MarketValue, FlowOf, Basis, Sum, Distinct;
    EquityPointOfBar(env, n, j);
    RunInOrder(env, j + 1);
    var st, tl := Run(env, j + 1), Timeline(env.market);
    forall s: Symbol
      ensures Held(st.log.fills, s) != 0.0 ==> s in SymbolsOf(st.account.book) && LastClose(env.market, tl, s, j + 1).Some?
    {
      assert Agrees(env.config, st.log.fills, Get(st.account.book, s));
      if Held(st.log.fills, s) != 0.0 {
        OpenIsListed(st.account.book, s);
      }
      RunMarks(env, j + 1, s);
    }
    SymbolsDistinct(st.account.book);
    forall p | p in st.account.book
      ensures MarketValue(st.marks)(p) == WorthAt(env.config, env.market, tl, st.log.fills, j + 1)(p.symbol)
    {
      GetIsEntry(st.account.book, p);
      assert Agrees(env.config, st.log.fills, Get(st.account.book, p.symbol));
      RunMarks(env, j + 1, p.symbol);
      PositionWorth(env.config, env.market, tl, st.log.fills, j + 1, st.marks, p);
    }
    BookWorth(st.account.book, MarketValue(st.marks), WorthAt(env.config, env.market, tl, st.log.fills, j + 1));
  }
}
