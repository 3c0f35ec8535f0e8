/**
 Small concrete runs in which the engine's own text does not hold: a cancelled trailing stop
 whose water mark stays, and a reduction that is refused for want of margin.
 */
module Witnesses {
  import opened Prelude
  import opened Types
  import opened Fills
  import opened Accounts
  import opened Timelines
  import opened Engine
  import opened Margin

  // ---------- Markets with one symbol and one price ----------

  function FlatBar(ts: int, price: real): Bar {
    Bar(ts, price, price, price, price, 1.0)
  }

  function FlatFrame(stamps: seq<int>, price: real): seq<Bar> {
    seq(|stamps|, i requires 0 <= i < |stamps| => FlatBar(stamps[i], price))
  }

  function FlatMarket(symbol: Symbol, stamps: seq<int>, price: real): Market {
    Market([symbol], map[symbol := FlatFrame(stamps, price)])
  }

  function FlatTick(symbol: Symbol, stamps: seq<int>, price: real, k: nat): Tick
    requires k < |stamps|
  {
    Tick(stamps[k], k, map[symbol := FlatBar(stamps[k], price)])
  }

  lemma FlatTimeline(symbol: Symbol, stamps: seq<int>, price: real)
    requires StrictlyIncreasing(stamps)
    ensures Timeline(FlatMarket(symbol, stamps, price)) == stamps
  {
    var m := FlatMarket(symbol, stamps, price);
    var frame := FlatFrame(stamps, price);
    assert Frame(m, symbol) == frame;
    forall t ensures t in Timeline(m) <==> t in stamps {
      assert t in Timeline(m) <==> HasStamp(frame, t) by {
        assert Traded(m, m.symbols, t) <==> HasStamp(frame, t);
      }
      assert HasStamp(frame, t) <==> t in stamps by {
        assert forall i :: 0 <= i < |stamps| ==> frame[i].ts == stamps[i];
      }
    }
    SameMembersSameSequence(Timeline(m), stamps);
  }

  lemma FlatTicks(symbol: Symbol, stamps: seq<int>, price: real, k: nat)
    requires k < |stamps|
    ensures TickAt(FlatMarket(symbol, stamps, price), k, stamps[k]) == FlatTick(symbol, stamps, price, k)
  {
    var m := FlatMarket(symbol, stamps, price);
    var frame := FlatFrame(stamps, price);
    assert Frame(m, symbol) == frame && frame[k].ts == stamps[k];
    assert HasStamp(frame, stamps[k]);
    assert BarAt(frame, stamps[k]) == Some(FlatBar(stamps[k], price));
    assert BarsAt(m, stamps[k]) == map[symbol := FlatBar(stamps[k], price)];
  }

  /** A strategy that answers each bar by its number and ignores everything else. */
  function Scripted(requests: nat -> seq<OrderRequest>, cancels: nat -> set<nat>): Strategy<int> {
    Strategy(0,
             (s: int, context: BarContext) => Response(0, requests(context.barCount), cancels(context.barCount), []),
             (s: int, o: Order) => s, (s: int, o: Order) => s, (s: int, o: Order, r: Reason) => s)
  }

  function FreeConfig(cash: real, meta: map<Symbol, InstrumentMeta>): Config {
    Config(cash, 0, 0, None, 0.0, map[], meta, true, 1.0, None, 0, 0)
  }

  /** Bar k of a run over a flat market. */
  lemma FlatRunStep(env: Env<int>, symbol: Symbol, stamps: seq<int>, price: real, k: nat)
    requires env.market == FlatMarket(symbol, stamps, price) && StrictlyIncreasing(stamps) && k < |stamps|
    ensures k < |Timeline(env.market)|
    ensures Run(env, k + 1) == Step(env, FlatTick(symbol, stamps, price, k), Run(env, k))
  {
    hide Step, TickAt;
    FlatTimeline(symbol, stamps, price);
    FlatTicks(symbol, stamps, price, k);
  }

  lemma FlatMarks(symbol: Symbol, stamps: seq<int>, price: real, k: nat, st: State<int>)
    requires k < |stamps| && st.marks.Keys <= {symbol}
    ensures MarkPhase(FlatTick(symbol, stamps, price, k), st) == st.(marks := map[symbol := price])
  {
    var closes := map s | s in map[symbol := FlatBar(stamps[k], price)] :: map[symbol := FlatBar(stamps[k], price)][s].close;
    assert closes == map[symbol := price];
    assert st.marks + closes == map[symbol := price];
  }

  /** Nothing expires and nothing is to be cancelled. */
  predicate Undisturbed(st: State<int>) {
    st.cancels == {} && forall o :: o in st.pending ==> o.expiresAt.None?
  }

  lemma NothingDue(env: Env<int>, tick: Tick, st: State<int>)
    requires Undisturbed(st)
    ensures CancelPhase(env.strategy, ExpirePhase(env.strategy, tick, st)) == st
  {
    FilterNone(st.pending, Expiring(tick.barCount));
    FilterAll(st.pending, Staying(tick.barCount));
    assert st.log.expired + [] == st.log.expired;
  }

  /** What the end of a bar adds to the state its fills leave: the script's orders and an equity point. */
  lemma BarEnds(env: Env<int>, requests: nat -> seq<OrderRequest>, cancels: nat -> set<nat>, tick: Tick,
                filled: State<int>, orders: seq<Order>, value: real)
    requires env.strategy == Scripted(requests, cancels)
    requires orders == Submit(requests(tick.barCount), tick.ts, tick.barCount, |filled.log.submitted|)
    requires value == MarkToMarket(filled.account.book, filled.marks)
    ensures EquityPhase(tick, StrategyPhase(env, tick, filled))
         == filled.(strategy := 0, pending := filled.pending + orders, cancels := cancels(tick.barCount),
                    log := filled.log.(
                      submitted := filled.log.submitted + orders,
                      equity := filled.log.equity
                        + [EquityPoint(tick.ts, filled.account.cash, value, filled.account.cash + value)]))
  {
    hide Submit, MarkToMarket, History, OptionChain;
    assert filled.log.signals + [] == filled.log.signals;
  }

  lemma OneFill(env: Env<int>, tick: Tick, st: State<int>, o: Order)
    requires st.pending == [o]
    ensures FillPhase(env, tick, st) == FillOrder(env, tick, st.(pending := []), o)
  {
    hide FillOrder;
    var next := FillOrder(env, tick, st.(pending := []), o);
    assert st.pending[0] == o && st.pending[1..] == [];
    assert FillOrders(env, tick, next, []) == next;
  }

  lemma NoFill(env: Env<int>, tick: Tick, st: State<int>)
    requires st.pending == []
    ensures FillPhase(env, tick, st) == st
  {
  }

  // ---------- A mark that outlives its order ----------

  const STAMPS: seq<int> := [0, 60, 120]

  function TrailRequests(): nat -> seq<OrderRequest> {
    (bar: nat) => if bar == 0 then [OrderRequest("X", Sell, 1.0, TrailingStop(5.0), None, [])] else []
  }

  function TrailCancels(): nat -> set<nat> {
    (bar: nat) => if bar == 1 then {0} else {}
  }

  /** At the first bar a trailing stop is submitted, at the second its cancellation is requested. */
  function CancelledTrail(): Env<int> {
    Env(FreeConfig(100.0, map[]), FlatMarket("X", STAMPS, 10.0), Scripted(TrailRequests(), TrailCancels()))
  }

  const TRAIL: Order := Order("X", Sell, 1.0, TrailingStop(5.0), 0, 0, None, [])

  /** The run's state after each bar: what rests, the water marks, the requested cancels and the log. */
  function TrailState(pending: seq<Order>, trail: map<nat, real>, cancels: set<nat>, log: Log): State<int> {
    State(0, Account(100.0, []), pending, map["X" := 10.0], trail, cancels, {}, log)
  }

  function TrailLog(bars: nat, cancelled: seq<Order>): Log
    requires bars <= |STAMPS|
  {
    Log([], seq(bars, i requires 0 <= i < bars => EquityPoint(STAMPS[i], 100.0, 0.0, 100.0)), [], cancelled, [], [], [TRAIL])
  }

  lemma TrailSubmits()
    ensures Submit(TrailRequests()(0), 0, 0, 0) == [TRAIL]
  {
    assert Submit([], 0, 0, 1) == [];
  }

  lemma ValueOfNothing(marks: map<Symbol, real>)
    ensures MarkToMarket([], marks) == 0.0
  {
  }

  lemma TrailSubmitted()
    ensures Step(CancelledTrail(), FlatTick("X", STAMPS, 10.0, 0), Initial(CancelledTrail()))
         == TrailState([TRAIL], map[], {}, TrailLog(1, []))
  {
    hide FlatMarket, FillOrder, Submit, Sum;
    TrailSubmits();
    ValueOfNothing(map["X" := 10.0]);
    var env, tick := CancelledTrail(), FlatTick("X", STAMPS, 10.0, 0);
    var marked := Initial(env).(marks := map["X" := 10.0]);
    FlatMarks("X", STAMPS, 10.0, 0, Initial(env));
    NothingDue(env, tick, marked);
    NoFill(env, tick, marked);
    BarEnds(env, TrailRequests(), TrailCancels(), tick, marked, [TRAIL], 0.0);
  }

  /** The second bar moves the water mark to its high and does not reach the trigger. */
  lemma TrailMeetsBar()
    ensures FillOrder(CancelledTrail(), FlatTick("X", STAMPS, 10.0, 1), TrailState([], map[], {}, TrailLog(1, [])), TRAIL)
         == TrailState([TRAIL], map[0 := 10.0], {}, TrailLog(1, []))
  {
    assert TryFill(TRAIL, FlatBar(60, 10.0), CancelledTrail().config, map[]) == (None, map[0 := 10.0]);
  }

  lemma TrailTried()
    ensures Step(CancelledTrail(), FlatTick("X", STAMPS, 10.0, 1), TrailState([TRAIL], map[], {}, TrailLog(1, [])))
         == TrailState([TRAIL], map[0 := 10.0], {0}, TrailLog(2, []))
  {
    hide FlatMarket, FreeConfig, FillOrder;
    var env, tick := CancelledTrail(), FlatTick("X", STAMPS, 10.0, 1);
    var st := TrailState([TRAIL], map[], {}, TrailLog(1, []));
    FlatMarks("X", STAMPS, 10.0, 1, st);
    NothingDue(env, tick, st);
    OneFill(env, tick, st, TRAIL);
    var filled := st.(trail := map[0 := 10.0]);
    TrailMeetsBar();
    BarEnds(env, TrailRequests(), TrailCancels(), tick, filled, [], 0.0);
  }

  lemma TrailCancelled()
    ensures Step(CancelledTrail(), FlatTick("X", STAMPS, 10.0, 2), TrailState([TRAIL], map[0 := 10.0], {0}, TrailLog(2, [])))
         == TrailState([], map[0 := 10.0], {}, TrailLog(3, [TRAIL]))
  {
    hide FlatMarket, FreeConfig, FillOrder;
    var env, tick := CancelledTrail(), FlatTick("X", STAMPS, 10.0, 2);
    var st := TrailState([TRAIL], map[0 := 10.0], {0}, TrailLog(2, []));
    FlatMarks("X", STAMPS, 10.0, 2, st);
    NothingDue(env, tick, st.(cancels := {}));
    var dropped := TrailState([], map[0 := 10.0], {}, TrailLog(2, [TRAIL]));
    assert Filter([TRAIL], Cancelling({0})) == [TRAIL] && Filter([TRAIL], Keeping({0})) == [];
    assert BeforeFills(env, tick, st) == dropped;
    NoFill(env, tick, dropped);
    BarEnds(env, TrailRequests(), TrailCancels(), tick, dropped, [], 0.0);
  }

  /** In this run the cancelled trailing order is out of the book and its water mark is still kept. */
  lemma CancelledMarkStays()
    ensures 3 <= |Timeline(CancelledTrail().market)|
    ensures var st := Run(CancelledTrail(), 3);
            st.pending == [] && st.log.cancelled == [TRAIL] && st.trail == map[TRAIL.id := 10.0]
  {
    hide Step, Run;
    var env := CancelledTrail();
    FlatTimeline("X", STAMPS, 10.0);
    RunStarts(env);
    FlatRunStep(env, "X", STAMPS, 10.0, 0);
    TrailSubmitted();
    FlatRunStep(env, "X", STAMPS, 10.0, 1);
    TrailTried();
    FlatRunStep(env, "X", STAMPS, 10.0, 2);
    TrailCancelled();
  }

  // ---------- A reduction that is refused ----------

  function ReduceRequests(): nat -> seq<OrderRequest> {
    (bar: nat) =>
      if bar == 0 then [OrderRequest("X", Buy, 2.0, MarketOrder, None, [])]
      else if bar == 1 then [OrderRequest("X", Sell, 1.0, MarketOrder, None, [])]
      else []
  }

  function ReduceCancels(): nat -> set<nat> {
    (bar: nat) => {}
  }

  /** Two units at a price below zero are ordered at the first bar, and the sale of one at the second. */
  function RefusedReduction(): Env<int> {
    Env(FreeConfig(5.0, map[]), FlatMarket("X", STAMPS, -10.0), Scripted(ReduceRequests(), ReduceCancels()))
  }

  const TWO: Order := Order("X", Buy, 2.0, MarketOrder, 0, 0, None, [])
  const LESS: Order := Order("X", Sell, 1.0, MarketOrder, 60, 1, None, [])
  const TWO_FILLED: Fill := Fill(OrderId(0), "X", Buy, MARKET, 2.0, -10.0, 0.0, 60, 0, false, [])
  const LESS_FILLED: Fill := Fill(OrderId(1), "X", Sell, MARKET, 1.0, -10.0, 0.0, 120, 60, false, [])

  const BARE: Account := Account(5.0, [])
  const LADEN: Account := Account(25.0, [Position("X", 2.0, -10.0, 0.0, 1.0)])

  function ReduceState(account: Account, pending: seq<Order>, log: Log): State<int> {
    State(0, account, pending, map["X" := -10.0], map[], {}, {}, log)
  }

  function ReduceLog(fills: seq<Fill>, points: seq<EquityPoint>, rejected: seq<Rejection>, submitted: seq<Order>): Log {
    Log(fills, points, rejected, [], [], [], submitted)
  }

  const EMPTY_HANDED: EquityPoint := EquityPoint(0, 5.0, 0.0, 5.0)

  function LadenAt(ts: int): EquityPoint {
    EquityPoint(ts, 25.0, -20.0, 5.0)
  }

  lemma ReduceSubmits()
    ensures Submit(ReduceRequests()(0), 0, 0, 0) == [TWO]
    ensures Submit(ReduceRequests()(1), 60, 1, 1) == [LESS]
    ensures Submit(ReduceRequests()(2), 120, 2, 2) == []
  {
    assert Submit([], 0, 0, 1) == [] && Submit([], 60, 1, 2) == [];
  }

  const REFUSAL: Rejection := Rejection(LESS, BuyingPower(5.0, 1.0, 10.0))

  lemma TwoOrdered()
    ensures Step(RefusedReduction(), FlatTick("X", STAMPS, -10.0, 0), Initial(RefusedReduction()))
         == ReduceState(BARE, [TWO], ReduceLog([], [EMPTY_HANDED], [], [TWO]))
  {
    hide FlatMarket, FillOrder, Submit, Sum;
    ValueOfNothing(map["X" := -10.0]);
    var env, tick := RefusedReduction(), FlatTick("X", STAMPS, -10.0, 0);
    var marked := Initial(env).(marks := map["X" := -10.0]);
    FlatMarks("X", STAMPS, -10.0, 0, Initial(env));
    NothingDue(env, tick, marked);
    NoFill(env, tick, marked);
    ReduceSubmits();
    BarEnds(env, ReduceRequests(), ReduceCancels(), tick, marked, [TWO], 0.0);
  }

  lemma FreeMarketFill(env: Env<int>, o: Order, bar: Bar, f: Fill)
    requires env.config == FreeConfig(5.0, map[]) && o.kind.MarketOrder?
    requires f == Fill(OrderId(o.id), o.symbol, o.side, MARKET, o.quantity, bar.open, 0.0, bar.ts, o.submittedTs, false, o.tags)
    ensures TryFill(o, bar, env.config, map[]) == (Some(Execution(f, 0.0)), map[])
  {
    var config := env.config;
    assert config.Slippage() == 0.0 && bar.open * (1.0 + 0.0) == bar.open && bar.open * (1.0 - 0.0) == bar.open;
    assert config.FeeRate() == 0.0 && bar.open * o.quantity * 0.0 == 0.0;
  }

  /** Buying below zero brings cash in and raises no exposure the rules measure. */
  lemma TwoAccepted()
    ensures Touch(BARE, "X") == Account(5.0, [ZeroPosition("X")])
    ensures Objection(RefusedReduction().config, Account(5.0, [ZeroPosition("X")]), map["X" := -10.0], TWO_FILLED).None?
  {
    var book := [ZeroPosition("X")];
    assert Get(book, "X") == book[0] && Put([], book[0]) == book;
    assert Notional(2.0, -10.0, 1.0) == -20.0 && Notional(0.0, -10.0, 1.0) == 0.0;
    hide Notional, Project;
  }

  lemma TwoApplied()
    ensures ApplyFill(Account(5.0, [ZeroPosition("X")]), "X", Buy, 2.0, -10.0, 0.0, 1.0) == LADEN
  {
    var p := ZeroPosition("X");
    assert Get([p], "X") == p && Put([p], LADEN.book[0]) == LADEN.book;
    assert Notional(2.0, -10.0, 1.0) == -20.0;
    hide Notional, Get, Put;
  }

  lemma TwoBooked()
    ensures var st := ReduceState(BARE, [], ReduceLog([], [EMPTY_HANDED], [], [TWO]));
            FillOrder(RefusedReduction(), FlatTick("X", STAMPS, -10.0, 1), st, TWO)
            == ReduceState(LADEN, [], ReduceLog([TWO_FILLED], [EMPTY_HANDED], [], [TWO]))
  {
    hide TryFill, Objection, ApplyFill, Touch, FreeConfig, FlatMarket, Scripted, Config.MultiplierFor;
    FreeMarketFill(RefusedReduction(), TWO, FlatBar(60, -10.0), TWO_FILLED);
    TwoAccepted();
    TwoApplied();
    PlainMultiplier();
    var none: map<nat, real> := map[];
    assert none - {0} == none;
  }

  lemma PlainMultiplier()
    ensures RefusedReduction().config.MultiplierFor("X") == 1.0
  {
  }

  lemma LadenValue()
    ensures MarkToMarket(LADEN.book, map["X" := -10.0]) == -20.0
  {
    var p := LADEN.book[0];
    assert [p][1..] == [] && Sum([], MarketValue(map["X" := -10.0])) == 0.0;
    assert Notional(2.0, -10.0, 1.0) == -20.0;
  }

  lemma TwoHeld()
    ensures Step(RefusedReduction(), FlatTick("X", STAMPS, -10.0, 1),
                 ReduceState(BARE, [TWO], ReduceLog([], [EMPTY_HANDED], [], [TWO])))
         == ReduceState(LADEN, [LESS], ReduceLog([TWO_FILLED], [EMPTY_HANDED, LadenAt(60)], [], [TWO, LESS]))
  {
    hide FillOrder, MarkPhase, SettlePhase, MarkToMarket, FillPhase, Submit, FreeConfig, FlatMarket, Scripted, Step, Touch, TryFill;
    var env, tick := RefusedReduction(), FlatTick("X", STAMPS, -10.0, 1);
    var st := ReduceState(BARE, [TWO], ReduceLog([], [EMPTY_HANDED], [], [TWO]));
    var filled := ReduceState(LADEN, [], ReduceLog([TWO_FILLED], [EMPTY_HANDED], [], [TWO]));
    FlatMarks("X", STAMPS, -10.0, 1, st);
    NothingToSettle(env.config, tick, st);
    OneFill(env, tick, st, TWO);
    TwoBooked();
    LadenValue();
    ReduceSubmits();
    QuietBar(env, ReduceRequests(), ReduceCancels(), tick, st, filled, [LESS], -20.0);
  }

  /** A bar that settles, expires and cancels nothing, given what its fills leave. */
  lemma QuietBar(env: Env<int>, requests: nat -> seq<OrderRequest>, cancels: nat -> set<nat>, tick: Tick,
                 st: State<int>, filled: State<int>, orders: seq<Order>, value: real)
    requires env.strategy == Scripted(requests, cancels)
    requires MarkPhase(tick, st) == st && SettlePhase(env.config, tick, st) == st && Undisturbed(st)
    requires FillPhase(env, tick, st) == filled
    requires orders == Submit(requests(tick.barCount), tick.ts, tick.barCount, |filled.log.submitted|)
    requires value == MarkToMarket(filled.account.book, filled.marks)
    ensures Step(env, tick, st)
         == filled.(strategy := 0, pending := filled.pending + orders, cancels := cancels(tick.barCount),
                    log := filled.log.(
                      submitted := filled.log.submitted + orders,
                      equity := filled.log.equity
                        + [EquityPoint(tick.ts, filled.account.cash, value, filled.account.cash + value)]))
  {
    hide MarkPhase, SettlePhase, ExpirePhase, CancelPhase, FillPhase, StrategyPhase, EquityPhase, MarkToMarket;
    NothingDue(env, tick, st);
    BarEnds(env, requests, cancels, tick, filled, orders, value);
  }

  /** Selling one of two units halves the exposure, and is refused for want of margin. */
  lemma ReductionObjected()
    ensures Touch(LADEN, "X") == LADEN
    ensures Shrinks(Get(LADEN.book, "X").quantity, Get(LADEN.book, "X").quantity + SignedQuantity(LESS_FILLED))
    ensures Objection(RefusedReduction().config, LADEN, map["X" := -10.0], LESS_FILLED) == Some(BuyingPower(5.0, 1.0, 10.0))
  {
    var marks, p := map["X" := -10.0], LADEN.book[0];
    var target := p.(quantity := 1.0);
    assert Notional(2.0, -10.0, 1.0) == -20.0 && Notional(1.0, -10.0, 1.0) == -10.0 && Notional(-1.0, -10.0, 1.0) == 10.0;
    assert marks["X" := -10.0] == marks;
    ProjectIsOverwrite([p], 15.0, marks, target);
    assert Put([p], target) == [target];
    assert Get([p], "X") == p;
    assert RefusedReduction().config.MultiplierFor("X") == 1.0;
    hide Notional, Get, Put, Project, FreeConfig;
    assert Sum([target], MarketValue(marks)) == -10.0 && Sum([target], Exposure(marks)) == 10.0;
  }

  lemma LessRefused()
    ensures var log := ReduceLog([TWO_FILLED], [EMPTY_HANDED, LadenAt(60)], [], [TWO, LESS]);
            FillOrder(RefusedReduction(), FlatTick("X", STAMPS, -10.0, 2), ReduceState(LADEN, [], log), LESS)
            == ReduceState(LADEN, [], log.(rejected := [REFUSAL]))
  {
    hide TryFill, Objection, Touch, FreeConfig, FlatMarket;
    var env := RefusedReduction();
    FreeMarketFill(env, LESS, FlatBar(120, -10.0), LESS_FILLED);
    ReductionObjected();
  }

  lemma StillHeld()
    ensures Step(RefusedReduction(), FlatTick("X", STAMPS, -10.0, 2),
                 ReduceState(LADEN, [LESS], ReduceLog([TWO_FILLED], [EMPTY_HANDED, LadenAt(60)], [], [TWO, LESS])))
         == ReduceState(LADEN, [],
                        ReduceLog([TWO_FILLED], [EMPTY_HANDED, LadenAt(60), LadenAt(120)], [REFUSAL], [TWO, LESS]))
  {
    hide FillOrder, MarkPhase, SettlePhase, MarkToMarket, FillPhase, Submit, FreeConfig, FlatMarket, Scripted, Step, Touch, TryFill;
    var env, tick := RefusedReduction(), FlatTick("X", STAMPS, -10.0, 2);
    var log := ReduceLog([TWO_FILLED], [EMPTY_HANDED, LadenAt(60)], [], [TWO, LESS]);
    var st := ReduceState(LADEN, [LESS], log);
    FlatMarks("X", STAMPS, -10.0, 2, st);
    SettledNothing(env, tick, st);
    OneFill(env, tick, st, LESS);
    LessRefused();
    LadenValue();
    ReduceSubmits();
    QuietBar(env, ReduceRequests(), ReduceCancels(), tick, st,
             ReduceState(LADEN, [], log.(rejected := [REFUSAL])), [], -20.0);
  }

  lemma NothingToSettle(config: Config, tick: Tick, st: State<int>)
    requires st.account.book == []
    ensures SettlePhase(config, tick, st) == st
  {
  }

  lemma SettledNothing(env: Env<int>, tick: Tick, st: State<int>)
    requires env.config == FreeConfig(5.0, map[]) && st.account == LADEN
    ensures SettlePhase(env.config, tick, st) == st
  {
    assert SymbolsOf(LADEN.book[1..]) == [];
    assert SymbolsOf(LADEN.book) == ["X"];
    assert ["X"][1..] == [] && SettleAll(env.config, tick, st, []) == st;
  }

  /**
   In this run two units are held, and the order to sell one of them is refused for want of
   buying power although it would reduce the position.
   */
  lemma ReductionRefused()
    ensures 3 <= |Timeline(RefusedReduction().market)|
    ensures var st := Run(RefusedReduction(), 2); Get(st.account.book, "X").quantity == 2.0 && st.pending == [LESS]
    ensures var st := Run(RefusedReduction(), 3);
            Get(st.account.book, "X").quantity == 2.0 && st.pending == [] && st.log.rejected == [REFUSAL]
    ensures Shrinks(2.0, 2.0 + Signed(LESS.side, LESS.quantity))
  {
    hide Step, Run;
    var env := RefusedReduction();
    FlatTimeline("X", STAMPS, -10.0);
    RunStarts(env);
    FlatRunStep(env, "X", STAMPS, -10.0, 0);
    TwoOrdered();
    FlatRunStep(env, "X", STAMPS, -10.0, 1);
    TwoHeld();
    FlatRunStep(env, "X", STAMPS, -10.0, 2);
    StillHeld();
  }
}
