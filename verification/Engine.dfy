/**
 The backtest engine as a state machine: one Step per timestamp of the timeline, made of
 the phases the engine runs in order. A strategy is an arbitrary deterministic function
 of its own state and of what the engine shows it.
 */
module Engine {
  import opened Prelude
  import opened Types
  import opened Fills
  import opened Accounts
  import opened Timelines

  // ---------- The strategy's side ----------

  datatype OrderRequest = OrderRequest(
    symbol: Symbol,
    side: Side,
    quantity: real,
    kind: OrderKind,
    expiresAfter: Option<int>,
    tags: seq<string>)

  datatype SignalEvent = SignalEvent(
    ts: int,
    barCount: nat,
    name: string,
    passed: bool,
    symbol: Option<Symbol>,
    value: Option<real>)

  /** What the strategy sees at a bar boundary. */
  datatype BarContext = BarContext(
    ts: int,
    barCount: nat,
    symbols: seq<Symbol>,
    history: map<Symbol, seq<Bar>>,
    positions: seq<(Symbol, real)>,
    cash: real,
    pending: seq<Order>,
    optionChain: map<Symbol, InstrumentMeta>,
    nextOrderId: nat)

  datatype Response<S> = Response(
    state: S,
    requests: seq<OrderRequest>,
    cancels: set<nat>,
    signals: seq<SignalEvent>)

  datatype Reason =
    | ShortingDisabled(quantity: real, wouldBe: real, held: real)
    | BuyingPower(equity: real, marginRate: real, gross: real)

  datatype Strategy<!S> = Strategy(
    initial: S,
    onBar: (S, BarContext) -> Response<S>,
    onExpired: (S, Order) -> S,
    onCancelled: (S, Order) -> S,
    onRejected: (S, Order, Reason) -> S)

  datatype Env<!S> = Env(config: Config, market: Market, strategy: Strategy<S>)

  /** A request becomes an order only if its quantity, trail percent and lifetime are positive. */
  predicate ValidRequest(r: OrderRequest) {
    && r.quantity > 0.0
    && (r.kind.TrailingStop? ==> r.kind.percent > 0.0)
    && (r.expiresAfter.Some? ==> r.expiresAfter.value > 0)
  }

  /** The orders made of a bar's requests, numbered from nextId on. */
  function Submit(requests: seq<OrderRequest>, ts: int, barCount: nat, nextId: nat): seq<Order> {
    if requests == [] then []
    else
      var r := requests[0];
      if ValidRequest(r) then
        var expiresAt := if r.expiresAfter.Some? then Some(barCount + r.expiresAfter.value) else None;
        [Order(r.symbol, r.side, r.quantity, r.kind, ts, nextId, expiresAt, r.tags)]
        + Submit(requests[1..], ts, barCount, nextId + 1)
      else
        Submit(requests[1..], ts, barCount, nextId)
  }

  // ---------- The engine's state ----------

  datatype Rejection = Rejection(order: Order, reason: Reason)

  /** Everything the run records; submitted lists every order ever submitted, by id. */
  datatype Log = Log(
    fills: seq<Fill>,
    equity: seq<EquityPoint>,
    rejected: seq<Rejection>,
    cancelled: seq<Order>,
    expired: seq<Order>,
    signals: seq<SignalEvent>,
    submitted: seq<Order>)

  datatype State<S> = State(
    strategy: S,
    account: Account,
    pending: seq<Order>,
    marks: map<Symbol, real>,
    trail: map<nat, real>,
    cancels: set<nat>,
    settled: set<Symbol>,
    log: Log)

  /** One timestamp: its bar number and the bars of the traded symbols. */
  datatype Tick = Tick(ts: int, barCount: nat, bars: map<Symbol, Bar>)

  function TickAt(m: Market, barCount: nat, ts: int): Tick {
    Tick(ts, barCount, BarsAt(m, ts))
  }

  function Initial<S>(env: Env<S>): State<S> {
    State(env.strategy.initial, Account(env.config.startingCash, []), [], map[], map[], {}, {},
          Log([], [], [], [], [], [], []))
  }

  // ---------- (1) Marks ----------

  function MarkPhase<S>(tick: Tick, st: State<S>): State<S> {
    st.(marks := st.marks + (map s | s in tick.bars :: tick.bars[s].close))
  }

  // ---------- (1b) Option settlement ----------

  function SettlementPrice(meta: InstrumentMeta, symbol: Symbol, marks: map<Symbol, real>): real {
    if meta.underlying.Some? && meta.underlying.value != "" && meta.strike.Some?
       && meta.right.Some? && meta.right.value != "" && meta.underlying.value in marks then
      if meta.right.value == "C" || meta.right.value == "c"
      then Max(0.0, marks[meta.underlying.value] - meta.strike.value)
      else Max(0.0, meta.strike.value - marks[meta.underlying.value])
    else if symbol in marks then marks[symbol]
    else 0.0
  }

  predicate OptionExpired(config: Config, symbol: Symbol, ts: int) {
    && config.IsOption(symbol)
    && config.instrumentMeta[symbol].expiry.Some?
    && DateOf(ts) >= config.instrumentMeta[symbol].expiry.value
  }

  predicate Settles<S>(config: Config, tick: Tick, st: State<S>, symbol: Symbol) {
    && Get(st.account.book, symbol).quantity != 0.0
    && symbol !in st.settled
    && OptionExpired(config, symbol, tick.ts)
  }

  function SettlementFill<S>(config: Config, tick: Tick, st: State<S>, symbol: Symbol): Fill
    requires config.IsOption(symbol)
  {
    var price := SettlementPrice(config.instrumentMeta[symbol], symbol, st.marks);
    Fill(Expiry(symbol, tick.barCount), symbol, Sell, MARKET, Get(st.account.book, symbol).quantity,
         price, 0.0, tick.ts, tick.ts, false, [])
  }

  function SettleOne<S>(config: Config, tick: Tick, st: State<S>, symbol: Symbol): State<S> {
    if !Settles(config, tick, st, symbol) then st
    else
      var f := SettlementFill(config, tick, st, symbol);
      st.(account := ApplyFill(st.account, symbol, Sell, f.quantity, f.price, f.fee, Get(st.account.book, symbol).multiplier),
          settled := st.settled + {symbol},
          log := st.log.(fills := st.log.fills + [f]))
  }

  function SettleAll<S>(config: Config, tick: Tick, st: State<S>, symbols: seq<Symbol>): State<S>
    decreases |symbols|
  {
    if symbols == [] then st
    else SettleAll(config, tick, SettleOne(config, tick, st, symbols[0]), symbols[1..])
  }

  function SymbolsOf(book: seq<Position>): seq<Symbol> {
    if book == [] then [] else [book[0].symbol] + SymbolsOf(book[1..])
  }

  function SettlePhase<S>(config: Config, tick: Tick, st: State<S>): State<S> {
    SettleAll(config, tick, st, SymbolsOf(st.account.book))
  }

  // ---------- (2a) Expirations and (2b) cancellations ----------

  function Notify<S>(callback: (S, Order) -> S, s: S, orders: seq<Order>): S {
    if orders == [] then s else Notify(callback, callback(s, orders[0]), orders[1..])
  }

  function Expiring(barCount: nat): Order -> bool {
    (o: Order) => o.expiresAt.Some? && barCount >= o.expiresAt.value
  }

  function Staying(barCount: nat): Order -> bool {
    (o: Order) => !(o.expiresAt.Some? && barCount >= o.expiresAt.value)
  }

  function ExpirePhase<S>(strategy: Strategy<S>, tick: Tick, st: State<S>): State<S> {
    var gone := Filter(st.pending, Expiring(tick.barCount));
    st.(strategy := Notify(strategy.onExpired, st.strategy, gone),
        pending := Filter(st.pending, Staying(tick.barCount)),
        log := st.log.(expired := st.log.expired + gone))
  }

  function Cancelling(cancels: set<nat>): Order -> bool {
    (o: Order) => o.id in cancels
  }

  function Keeping(cancels: set<nat>): Order -> bool {
    (o: Order) => o.id !in cancels
  }

  function CancelPhase<S>(strategy: Strategy<S>, st: State<S>): State<S> {
    if st.cancels == {} then st
    else
      var gone := Filter(st.pending, Cancelling(st.cancels));
      st.(strategy := Notify(strategy.onCancelled, st.strategy, gone),
          pending := Filter(st.pending, Keeping(st.cancels)),
          cancels := {},
          log := st.log.(cancelled := st.log.cancelled + gone))
  }

  // ---------- (2c) Fills and (2d) rejections ----------

  /** Whether a fill raises the gross exposure of its symbol, at its mark. */
  predicate Extends(held: real, after: real, mark: real, m: real) {
    Notional(Abs(after), mark, m) > Notional(Abs(held), mark, m)
  }

  /** The shorting and buying-power rules: None accepts the fill, Some says why not. */
  function Objection(config: Config, a: Account, marks: map<Symbol, real>, f: Fill): Option<Reason> {
    var m := config.MultiplierFor(f.symbol);
    var signed := SignedQuantity(f);
    var held := Get(a.book, f.symbol).quantity;
    var after := held + signed;
    if after < 0.0 && !config.allowShort then Some(ShortingDisabled(f.quantity, after, held))
    else
      var mark := if f.symbol in marks then marks[f.symbol] else f.price;
      if Extends(held, after, mark, m) then
        var cashAfter := a.cash - Notional(signed, f.price, m) - f.fee;
        var p := Project(a.book, cashAfter, marks[f.symbol := mark], f.symbol, after, m);
        if p.equity < config.marginRate * p.gross then Some(BuyingPower(p.equity, config.marginRate, p.gross)) else None
      else None
  }

  /** Books an accepted fill and requeues or retires its order. */
  function Book<S>(config: Config, st: State<S>, o: Order, e: Execution): State<S> {
    var f := e.fill;
    var booked := st.(account := ApplyFill(st.account, f.symbol, f.side, f.quantity, f.price, f.fee,
                                           config.MultiplierFor(f.symbol)),
                      log := st.log.(fills := st.log.fills + [f]));
    if e.remainder > 0.0
    then booked.(pending := st.pending + [o.(quantity := e.remainder)])
    else booked.(trail := st.trail - {o.id})
  }

  function Reject<S>(strategy: Strategy<S>, st: State<S>, o: Order, reason: Reason): State<S> {
    st.(strategy := strategy.onRejected(st.strategy, o, reason),
        log := st.log.(rejected := st.log.rejected + [Rejection(o, reason)]))
  }

  /** One resting order meets the bar; st.pending collects the orders that stay. */
  function FillOrder<S>(env: Env<S>, tick: Tick, st: State<S>, o: Order): State<S> {
    if o.symbol !in tick.bars then st.(pending := st.pending + [o])
    else
      var (execution, trail) := TryFill(o, tick.bars[o.symbol], env.config, st.trail);
      match execution
      case None => st.(trail := trail, pending := st.pending + [o])
      case Some(e) =>
        var tried := st.(trail := trail, account := Touch(st.account, o.symbol));
        match Objection(env.config, tried.account, st.marks, e.fill)
        case Some(reason) => Reject(env.strategy, tried, o, reason)
        case None => Book(env.config, tried, o, e)
  }

  /** What becomes of an order that meets a bar: kept, rejected or booked. */
  lemma FillOutcome<S>(env: Env<S>, tick: Tick, st: State<S>, o: Order)
    ensures o.symbol !in tick.bars ==> FillOrder(env, tick, st, o) == st.(pending := st.pending + [o])
    ensures o.symbol in tick.bars ==>
              var (execution, trail) := TryFill(o, tick.bars[o.symbol], env.config, st.trail);
              var tried := st.(trail := trail, account := Touch(st.account, o.symbol));
              FillOrder(env, tick, st, o)
              == if execution.None? then st.(trail := trail, pending := st.pending + [o])
                 else
                   var reason := Objection(env.config, tried.account, st.marks, execution.value.fill);
                   if reason.Some? then Reject(env.strategy, tried, o, reason.value)
                   else Book(env.config, tried, o, execution.value)
  {
    hide TryFill, Touch, Objection, Reject, Book;
  }

  function FillOrders<S>(env: Env<S>, tick: Tick, st: State<S>, orders: seq<Order>): State<S>
    decreases |orders|
  {
    if orders == [] then st
    else FillOrders(env, tick, FillOrder(env, tick, st, orders[0]), orders[1..])
  }

  function FillPhase<S>(env: Env<S>, tick: Tick, st: State<S>): State<S> {
    FillOrders(env, tick, st.(pending := []), st.pending)
  }

  // ---------- (3) The strategy ----------

  function OptionChain(config: Config): map<Symbol, InstrumentMeta> {
    map s | s in config.instrumentMeta && config.IsOption(s) :: config.instrumentMeta[s]
  }

  function ContextOf<S>(env: Env<S>, tick: Tick, st: State<S>): BarContext {
    BarContext(tick.ts, tick.barCount, env.market.symbols, History(env.market, tick.ts),
               OpenQuantities(st.account.book), st.account.cash, st.pending,
               OptionChain(env.config), |st.log.submitted|)
  }

  function StrategyPhase<S>(env: Env<S>, tick: Tick, st: State<S>): State<S> {
    var response := env.strategy.onBar(st.strategy, ContextOf(env, tick, st));
    var orders := Submit(response.requests, tick.ts, tick.barCount, |st.log.submitted|);
    st.(strategy := response.state,
        pending := st.pending + orders,
        cancels := response.cancels,
        log := st.log.(submitted := st.log.submitted + orders, signals := st.log.signals + response.signals))
  }

  // ---------- (4) Mark to market ----------

  function EquityPhase<S>(tick: Tick, st: State<S>): State<S> {
    var value := MarkToMarket(st.account.book, st.marks);
    var point := EquityPoint(tick.ts, st.account.cash, value, st.account.cash + value);
    st.(log := st.log.(equity := st.log.equity + [point]))
  }

  // ---------- Runs ----------

  /** The state in which the bar's orders are about to be tried. */
  function BeforeFills<S>(env: Env<S>, tick: Tick, st: State<S>): State<S> {
    CancelPhase(env.strategy, ExpirePhase(env.strategy, tick, SettlePhase(env.config, tick, MarkPhase(tick, st))))
  }

  function Step<S>(env: Env<S>, tick: Tick, st: State<S>): State<S> {
    EquityPhase(tick, StrategyPhase(env, tick, FillPhase(env, tick, BeforeFills(env, tick, st))))
  }

  /** The state after the first k bars. */
  function Run<S>(env: Env<S>, k: nat): State<S>
    requires k <= |Timeline(env.market)|
  {
    if k == 0 then Initial(env)
    else Step(env, TickAt(env.market, k - 1, Timeline(env.market)[k - 1]), Run(env, k - 1))
  }

  /** The next state of a run is one step away. */
  lemma RunNext<S>(env: Env<S>, k: nat)
    requires k < |Timeline(env.market)|
    ensures Run(env, k + 1) == Step(env, TickAt(env.market, k, Timeline(env.market)[k]), Run(env, k))
  {
    hide Step, Timeline;
  }

  lemma RunStarts<S>(env: Env<S>)
    ensures Run(env, 0) == Initial(env)
  {
  }

  datatype BacktestResult<S> = BacktestResult(
    config: Config,
    fills: seq<Fill>,
    equityCurve: seq<EquityPoint>,
    finalCash: real,
    finalPositions: seq<Position>,
    rejected: seq<Rejection>,
    cancelled: seq<Order>,
    expired: seq<Order>,
    strategyState: S,
    signals: seq<SignalEvent>,
    ordersSubmitted: nat)

  function ResultOf<S>(config: Config, st: State<S>): BacktestResult<S> {
    BacktestResult(config, st.log.fills, st.log.equity, st.account.cash, st.account.book, st.log.rejected,
                   st.log.cancelled, st.log.expired, st.strategy, st.log.signals, |st.log.submitted|)
  }

  datatype InputError = NoSymbols | NoBars(symbol: Symbol) | EmptyBars(symbol: Symbol)

  /** The first complaint about the inputs, in symbol order. */
  function Complaint(frames: map<Symbol, seq<Bar>>, symbols: seq<Symbol>): Option<InputError> {
    if symbols == [] then None
    else if symbols[0] !in frames then Some(NoBars(symbols[0]))
    else if frames[symbols[0]] == [] then Some(EmptyBars(symbols[0]))
    else Complaint(frames, symbols[1..])
  }

  function ValidateInputs(m: Market): Option<InputError> {
    if m.symbols == [] then Some(NoSymbols) else Complaint(m.frames, m.symbols)
  }

  function Backtest<S>(env: Env<S>): Result<BacktestResult<S>, InputError> {
    match ValidateInputs(env.market)
    case Some(e) => Err(e)
    case None => Ok(ResultOf(env.config, Run(env, |Timeline(env.market)|)))
  }

  lemma {:induction false} ComplaintFree(frames: map<Symbol, seq<Bar>>, symbols: seq<Symbol>)
    ensures Complaint(frames, symbols).None? <==> forall s :: s in symbols ==> s in frames && frames[s] != []
  {
    if symbols == [] {
    } else {
      ComplaintFree(frames, symbols[1..]);
      assert forall s :: s in symbols <==> s == symbols[0] || s in symbols[1..];
    }
  }

  predicate HasBars(frames: map<Symbol, seq<Bar>>, s: Symbol) {
    s in frames && frames[s] != []
  }

  /** What is wrong with a symbol that has no bars. */
  function ErrorOf(frames: map<Symbol, seq<Bar>>, s: Symbol): InputError {
    if s in frames then EmptyBars(s) else NoBars(s)
  }

  /** The symbol at i is the first that has no bars. */
  predicate FirstWithout(frames: map<Symbol, seq<Bar>>, symbols: seq<Symbol>, i: int) {
    0 <= i < |symbols| && !HasBars(frames, symbols[i]) && forall j :: 0 <= j < i ==> HasBars(frames, symbols[j])
  }

  lemma {:induction false} ComplaintIsFirst(frames: map<Symbol, seq<Bar>>, symbols: seq<Symbol>, i: int)
    requires FirstWithout(frames, symbols, i)
    ensures Complaint(frames, symbols) == Some(ErrorOf(frames, symbols[i]))
  {
    if i > 0 {
      assert forall j :: 0 <= j < i - 1 ==> symbols[1..][j] == symbols[j + 1];
      ComplaintIsFirst(frames, symbols[1..], i - 1);
    }
  }

  /**
   Inputs are accepted exactly when there is a symbol and each symbol has a bar; otherwise the
   error is that there is no symbol, or it names the first symbol without bars.
   */
  lemma AcceptedIff(m: Market)
    ensures ValidateInputs(m).None? <==> m.symbols != [] && forall s :: s in m.symbols ==> HasBars(m.frames, s)
    ensures m.symbols == [] ==> ValidateInputs(m) == Some(NoSymbols)
    ensures forall i :: FirstWithout(m.frames, m.symbols, i) ==>
              ValidateInputs(m) == Some(ErrorOf(m.frames, m.symbols[i]))
  {
    ComplaintFree(m.frames, m.symbols);
    forall i | FirstWithout(m.frames, m.symbols, i)
      ensures ValidateInputs(m) == Some(ErrorOf(m.frames, m.symbols[i]))
    {
      ComplaintIsFirst(m.frames, m.symbols, i);
    }
  }
}
