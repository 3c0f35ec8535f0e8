/**
 The buying-power check: accepted extensions are covered, when reductions are accepted, and
 an account that cannot short stays long through every run.
 */
module Margin {
  import opened Prelude
  import opened Types
  import opened Fills
  import opened Accounts
  import opened Timelines
  import opened Engine
  import opened Orders
  import opened Ledger

  // ---------- Every state in which a run tries an order ----------

  /** The state within bar k after its first i resting orders have been tried. */
  function MidBar<S>(env: Env<S>, k: nat, i: nat): State<S>
    requires k < |Timeline(env.market)| && i <= |BarOrders(env, k)|
  {
    FillOrders(env, TickOf(env, k), Opening(env, k).(pending := []), BarOrders(env, k)[..i])
  }

  function TickOf<S>(env: Env<S>, k: nat): Tick
    requires k < |Timeline(env.market)|
  {
    TickAt(env.market, k, Timeline(env.market)[k])
  }

  /** The state in which bar k starts trying orders. */
  function Opening<S>(env: Env<S>, k: nat): State<S>
    requires k < |Timeline(env.market)|
  {
    BeforeFills(env, TickOf(env, k), Run(env, k))
  }

  function BarOrders<S>(env: Env<S>, k: nat): seq<Order>
    requires k < |Timeline(env.market)|
  {
    Opening(env, k).pending
  }

  lemma {:induction false} FillOrdersSnoc<S>(env: Env<S>, tick: Tick, st: State<S>, orders: seq<Order>, o: Order)
    ensures FillOrders(env, tick, st, orders + [o]) == FillOrder(env, tick, FillOrders(env, tick, st, orders), o)
    decreases |orders|
  {
    hide FillOrder;
    if orders == [] {
    } else {
      assert (orders + [o])[1..] == orders[1..] + [o];
      FillOrdersSnoc(env, tick, FillOrder(env, tick, st, orders[0]), orders[1..], o);
    }
  }

  /** Trying the next order is one step from one mid-bar state to the next. */
  lemma MidBarStep<S>(env: Env<S>, k: nat, i: nat)
    requires k < |Timeline(env.market)| && i < |BarOrders(env, k)|
    ensures MidBar(env, k, i + 1) == FillOrder(env, TickOf(env, k), MidBar(env, k, i), BarOrders(env, k)[i])
  {
    hide Opening, FillOrder;
    var orders := BarOrders(env, k);
    assert orders[..i + 1] == orders[..i] + [orders[i]];
    FillOrdersSnoc(env, TickOf(env, k), Opening(env, k).(pending := []), orders[..i], orders[i]);
  }

  lemma MidBarInOrder<S>(env: Env<S>, k: nat, i: nat)
    requires k < |Timeline(env.market)| && i <= |BarOrders(env, k)|
    ensures InOrder(env.config, MidBar(env, k, i))
    ensures TickOf(env, k).bars.Keys <= MidBar(env, k, i).marks.Keys
  {
    hide Run, BeforeFills, FillOrders, Reconciled, Marked;
    RunInOrder(env, k);
    BeforeFillsInOrder(env, TickOf(env, k), Run(env, k));
    FillsInOrder(env, TickOf(env, k), Opening(env, k).(pending := []), BarOrders(env, k)[..i]);
  }

  // ---------- The check ----------

  /** The marks the check uses: the fill price stands in for a missing mark. */
  function MarksWith(marks: map<Symbol, real>, f: Fill): map<Symbol, real> {
    marks[f.symbol := if f.symbol in marks then marks[f.symbol] else f.price]
  }

  predicate FillExtends(config: Config, a: Account, marks: map<Symbol, real>, f: Fill) {
    var held := Get(a.book, f.symbol).quantity;
    Extends(held, held + SignedQuantity(f), MarksWith(marks, f)[f.symbol], config.MultiplierFor(f.symbol))
  }

  function Applied(config: Config, a: Account, f: Fill): Account {
    ApplyFill(a, f.symbol, f.side, f.quantity, f.price, f.fee, config.MultiplierFor(f.symbol))
  }

  lemma CarriedMultiplier(p: Position, signed: real, m: real)
    requires Carries(p, m)
    ensures MultiplierAfter(p, signed, m) == m
  {
  }

  /** A fill that extends exposure passes the check exactly when shorting allows it and equity after it covers the margin. */
  lemma ExtensionPassesIff(config: Config, a: Account, marks: map<Symbol, real>, f: Fill)
    requires DistinctSymbols(a.book) && Carries(Get(a.book, f.symbol), config.MultiplierFor(f.symbol))
    requires FillExtends(config, a, marks, f)
    ensures var after := Applied(config, a, f);
            var now := MarksWith(marks, f);
            Objection(config, a, marks, f).None? <==>
              && (config.allowShort || Get(after.book, f.symbol).quantity >= 0.0)
              && Equity(after, now) >= config.marginRate * GrossExposure(after.book, now)
  {
    hide ApplyFill, Project, Equity, GrossExposure, ApplyToPosition, Objection;
    var m := config.MultiplierFor(f.symbol);
    var p := Get(a.book, f.symbol);
    var now := MarksWith(marks, f);
    ExtensionObjection(config, a, marks, f);
    CarriedMultiplier(p, SignedQuantity(f), m);
    ProjectionExact(a, f.symbol, f.side, f.quantity, f.price, f.fee, m, now);
    AppliedShape(a, f.symbol, f.side, f.quantity, f.price, f.fee, m);
    GetPut(a.book, ApplyToPosition(p, SignedQuantity(f), f.price, f.fee, m), f.symbol);
  }

  function Foretold(config: Config, a: Account, marks: map<Symbol, real>, f: Fill): Projection {
    var m := config.MultiplierFor(f.symbol);
    Project(a.book, a.cash - Notional(SignedQuantity(f), f.price, m) - f.fee, MarksWith(marks, f),
            f.symbol, Get(a.book, f.symbol).quantity + SignedQuantity(f), m)
  }

  lemma ExtensionObjection(config: Config, a: Account, marks: map<Symbol, real>, f: Fill)
    requires FillExtends(config, a, marks, f)
    ensures var p := Foretold(config, a, marks, f);
            Objection(config, a, marks, f).None? <==>
              && (config.allowShort || Get(a.book, f.symbol).quantity + SignedQuantity(f) >= 0.0)
              && p.equity >= config.marginRate * p.gross
  {
    hide Project, Notional;
  }

  lemma NotionalGrows(low: real, high: real, price: real, m: real)
    requires low <= high && price >= 0.0 && m >= 0.0
    ensures Notional(low, price, m) <= Notional(high, price, m)
    ensures low < high && price > 0.0 && m > 0.0 ==> Notional(low, price, m) < Notional(high, price, m)
  {
    var unit := price * m;
    NonNegativeTimes(price, m);
    NotionalGap(low, high, price, m, unit);
    hide *;
    GapSign(Notional(low, price, m), Notional(high, price, m), high - low, unit);
  }

  lemma GapSign(a: real, b: real, x: real, unit: real)
    requires b - a == x * unit && x >= 0.0 && unit >= 0.0
    ensures a <= b
    ensures x > 0.0 && unit > 0.0 ==> a < b
  {
    NonNegativeTimes(x, unit);
  }

  lemma NotionalGap(low: real, high: real, price: real, m: real, unit: real)
    requires unit == price * m
    ensures Notional(high, price, m) - Notional(low, price, m) == (high - low) * unit
  {
  }

  /**
   The margin check decides on the true outcome. Whenever a run tries an order that fills
   and the fill extends exposure, the check accepts exactly when the account after the
   fill meets the shorting rule and its equity covers marginRate times its gross exposure.
   */
  lemma MarginCheckIsExact<S>(env: Env<S>, k: nat, i: nat, f: Fill)
    requires k < |Timeline(env.market)| && i <= |BarOrders(env, k)|
    requires var st := MidBar(env, k, i);
             f.symbol in st.marks && FillExtends(env.config, Touch(st.account, f.symbol), st.marks, f)
    ensures var st := MidBar(env, k, i);
            var after := Applied(env.config, Touch(st.account, f.symbol), f);
            Objection(env.config, Touch(st.account, f.symbol), st.marks, f).None? <==>
              && (env.config.allowShort || Get(after.book, f.symbol).quantity >= 0.0)
              && Equity(after, st.marks) >= env.config.marginRate * GrossExposure(after.book, st.marks)
  {
    hide MidBar, BarOrders, InOrder, Touch, FillExtends, Applied, Objection, Equity, GrossExposure, Timeline;
    MidBarInOrder(env, k, i);
    var st := MidBar(env, k, i);
    TouchedStanding(env.config, st, f.symbol);
    assert MarksWith(st.marks, f) == st.marks;
    ExtensionPassesIff(env.config, Touch(st.account, f.symbol), st.marks, f);
  }

  lemma TouchedStanding<S>(config: Config, st: State<S>, symbol: Symbol)
    requires InOrder(config, st)
    ensures var book := Touch(st.account, symbol).book;
            DistinctSymbols(book) && Carries(Get(book, symbol), config.MultiplierFor(symbol))
  {
    hide Touch;
    TouchReconciles(config, st.account, st.log.fills, symbol);
    assert Agrees(config, st.log.fills, Get(Touch(st.account, symbol).book, symbol));
  }

  // ---------- Exposure ----------

  function IsLong(): Position -> bool {
    (p: Position) => p.quantity > 0.0
  }

  function IsShort(): Position -> bool {
    (p: Position) => p.quantity < 0.0
  }

  lemma UnitValue(marks: map<Symbol, real>, p: Position)
    requires p.symbol in marks ==> marks[p.symbol] * p.multiplier >= 0.0
    ensures p.quantity > 0.0 ==> Exposure(marks)(p) == MarketValue(marks)(p)
    ensures p.quantity < 0.0 ==> Exposure(marks)(p) == -MarketValue(marks)(p)
    ensures p.quantity == 0.0 ==> Exposure(marks)(p) == 0.0 == MarketValue(marks)(p)
  {
    if p.symbol in marks {
      var unit := marks[p.symbol] * p.multiplier;
      assert Notional(p.quantity, marks[p.symbol], p.multiplier) == p.quantity * unit;
      if p.quantity > 0.0 {
        NonNegativeTimes(p.quantity, unit);
      } else {
        NonNegativeTimes(-p.quantity, unit);
        assert -p.quantity * unit == -(p.quantity * unit);
      }
    }
  }

  /** Where units are worth something, gross exposure is the value of the longs less the value of the shorts, and net is their sum. */
  lemma {:induction false} GrossIsLongLessShort(book: seq<Position>, marks: map<Symbol, real>)
    requires forall p :: p in book && p.symbol in marks ==> marks[p.symbol] * p.multiplier >= 0.0
    ensures var longs, shorts := MarkToMarket(Filter(book, IsLong()), marks), MarkToMarket(Filter(book, IsShort()), marks);
            GrossExposure(book, marks) == longs - shorts && MarkToMarket(book, marks) == longs + shorts
  {
    if book == [] {
    } else {
      var p, longs, shorts := book[0], Filter(book[1..], IsLong()), Filter(book[1..], IsShort());
      assert p in book;
      GrossIsLongLessShort(book[1..], marks);
      UnitValue(marks, p);
      assert ([p] + longs)[1..] == longs && ([p] + shorts)[1..] == shorts;
      hide ValueAt;
    }
  }

  lemma SquaresGrow(x: real, y: real)
    requires x >= 0.0 && y >= 0.0
    ensures x > y <==> x * x > y * y
  {
    var gap, total := x - y, x + y;
    assert gap * total == x * x - y * y;
    if x > y {
      NonNegativeTimes(gap, total);
    } else {
      NonNegativeTimes(-gap, total);
      assert -gap * total == -(gap * total);
    }
  }

  /** Where a unit is worth something a fill extends exposure exactly when it takes the position further from zero. */
  lemma ExtendsIff(held: real, after: real, mark: real, m: real)
    requires mark * m > 0.0
    ensures Extends(held, after, mark, m) <==> after * after > held * held
  {
    NotionalGap(Abs(held), Abs(after), mark, m, mark * m);
    SignOfGap(Abs(after) - Abs(held), mark * m);
    SquaresGrow(Abs(after), Abs(held));
    assert Abs(after) * Abs(after) == after * after && Abs(held) * Abs(held) == held * held;
    hide Notional, Abs;
  }

  lemma SignOfGap(x: real, unit: real)
    requires unit > 0.0
    ensures x * unit > 0.0 <==> x > 0.0
  {
  }

  /** A refusal tells the truth: the position it would make, or the equity and exposure after the fill and the rate they fail. */
  predicate IsTrue(config: Config, a: Account, marks: map<Symbol, real>, f: Fill, reason: Reason) {
    match reason
    case ShortingDisabled(quantity, wouldBe, held) =>
      !config.allowShort && quantity == f.quantity && held == Get(a.book, f.symbol).quantity && wouldBe == held + SignedQuantity(f) < 0.0
    case BuyingPower(equity, rate, gross) =>
      && rate == config.marginRate && equity < rate * gross
      && equity == Equity(Applied(config, a, f), marks) && gross == GrossExposure(Applied(config, a, f).book, marks)
  }

  lemma RefusalIsTrue(config: Config, a: Account, marks: map<Symbol, real>, f: Fill)
    requires DistinctSymbols(a.book) && Carries(Get(a.book, f.symbol), config.MultiplierFor(f.symbol)) && f.symbol in marks
    requires FillRefused(config, a, marks, f)
    ensures IsTrue(config, a, marks, f, Objection(config, a, marks, f).value)
  {
    hide ApplyFill, Project, Equity, GrossExposure, ApplyToPosition, Notional, Get, Config.MultiplierFor;
    var m := config.MultiplierFor(f.symbol);
    var p := Get(a.book, f.symbol);
    CarriedMultiplier(p, SignedQuantity(f), m);
    ProjectionExact(a, f.symbol, f.side, f.quantity, f.price, f.fee, m, marks);
    MarksHeld(marks, f);
  }

  predicate FillRefused(config: Config, a: Account, marks: map<Symbol, real>, f: Fill) {
    Objection(config, a, marks, f).Some?
  }

  // ---------- Long-only runs ----------

  ghost predicate LongOnly(book: seq<Position>) {
    forall s: Symbol :: Get(book, s).quantity >= 0.0
  }

  lemma AppliedLongOnly(a: Account, symbol: Symbol, side: Side, quantity: real, price: real, fee: real, m: real)
    requires LongOnly(a.book) && Get(a.book, symbol).quantity + Signed(side, quantity) >= 0.0
    ensures LongOnly(ApplyFill(a, symbol, side, quantity, price, fee, m).book)
  {
    AppliedShape(a, symbol, side, quantity, price, fee, m);
    var q := ApplyToPosition(Get(a.book, symbol), Signed(side, quantity), price, fee, m);
    forall s: Symbol ensures Get(Put(a.book, q), s).quantity >= 0.0 {
      GetPut(a.book, q, s);
    }
  }

  lemma TouchLongOnly(a: Account, symbol: Symbol)
    requires LongOnly(a.book)
    ensures LongOnly(Touch(a, symbol).book)
    ensures Get(Touch(a, symbol).book, symbol) == Get(a.book, symbol)
  {
    forall s: Symbol ensures Get(Touch(a, symbol).book, s) == Get(a.book, s) {
      GetPut(a.book, Get(a.book, symbol), s);
    }
  }

  lemma {:induction false} SettleLongOnly<S>(config: Config, tick: Tick, st: State<S>, symbols: seq<Symbol>)
    requires LongOnly(st.account.book)
    ensures LongOnly(SettleAll(config, tick, st, symbols).account.book)
    decreases |symbols|
  {
    if symbols == [] {
    } else {
      var s := symbols[0];
      if Settles(config, tick, st, s) {
        var f := SettlementFill(config, tick, st, s);
        AppliedLongOnly(st.account, s, Sell, f.quantity, f.price, f.fee, Get(st.account.book, s).multiplier);
      }
      hide ApplyFill;
      SettleLongOnly(config, tick, SettleOne(config, tick, st, s), symbols[1..]);
    }
  }

  lemma ShortRefused(config: Config, a: Account, marks: map<Symbol, real>, f: Fill)
    requires !config.allowShort && Objection(config, a, marks, f).None?
    ensures Get(a.book, f.symbol).quantity + SignedQuantity(f) >= 0.0
  {
    hide Project, Notional, Get;
  }

  lemma FillOrderLongOnly<S>(env: Env<S>, tick: Tick, st: State<S>, o: Order)
    requires LongOnly(st.account.book) && !env.config.allowShort
    ensures LongOnly(FillOrder(env, tick, st, o).account.book)
  {
    hide ApplyFill, Touch, TryFill, Objection, FillOrder, LongOnly;
    FillOutcome(env, tick, st, o);
    if o.symbol in tick.bars {
      TouchLongOnly(st.account, o.symbol);
      var execution := TryFill(o, tick.bars[o.symbol], env.config, st.trail).0;
      if execution.Some? {
        var f := execution.value.fill;
        FillNamesOrder(o, tick.bars[o.symbol], env.config, st.trail);
        if Objection(env.config, Touch(st.account, o.symbol), st.marks, f).None? {
          ShortRefused(env.config, Touch(st.account, o.symbol), st.marks, f);
        }
        if Get(st.account.book, o.symbol).quantity + SignedQuantity(f) >= 0.0 {
          AppliedLongOnly(Touch(st.account, o.symbol), f.symbol, f.side, f.quantity, f.price, f.fee,
                          env.config.MultiplierFor(f.symbol));
        }
      }
    }
  }

  lemma {:induction false} FillsLongOnly<S>(env: Env<S>, tick: Tick, st: State<S>, orders: seq<Order>)
    requires LongOnly(st.account.book) && !env.config.allowShort
    ensures LongOnly(FillOrders(env, tick, st, orders).account.book)
    decreases |orders|
  {
    hide FillOrder, LongOnly;
    if orders == [] {
    } else {
      FillOrderLongOnly(env, tick, st, orders[0]);
      FillsLongOnly(env, tick, FillOrder(env, tick, st, orders[0]), orders[1..]);
    }
  }

  lemma StepLongOnly<S>(env: Env<S>, tick: Tick, st: State<S>)
    requires LongOnly(st.account.book) && !env.config.allowShort
    ensures LongOnly(Step(env, tick, st).account.book)
  {
    hide LongOnly, SettleAll, FillOrders, SymbolsOf, MarkToMarket, ContextOf, Submit, Notify;
    var marked := MarkPhase(tick, st);
    SettleLongOnly(env.config, tick, marked, SymbolsOf(marked.account.book));
    var before := BeforeFills(env, tick, st);
    FillsLongOnly(env, tick, before.(pending := []), before.pending);
  }

  lemma {:induction false} RunLongOnly<S>(env: Env<S>, k: nat)
    requires k <= |Timeline(env.market)| && !env.config.allowShort
    ensures LongOnly(Run(env, k).account.book)
  {
    hide Run, Step, Timeline, LongOnly;
    if k == 0 {
      RunStarts(env);
      NothingHeldIsLong();
    } else {
      RunLongOnly(env, k - 1);
      RunNext(env, k - 1);
      StepLongOnly(env, TickAt(env.market, k - 1, Timeline(env.market)[k - 1]), Run(env, k - 1));
    }
  }

  lemma NothingHeldIsLong()
    ensures LongOnly([])
  {
  }

  lemma MidBarLongOnly<S>(env: Env<S>, k: nat, i: nat)
    requires k < |Timeline(env.market)| && i <= |BarOrders(env, k)| && !env.config.allowShort
    ensures LongOnly(MidBar(env, k, i).account.book)
  {
    hide Run, LongOnly, SettleAll, FillOrders;
    RunLongOnly(env, k);
    var marked := MarkPhase(TickOf(env, k), Run(env, k));
    SettleLongOnly(env.config, TickOf(env, k), marked, SymbolsOf(marked.account.book));
    FillsLongOnly(env, TickOf(env, k), Opening(env, k).(pending := []), BarOrders(env, k)[..i]);
  }

  // ---------- Prices ----------

  predicate PositiveBar(b: Bar) {
    b.open > 0.0 && b.high > 0.0 && b.low > 0.0 && b.close > 0.0
  }

  ghost predicate PositiveMarket(m: Market) {
    forall s, b :: s in m.frames && b in m.frames[s] ==> PositiveBar(b)
  }

  predicate PositiveMarks(marks: map<Symbol, real>) {
    forall s :: s in marks ==> marks[s] > 0.0
  }

  lemma TicksPositive(m: Market, barCount: nat, ts: int)
    requires PositiveMarket(m)
    ensures forall s :: s in TickAt(m, barCount, ts).bars ==> PositiveBar(TickAt(m, barCount, ts).bars[s])
  {
  }

  lemma {:induction false} RunMarksPositive<S>(env: Env<S>, k: nat)
    requires k <= |Timeline(env.market)| && PositiveMarket(env.market)
    ensures PositiveMarks(Run(env, k).marks)
  {
    hide Run, Step, Timeline, PositiveMarket, BeforeFills;
    if k == 0 {
      RunStarts(env);
    } else {
      RunMarksPositive(env, k - 1);
      RunNext(env, k - 1);
      StepMarksPositive(env, k - 1, Timeline(env.market)[k - 1], Run(env, k - 1));
    }
  }

  lemma StepMarksPositive<S>(env: Env<S>, barCount: nat, ts: int, st: State<S>)
    requires PositiveMarket(env.market) && PositiveMarks(st.marks)
    ensures var tick := TickAt(env.market, barCount, ts);
            && PositiveMarks(BeforeFills(env, tick, st).marks)
            && Step(env, tick, st).marks == BeforeFills(env, tick, st).marks
  {
    hide SettleAll, FillOrders, TickAt;
    var tick := TickAt(env.market, barCount, ts);
    TicksPositive(env.market, barCount, ts);
    var marked := MarkPhase(tick, st);
    SettleKeepsMarks(env.config, tick, marked, SymbolsOf(marked.account.book));
    var before := BeforeFills(env, tick, st);
    FillsKeepMarks(env, tick, before.(pending := []), before.pending);
  }

  lemma {:induction false} FillsKeepMarks<S>(env: Env<S>, tick: Tick, st: State<S>, orders: seq<Order>)
    ensures FillOrders(env, tick, st, orders).marks == st.marks
    decreases |orders|
  {
    if orders == [] {
    } else {
      FillsKeepMarks(env, tick, FillOrder(env, tick, st, orders[0]), orders[1..]);
    }
  }

  lemma MidBarMarksPositive<S>(env: Env<S>, k: nat, i: nat)
    requires k < |Timeline(env.market)| && i <= |BarOrders(env, k)| && PositiveMarket(env.market)
    ensures PositiveMarks(MidBar(env, k, i).marks)
  {
    hide Run, BeforeFills, FillOrders, Step;
    RunMarksPositive(env, k);
    StepMarksPositive(env, k, Timeline(env.market)[k], Run(env, k));
    FillsKeepMarks(env, TickOf(env, k), Opening(env, k).(pending := []), BarOrders(env, k)[..i]);
  }

  lemma ProductNegativeIff(x: real, unit: real)
    requires x >= 0.0
    ensures x * unit < 0.0 <==> x > 0.0 && unit < 0.0
  {
    if unit < 0.0 {
      NonNegativeTimes(x, -unit);
      assert x * -unit == -(x * unit);
    } else {
      NonNegativeTimes(x, unit);
    }
  }

  predicate Shrinks(held: real, after: real) {
    (held >= after >= 0.0) || (held <= after <= 0.0)
  }

  /** A reduction raises the measured exposure exactly when a unit of the symbol is worth less than nothing. */
  lemma ShrinkExtendsIff(held: real, after: real, mark: real, m: real)
    requires Shrinks(held, after)
    ensures Extends(held, after, mark, m) <==> mark * m < 0.0 && after != held
  {
    var unit := mark * m;
    NotionalGap(Abs(after), Abs(held), mark, m, unit);
    ProductNegativeIff(Abs(held) - Abs(after), unit);
    hide Notional;
  }

  lemma NoExtensionObjection(config: Config, a: Account, marks: map<Symbol, real>, f: Fill)
    requires !FillExtends(config, a, marks, f)
    ensures Objection(config, a, marks, f).None? <==>
              config.allowShort || Get(a.book, f.symbol).quantity + SignedQuantity(f) >= 0.0
  {
    hide Project, Notional;
  }

  /** A unit of the symbol is worth something, or the fill changes nothing, or the account after it covers its margin. */
  predicate ReductionCovered(config: Config, a: Account, marks: map<Symbol, real>, f: Fill)
    requires f.symbol in marks
  {
    || marks[f.symbol] * config.MultiplierFor(f.symbol) >= 0.0
    || SignedQuantity(f) == 0.0
    || Equity(Applied(config, a, f), marks) >= config.marginRate * GrossExposure(Applied(config, a, f).book, marks)
  }

  /**
   A reduction that does not cross zero passes the check exactly when the shorting ban leaves
   the position alone and the reduction is covered, at any mark and any multiplier.
   */
  lemma ShrinkPassesIff(config: Config, a: Account, marks: map<Symbol, real>, f: Fill)
    requires DistinctSymbols(a.book) && Carries(Get(a.book, f.symbol), config.MultiplierFor(f.symbol))
    requires var held := Get(a.book, f.symbol).quantity;
             Shrinks(held, held + SignedQuantity(f))
    ensures Objection(config, a, marks, f).None? <==>
              && (config.allowShort || Get(a.book, f.symbol).quantity + SignedQuantity(f) >= 0.0)
              && ReductionCovered(config, a, MarksWith(marks, f), f)
  {
    hide Objection, Applied, Equity, GrossExposure, Get, Put, Extends;
    var held := Get(a.book, f.symbol).quantity;
    ShrinkExtendsIff(held, held + SignedQuantity(f), MarksWith(marks, f)[f.symbol], config.MultiplierFor(f.symbol));
    AppliedQuantity(config, a, f);
    if FillExtends(config, a, marks, f) {
      ExtensionPassesIff(config, a, marks, f);
    } else {
      NoExtensionObjection(config, a, marks, f);
    }
  }

  /**
   When a reduction is accepted, in every run over any prices and multipliers: always, unless
   a unit of the symbol is worth less than nothing, and then exactly when the account after
   it covers its margin.
   */
  lemma ShrinkingAcceptedIff<S>(env: Env<S>, k: nat, i: nat, f: Fill)
    requires k < |Timeline(env.market)| && i <= |BarOrders(env, k)|
    requires f.symbol in MidBar(env, k, i).marks
    requires var held := Get(MidBar(env, k, i).account.book, f.symbol).quantity;
             Shrinks(held, held + SignedQuantity(f))
    ensures var st := MidBar(env, k, i);
            var touched := Touch(st.account, f.symbol);
            Objection(env.config, touched, st.marks, f).None? <==> ReductionCovered(env.config, touched, st.marks, f)
  {
    hide *;
    MidBarInOrder(env, k, i);
    if !env.config.allowShort {
      MidBarLongOnly(env, k, i);
      OneIsLong(MidBar(env, k, i).account.book, f.symbol);
    }
    var st := MidBar(env, k, i);
    TouchedStanding(env.config, st, f.symbol);
    TouchedSame(st.account, f.symbol);
    MarksHeld(st.marks, f);
    ShrinkPassesIff(env.config, Touch(st.account, f.symbol), st.marks, f);
    ShrinksSameSign(Get(st.account.book, f.symbol).quantity, Get(st.account.book, f.symbol).quantity + SignedQuantity(f));
  }

  lemma MarksHeld(marks: map<Symbol, real>, f: Fill)
    requires f.symbol in marks
    ensures MarksWith(marks, f) == marks
  {
  }

  lemma ShrinksSameSign(held: real, after: real)
    requires Shrinks(held, after)
    ensures held >= 0.0 ==> after >= 0.0
  {
  }

  lemma TouchedSame(a: Account, s: Symbol)
    ensures Get(Touch(a, s).book, s) == Get(a.book, s)
  {
    GetPut(a.book, Get(a.book, s), s);
  }

  lemma OneIsLong(book: seq<Position>, s: Symbol)
    requires LongOnly(book)
    ensures Get(book, s).quantity >= 0.0
  {
  }

  lemma AppliedQuantity(config: Config, a: Account, f: Fill)
    ensures Get(Applied(config, a, f).book, f.symbol).quantity == Get(a.book, f.symbol).quantity + SignedQuantity(f)
  {
    var m := config.MultiplierFor(f.symbol);
    AppliedShape(a, f.symbol, f.side, f.quantity, f.price, f.fee, m);
    GetPut(a.book, ApplyToPosition(Get(a.book, f.symbol), SignedQuantity(f), f.price, f.fee, m), f.symbol);
  }

  /**
   Reductions need no margin. In every run over positive prices and multipliers, a fill that
   shrinks or closes a position without changing its sign is never refused.
   */
  lemma ShrinkingNeverRefused<S>(env: Env<S>, k: nat, i: nat, f: Fill)
    requires k < |Timeline(env.market)| && i <= |BarOrders(env, k)|
    requires PositiveMarket(env.market) && env.config.MultiplierFor(f.symbol) >= 0.0
    requires f.symbol in MidBar(env, k, i).marks
    requires var held := Get(MidBar(env, k, i).account.book, f.symbol).quantity;
             Shrinks(held, held + SignedQuantity(f))
    ensures Objection(env.config, Touch(MidBar(env, k, i).account, f.symbol), MidBar(env, k, i).marks, f).None?
  {
    hide *;
    MidBarMarksPositive(env, k, i);
    ShrinkingAcceptedIff(env, k, i, f);
    WorthSomething(env.config, Touch(MidBar(env, k, i).account, f.symbol), MidBar(env, k, i).marks, f);
  }

  lemma WorthSomething(config: Config, a: Account, marks: map<Symbol, real>, f: Fill)
    requires f.symbol in marks && PositiveMarks(marks) && config.MultiplierFor(f.symbol) >= 0.0
    ensures ReductionCovered(config, a, marks, f)
  {
    NonNegativeTimes(marks[f.symbol], config.MultiplierFor(f.symbol));
  }
}
