/**
 Runs that trade one unit of one symbol at one price and no cost, worked out in closed form,
 and two of them in which the repository's text does not hold: an option bought back after
 its settlement, and a trade across a walk-forward cut.
 */
module UnitTrades {
  import opened Prelude
  import opened Types
  import opened Fills
  import opened Accounts
  import opened Timelines
  import opened Engine
  import opened Witnesses

  // ---------- Unit-trading runs ----------

  /** A symbol at a constant price, the timestamps of its bars, the cash to start with and the script of requests. */
  datatype Shop = Shop(symbol: Symbol, price: real, stamps: seq<int>, cash: real, meta: map<Symbol, InstrumentMeta>,
                       requests: nat -> seq<OrderRequest>)

  function NoCancels(): nat -> set<nat> {
    (bar: nat) => {}
  }

  function EnvOf(s: Shop): Env<int> {
    Env(FreeConfig(s.cash, s.meta), FlatMarket(s.symbol, s.stamps, s.price), Scripted(s.requests, NoCancels()))
  }

  predicate Sane(s: Shop) {
    && s.price > 0.0 && StrictlyIncreasing(s.stamps)
    && (s.symbol in s.meta ==> s.meta[s.symbol].multiplier == 1.0 && s.meta[s.symbol].underlying.None?)
  }

  datatype Hold = Nothing | Flat | Holding

  function BookOf(s: Shop, h: Hold): seq<Position> {
    match h
    case Nothing => []
    case Flat => [Position(s.symbol, 0.0, 0.0, 0.0, 1.0)]
    case Holding => [Position(s.symbol, 1.0, s.price, 0.0, 1.0)]
  }

  /** What there is to say about such a run after some bars. */
  datatype Tally = Tally(hold: Hold, cash: real, pending: seq<Order>, settled: set<Symbol>, fills: seq<Fill>,
                         equity: seq<EquityPoint>, submitted: seq<Order>)

  function StateOf(s: Shop, t: Tally): State<int> {
    State(0, Account(t.cash, BookOf(s, t.hold)), t.pending, map[s.symbol := s.price], map[], {}, t.settled,
          Log(t.fills, t.equity, [], [], [], [], t.submitted))
  }

  function OneUnit(symbol: Symbol, side: Side): OrderRequest {
    OrderRequest(symbol, side, 1.0, MarketOrder, None, [])
  }

  function OneOrder(symbol: Symbol, side: Side, ts: int, id: nat): Order {
    Order(symbol, side, 1.0, MarketOrder, ts, id, None, [])
  }

  function OneFillOf(o: Order, ts: int, price: real): Fill {
    Fill(OrderId(o.id), o.symbol, o.side, MARKET, 1.0, price, 0.0, ts, o.submittedTs, false, [])
  }

  /** After the settlement of bar k. */
  function Settled(s: Shop, t: Tally, k: nat): Tally
    requires k < |s.stamps|
  {
    if t.hold.Holding? && s.symbol !in t.settled && OptionExpired(FreeConfig(s.cash, s.meta), s.symbol, s.stamps[k]) then
      t.(hold := Flat, cash := t.cash + s.price, settled := t.settled + {s.symbol},
         fills := t.fills + [Fill(Expiry(s.symbol, k), s.symbol, Sell, MARKET, 1.0, s.price, 0.0,
                                  s.stamps[k], s.stamps[k], false, [])])
    else t
  }

  /** At most one unit order rests; it buys with enough cash when nothing is held, or sells what is held. */
  predicate Ready(s: Shop, t: Tally) {
    t.pending == []
    || (|t.pending| == 1
        && t.pending[0] == OneOrder(s.symbol, t.pending[0].side, t.pending[0].submittedTs, t.pending[0].id)
        && if t.pending[0].side == Buy then !t.hold.Holding? && t.cash >= s.price else t.hold.Holding?)
  }

  /** After the fills of bar k. */
  function Filled(s: Shop, t: Tally, k: nat): Tally
    requires k < |s.stamps|
  {
    if t.pending == [] then t
    else
      var o := t.pending[0];
      t.(hold := if o.side == Buy then Holding else Flat,
         cash := if o.side == Buy then t.cash - s.price else t.cash + s.price,
         pending := [],
         fills := t.fills + [OneFillOf(o, s.stamps[k], s.price)])
  }

  /** After the script's orders and the equity point of bar k. */
  function Ended(s: Shop, t: Tally, k: nat): Tally
    requires k < |s.stamps|
  {
    var orders := Submit(s.requests(k), s.stamps[k], k, |t.submitted|);
    var value := if t.hold.Holding? then s.price else 0.0;
    t.(pending := t.pending + orders, submitted := t.submitted + orders,
       equity := t.equity + [EquityPoint(s.stamps[k], t.cash, value, t.cash + value)])
  }

  // ---------- One bar ----------

  lemma OneValue(s: Shop, h: Hold)
    ensures MarkToMarket(BookOf(s, h), map[s.symbol := s.price]) == if h.Holding? then s.price else 0.0
  {
    var marks := map[s.symbol := s.price];
    if h != Nothing {
      var p := BookOf(s, h)[0];
      assert [p][1..] == [] && Sum([], MarketValue(marks)) == 0.0;
      assert MarketValue(marks)(p) == if h.Holding? then s.price else 0.0;
    }
  }

  lemma Buys(s: Shop, h: Hold)
    requires !h.Holding?
    ensures var p := if h.Nothing? then ZeroPosition(s.symbol) else BookOf(s, h)[0];
            [ApplyToPosition(p, 1.0, s.price, 0.0, 1.0)] == BookOf(s, Holding)
    ensures Notional(1.0, s.price, 1.0) == s.price
  {
  }

  lemma Sells(s: Shop)
    ensures [ApplyToPosition(BookOf(s, Holding)[0], -1.0, s.price, 0.0, 1.0)] == BookOf(s, Flat)
    ensures Notional(-1.0, s.price, 1.0) == -s.price
  {
    assert Notional(1.0, s.price - s.price, 1.0) == 0.0;
  }

  lemma SettleOnly(config: Config, tick: Tick, st: State<int>, p: Position)
    requires st.account.book == [p]
    ensures SettlePhase(config, tick, st) == SettleOne(config, tick, st, p.symbol)
  {
    hide SettleOne;
    assert [p][1..] == [] && SymbolsOf([]) == [];
    assert SymbolsOf([p]) == [p.symbol];
    var next := SettleOne(config, tick, st, p.symbol);
    assert [p.symbol][1..] == [] && SettleAll(config, tick, next, []) == next;
  }

  lemma UnitMultiplier(s: Shop)
    requires Sane(s)
    ensures FreeConfig(s.cash, s.meta).MultiplierFor(s.symbol) == 1.0
  {
  }

  lemma ShopSettles(s: Shop, t: Tally, k: nat)
    requires Sane(s) && k < |s.stamps|
    ensures SettlePhase(FreeConfig(s.cash, s.meta), FlatTick(s.symbol, s.stamps, s.price, k), StateOf(s, t))
         == StateOf(s, Settled(s, t, k))
  {
    var config, tick, st := FreeConfig(s.cash, s.meta), FlatTick(s.symbol, s.stamps, s.price, k), StateOf(s, t);
    if t.hold.Nothing? {
    } else {
      var p := BookOf(s, t.hold)[0];
      SettleOnly(config, tick, st, p);
      Sells(s);
      hide SettlePhase, ApplyToPosition, Notional, OptionExpired, FreeConfig;
      assert Get([p], s.symbol) == p && Put([p], BookOf(s, Flat)[0]) == BookOf(s, Flat);
    }
  }

  lemma FreeFill(s: Shop, o: Order, ts: int, trail: map<nat, real>)
    requires o == OneOrder(s.symbol, o.side, o.submittedTs, o.id)
    ensures TryFill(o, FlatBar(ts, s.price), FreeConfig(s.cash, s.meta), trail)
         == (Some(Execution(OneFillOf(o, ts, s.price), 0.0)), trail)
  {
    var config, price := FreeConfig(s.cash, s.meta), s.price;
    assert config.Slippage() == 0.0 && price * (1.0 + 0.0) == price && price * (1.0 - 0.0) == price;
    assert config.FeeRate() == 0.0 && price * 1.0 * 0.0 == 0.0;
  }

  /** The account after a lookup of the symbol. */
  function Looked(s: Shop, t: Tally): Account {
    Account(t.cash, if t.hold.Nothing? then [ZeroPosition(s.symbol)] else BookOf(s, t.hold))
  }

  lemma LookedUp(s: Shop, t: Tally)
    ensures Touch(StateOf(s, t).account, s.symbol) == Looked(s, t)
  {
  }

  lemma NoObjection(s: Shop, t: Tally, f: Fill)
    requires Sane(s) && f.symbol == s.symbol && f.quantity == 1.0 && f.price == s.price && f.fee == 0.0
    requires if f.side == Buy then !t.hold.Holding? && t.cash >= s.price else t.hold.Holding?
    ensures Objection(FreeConfig(s.cash, s.meta), Looked(s, t), map[s.symbol := s.price], f).None?
  {
    UnitMultiplier(s);
    var marks, p := map[s.symbol := s.price], Looked(s, t).book[0];
    assert Get(Looked(s, t).book, s.symbol) == p;
    assert Notional(1.0, s.price, 1.0) == s.price && Notional(0.0, s.price, 1.0) == 0.0;
    if f.side == Buy {
      var target := p.(quantity := 1.0);
      assert marks[s.symbol := s.price] == marks;
      ProjectIsOverwrite([p], t.cash - s.price, marks, target);
      assert Put([p], target) == [target];
      hide Notional;
      assert Sum([target], MarketValue(marks)) == s.price && Sum([target], Exposure(marks)) == s.price;
    }
  }

  lemma NoMark(trail: map<nat, real>, id: nat)
    requires trail == map[]
    ensures trail - {id} == trail
  {
  }

  lemma ShopFills(s: Shop, t: Tally, k: nat)
    requires Sane(s) && k < |s.stamps| && Ready(s, t)
    ensures FillPhase(EnvOf(s), FlatTick(s.symbol, s.stamps, s.price, k), StateOf(s, t)) == StateOf(s, Filled(s, t, k))
  {
    var env, tick, st := EnvOf(s), FlatTick(s.symbol, s.stamps, s.price, k), StateOf(s, t);
    if t.pending == [] {
      NoFill(env, tick, st);
    } else {
      var o := t.pending[0];
      assert t.pending == [o];
      OneFill(env, tick, st, o);
      OneOrderFills(s, t.(pending := []), o, k);
    }
  }

  lemma OneOrderFills(s: Shop, t: Tally, o: Order, k: nat)
    requires Sane(s) && k < |s.stamps| && t.pending == [] && Ready(s, t.(pending := [o]))
    ensures FillOrder(EnvOf(s), FlatTick(s.symbol, s.stamps, s.price, k), StateOf(s, t), o)
         == StateOf(s, Filled(s, t.(pending := [o]), k))
  {
    var f := OneFillOf(o, s.stamps[k], s.price);
    FreeFill(s, o, s.stamps[k], map[]);
    LookedUp(s, t);
    NoObjection(s, t, f);
    UnitMultiplier(s);
    NoMark(map[], o.id);
    if o.side == Buy {
      Buys(s, t.hold);
    } else {
      Sells(s);
    }
    OneApplied(s, t, o.side);
    hide TryFill, Objection, Touch, FreeConfig, ApplyFill;
  }

  lemma OneApplied(s: Shop, t: Tally, side: Side)
    requires if side == Buy then !t.hold.Holding? else t.hold.Holding?
    ensures ApplyFill(Looked(s, t), s.symbol, side, 1.0, s.price, 0.0, 1.0)
         == Account(if side == Buy then t.cash - s.price else t.cash + s.price, BookOf(s, if side == Buy then Holding else Flat))
  {
    if side == Buy {
      Buys(s, t.hold);
    } else {
      Sells(s);
    }
    hide ApplyToPosition, Notional;
    var p := Looked(s, t).book[0];
    assert Get([p], s.symbol) == p;
  }

  lemma ShopOpens(s: Shop, t: Tally, k: nat)
    requires Sane(s) && k < |s.stamps| && Ready(s, Settled(s, t, k)) && forall o :: o in t.pending ==> o.expiresAt.None?
    ensures BeforeFills(EnvOf(s), FlatTick(s.symbol, s.stamps, s.price, k), StateOf(s, t)) == StateOf(s, Settled(s, t, k))
  {
    hide MarkPhase, SettlePhase, ExpirePhase, CancelPhase;
    FlatMarks(s.symbol, s.stamps, s.price, k, StateOf(s, t));
    ShopSettles(s, t, k);
    NothingDue(EnvOf(s), FlatTick(s.symbol, s.stamps, s.price, k), StateOf(s, Settled(s, t, k)));
  }

  lemma ShopEnds(s: Shop, t: Tally, k: nat)
    requires k < |s.stamps|
    ensures var tick := FlatTick(s.symbol, s.stamps, s.price, k);
            EquityPhase(tick, StrategyPhase(EnvOf(s), tick, StateOf(s, t))) == StateOf(s, Ended(s, t, k))
  {
    hide EquityPhase, StrategyPhase, Submit, MarkToMarket;
    OneValue(s, t.hold);
    BarEnds(EnvOf(s), s.requests, NoCancels(), FlatTick(s.symbol, s.stamps, s.price, k), StateOf(s, t),
            Submit(s.requests(k), s.stamps[k], k, |t.submitted|), if t.hold.Holding? then s.price else 0.0);
  }

  /** One bar of a unit-trading run, in closed form. */
  lemma ShopBar(s: Shop, t: Tally, k: nat)
    requires Sane(s) && k < |s.stamps| && Ready(s, Settled(s, t, k)) && forall o :: o in t.pending ==> o.expiresAt.None?
    ensures Step(EnvOf(s), FlatTick(s.symbol, s.stamps, s.price, k), StateOf(s, t))
         == StateOf(s, Ended(s, Filled(s, Settled(s, t, k), k), k))
  {
    hide BeforeFills, FillPhase, StrategyPhase, EquityPhase, StateOf, EnvOf, Settled, Filled, Ended;
    ShopOpens(s, t, k);
    ShopFills(s, Settled(s, t, k), k);
    ShopEnds(s, Filled(s, Settled(s, t, k), k), k);
  }

  function Opening(s: Shop): Tally {
    Tally(Nothing, s.cash, [], {}, [], [], [])
  }

  /** The tally after k bars. */
  function After(s: Shop, k: nat): Tally
    requires k <= |s.stamps|
  {
    if k == 0 then Opening(s) else Ended(s, Filled(s, Settled(s, After(s, k - 1), k - 1), k - 1), k - 1)
  }

  /** Each of the first k bars finds an order it can fill, or none. */
  predicate ReadyUpTo(s: Shop, k: nat)
    requires k <= |s.stamps|
  {
    forall j :: 0 <= j < k ==> Ready(s, Settled(s, After(s, j), j))
  }

  /** As long as each bar is ready, the run is what the tallies say. */
  lemma {:induction false} ShopRun(s: Shop, k: nat)
    requires Sane(s) && 0 < k <= |s.stamps| && ReadyUpTo(s, k)
    ensures k <= |Timeline(EnvOf(s).market)|
    ensures Run(EnvOf(s), k) == StateOf(s, After(s, k))
  {
    hide Run, Step, StateOf, Timeline, FlatTick, FlatMarket, Settled, Filled, Ended, Ready;
    FlatRunStep(EnvOf(s), s.symbol, s.stamps, s.price, k - 1);
    if k == 1 {
      assert After(s, 0) == Opening(s);
      FirstBar(s);
    } else {
      ShopRun(s, k - 1);
      ReadyRests(s, After(s, k - 1), k - 1);
      ShopBar(s, After(s, k - 1), k - 1);
    }
  }

  lemma ReadyRests(s: Shop, t: Tally, k: nat)
    requires k < |s.stamps| && Ready(s, Settled(s, t, k))
    ensures forall o :: o in t.pending ==> o.expiresAt.None?
  {
  }

  /** The first bar does not depend on the marks it overwrites. */
  lemma FirstBar(s: Shop)
    requires Sane(s) && 0 < |s.stamps| && Ready(s, Settled(s, Opening(s), 0))
    ensures Step(EnvOf(s), FlatTick(s.symbol, s.stamps, s.price, 0), Run(EnvOf(s), 0)) == StateOf(s, After(s, 1))
  {
    var env, tick := EnvOf(s), FlatTick(s.symbol, s.stamps, s.price, 0);
    FlatMarks(s.symbol, s.stamps, s.price, 0, Initial(env));
    FlatMarks(s.symbol, s.stamps, s.price, 0, StateOf(s, Opening(s)));
    assert Initial(env).(marks := map[s.symbol := s.price]) == StateOf(s, Opening(s));
    ShopBar(s, Opening(s), 0);
    assert After(s, 0) == Opening(s);
    hide MarkPhase, SettlePhase, ExpirePhase, CancelPhase, FillPhase, StrategyPhase, EquityPhase;
  }

  // ---------- Two scripts ----------

  lemma SubmitOne(symbol: Symbol, side: Side, ts: int, barCount: nat, id: nat)
    ensures Submit([OneUnit(symbol, side)], ts, barCount, id) == [OneOrder(symbol, side, ts, id)]
    ensures Submit([], ts, barCount, id) == []
  {
    var r := OneUnit(symbol, side);
    assert [r][1..] == [] && Submit([], ts, barCount, id + 1) == [];
  }

  const OPTION: InstrumentMeta := InstrumentMeta(1.0, "option", Some(1), Some("C"), None, None)

  function BuyTwice(): nat -> seq<OrderRequest> {
    (bar: nat) => if bar < 2 then [OneUnit("O", Buy)] else []
  }

  /** An option that expires on day 1; one unit is ordered just before that day and one early in it. */
  function BoughtBack(): Shop {
    Shop("O", 2.0, [86340, 86400, 86460, 86520], 1000.0, map["O" := OPTION], BuyTwice())
  }

  lemma BoughtBackFirstHalf()
    ensures var t := After(BoughtBack(), 1);
            t.hold == Nothing && t.cash == 1000.0 && t.pending == [OneOrder("O", Buy, 86340, 0)] && t.settled == {}
    ensures var t := After(BoughtBack(), 2);
            t.hold == Holding && t.cash == 998.0 && t.pending == [OneOrder("O", Buy, 86400, 1)] && t.settled == {}
            && |t.submitted| == 2
  {
    var s := BoughtBack();
    SubmitOne("O", Buy, 86340, 0, 0);
    SubmitOne("O", Buy, 86400, 1, 1);
    hide Submit, OptionExpired, Ready;
    assert After(s, 1) == Ended(s, Opening(s), 0);
    assert After(s, 2) == Ended(s, Filled(s, After(s, 1), 1), 1);
  }

  lemma AfterNext(s: Shop, k: nat)
    requires k < |s.stamps|
    ensures After(s, k + 1) == Ended(s, Filled(s, Settled(s, After(s, k), k), k), k)
  {
    hide Settled, Filled, Ended;
  }

  lemma FourReady(s: Shop)
    requires 4 <= |s.stamps|
    requires Ready(s, Settled(s, After(s, 0), 0)) && Ready(s, Settled(s, After(s, 1), 1))
    requires Ready(s, Settled(s, After(s, 2), 2)) && Ready(s, Settled(s, After(s, 3), 3))
    ensures ReadyUpTo(s, 4)
  {
    hide Ready, Settled, After;
    forall j | 0 <= j < 4 ensures Ready(s, Settled(s, After(s, j), j)) {
      assert j == 0 || j == 1 || j == 2 || j == 3;
    }
  }

  lemma BoughtBackSecondHalf()
    ensures Settled(BoughtBack(), After(BoughtBack(), 2), 2).hold == Flat
    ensures var t := After(BoughtBack(), 3); t.hold == Holding && t.pending == [] && t.settled == {"O"}
  {
    var s := BoughtBack();
    BoughtBackFirstHalf();
    AfterNext(s, 2);
    assert OptionExpired(FreeConfig(s.cash, s.meta), "O", 86460);
    SubmitOne("O", Buy, 86460, 2, 2);
    hide Submit, OptionExpired, After;
  }

  lemma BoughtBackTallies()
    ensures ReadyUpTo(BoughtBack(), 4)
    ensures var t := After(BoughtBack(), 4); t.hold == Holding && t.settled == {"O"}
  {
    var s := BoughtBack();
    assert After(s, 0) == Opening(s);
    hide After, Submit, OptionExpired;
    BoughtBackFirstHalf();
    BoughtBackSecondHalf();
    FourReady(s);
    AfterNext(s, 3);
  }

  /**
   In this run the option is held after its expiry and after its settlement: it was bought
   back, and nothing settles it again.
   */
  lemma ReopenedStaysOpen()
    ensures Timeline(EnvOf(BoughtBack()).market) == BoughtBack().stamps && |BoughtBack().stamps| == 4
    ensures OptionExpired(EnvOf(BoughtBack()).config, "O", BoughtBack().stamps[3])
    ensures var st := Run(EnvOf(BoughtBack()), 4); "O" in st.settled && Get(st.account.book, "O").quantity == 1.0
  {
    hide Run, After, Ready;
    FlatTimeline("O", BoughtBack().stamps, 2.0);
    BoughtBackTallies();
    ShopRun(BoughtBack(), 4);
  }

  function BuySellBuy(): nat -> seq<OrderRequest> {
    (bar: nat) => if bar == 0 || bar == 2 then [OneUnit("X", Buy)] else if bar == 1 then [OneUnit("X", Sell)] else []
  }

  /** One unit is bought at the second bar, sold at the third and bought again at the fourth. */
  function Straddling(): Shop {
    Shop("X", 1.0, [0, 60, 120, 180], 10.0, map[], BuySellBuy())
  }

  const BOUGHT: Fill := OneFillOf(OneOrder("X", Buy, 0, 0), 60, 1.0)
  const SOLD: Fill := OneFillOf(OneOrder("X", Sell, 60, 1), 120, 1.0)
  const REBOUGHT: Fill := OneFillOf(OneOrder("X", Buy, 120, 2), 180, 1.0)

  lemma StraddlingFirstHalf()
    ensures var t := After(Straddling(), 1);
            t.hold == Nothing && t.cash == 10.0 && t.pending == [OneOrder("X", Buy, 0, 0)]
    ensures var t := After(Straddling(), 2);
            && t.hold == Holding && t.cash == 9.0 && t.pending == [OneOrder("X", Sell, 60, 1)]
            && t.fills == [BOUGHT] && |t.submitted| == 2
  {
    var s := Straddling();
    SubmitOne("X", Buy, 0, 0, 0);
    SubmitOne("X", Sell, 60, 1, 1);
    hide Submit, Ready;
    assert After(s, 1) == Ended(s, Opening(s), 0);
    assert After(s, 2) == Ended(s, Filled(s, After(s, 1), 1), 1);
  }

  lemma StraddlingSecondHalf()
    ensures var t := After(Straddling(), 3);
            t.hold == Flat && t.cash == 10.0 && t.pending == [OneOrder("X", Buy, 120, 2)] && t.fills == [BOUGHT, SOLD]
  {
    var s := Straddling();
    StraddlingFirstHalf();
    AfterNext(s, 2);
    SubmitOne("X", Buy, 120, 2, 2);
    hide Submit, After;
  }

  lemma StraddlingTallies()
    ensures ReadyUpTo(Straddling(), 4)
    ensures After(Straddling(), 4).fills == [BOUGHT, SOLD, REBOUGHT]
  {
    var s := Straddling();
    assert After(s, 0) == Opening(s);
    hide After, Submit;
    StraddlingFirstHalf();
    StraddlingSecondHalf();
    FourReady(s);
    AfterNext(s, 3);
  }

  /** The fills of that run. */
  lemma StraddlingFills()
    ensures Timeline(EnvOf(Straddling()).market) == Straddling().stamps && |Straddling().stamps| == 4
    ensures Run(EnvOf(Straddling()), 4).log.fills == [BOUGHT, SOLD, REBOUGHT]
  {
    hide Run, After, Ready;
    FlatTimeline("X", Straddling().stamps, 1.0);
    StraddlingTallies();
    ShopRun(Straddling(), 4);
  }
}
