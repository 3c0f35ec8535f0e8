/**
 The plain data of a backtest: bars, orders, fills, positions and the
 configuration with its fee, slippage and multiplier lookups. Decimal amounts are
 reals, timestamps are whole seconds, and client order ids are natural numbers.
 */
module Types {
  import opened Prelude

  type Symbol = string

  const SECONDS_PER_DAY := 86400

  /** The calendar day (UTC) of a timestamp. */
  function DateOf(ts: int): int {
    ts / SECONDS_PER_DAY
  }

  // ---------- Bars ----------

  datatype Bar = Bar(ts: int, open: real, high: real, low: real, close: real, volume: real)

  /** The symbols a strategy trades and the bar frames it was given. */
  datatype Market = Market(symbols: seq<Symbol>, frames: map<Symbol, seq<Bar>>)

  // ---------- Orders and fills ----------

  datatype Side = Buy | Sell

  datatype OrderKind =
    | MarketOrder
    | LimitOrder(limit: real)
    | StopOrder(stop: real)
    | TrailingStop(percent: real)

  datatype Order = Order(
    symbol: Symbol,
    side: Side,
    quantity: real,
    kind: OrderKind,
    submittedTs: int,
    id: nat,
    expiresAt: Option<int>,
    tags: seq<string>)

  /** A fill belongs to a strategy order or to the settlement of an expired option. */
  datatype FillId = OrderId(id: nat) | Expiry(symbol: Symbol, bar: nat)

  datatype OrderType = MARKET | LIMIT | STOP | TRAILING_STOP

  datatype Fill = Fill(
    id: FillId,
    symbol: Symbol,
    side: Side,
    orderType: OrderType,
    quantity: real,
    price: real,
    fee: real,
    filledTs: int,
    submittedTs: int,
    isPartial: bool,
    tags: seq<string>)

  function Signed(side: Side, quantity: real): real {
    if side == Buy then quantity else -quantity
  }

  function SignedQuantity(f: Fill): real {
    Signed(f.side, f.quantity)
  }

  /** The money value of a quantity at a price under a contract multiplier. */
  function Notional(quantity: real, price: real, multiplier: real): real {
    quantity * price * multiplier
  }

  // ---------- Positions ----------

  /** Signed quantity at average cost: positive is long, negative is short. */
  datatype Position = Position(
    symbol: Symbol,
    quantity: real,
    avgCost: real,
    realizedPnl: real,
    multiplier: real)

  function ZeroPosition(symbol: Symbol): Position {
    Position(symbol, 0.0, 0.0, 0.0, 1.0)
  }

  datatype EquityPoint = EquityPoint(ts: int, cash: real, positionsValue: real, totalEquity: real)

  // ---------- Configuration ----------

  datatype InstrumentMeta = InstrumentMeta(
    multiplier: real,
    assetClass: string,
    expiry: Option<int>,
    right: Option<string>,
    strike: Option<real>,
    underlying: Option<Symbol>)

  datatype Config = Config(
    startingCash: real,
    feeRateBps: int,
    slippageBps: int,
    maxPctOfVolume: Option<real>,
    optionFeePerContract: real,
    contractMultipliers: map<Symbol, real>,
    instrumentMeta: map<Symbol, InstrumentMeta>,
    allowShort: bool,
    marginRate: real,
    makerFeeBps: Option<int>,
    fillThroughMarginBps: int,
    adverseSelectionBps: int)
  {
    function FeeRate(): real { Fraction(feeRateBps) }

    function Slippage(): real { Fraction(slippageBps) }

    function ThroughMargin(): real { Fraction(fillThroughMarginBps) }

    function AdverseSelection(): real { Fraction(adverseSelectionBps) }

    function MultiplierFor(symbol: Symbol): real {
      if symbol in contractMultipliers then contractMultipliers[symbol]
      else if symbol in instrumentMeta then instrumentMeta[symbol].multiplier
      else 1.0
    }

    predicate IsOption(symbol: Symbol) {
      symbol in instrumentMeta && instrumentMeta[symbol].assetClass == "option"
    }

    function FeeFor(symbol: Symbol, price: real, quantity: real): real {
      if IsOption(symbol) then optionFeePerContract * quantity
      else price * quantity * FeeRate()
    }

    function MakerFeeFor(symbol: Symbol, price: real, quantity: real): real {
      if IsOption(symbol) then optionFeePerContract * quantity
      else price * quantity * (if makerFeeBps.Some? then Fraction(makerFeeBps.value) else FeeRate())
    }
  }

  /** Basis points as a fraction. */
  function Fraction(bps: int): real {
    bps as real / 10000.0
  }
}
