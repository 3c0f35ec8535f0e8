/**
 Cash and signed average-cost positions: what each portfolio operation does to an
 account, and the accounting laws it obeys.

 The position dictionary is kept as a sequence in insertion order: Get reads a symbol
 (a zero position when absent), Put overwrites it or appends it.
 */
module Accounts {
  import opened Prelude
  import opened Types

  datatype Account = Account(cash: real, book: seq<Position>)

  function Get(book: seq<Position>, symbol: Symbol): (p: Position)
    ensures p.symbol == symbol
  {
    if book == [] then ZeroPosition(symbol)
    else if book[0].symbol == symbol then book[0]
    else Get(book[1..], symbol)
  }

  function Put(book: seq<Position>, p: Position): seq<Position> {
    if book == [] then [p]
    else if book[0].symbol == p.symbol then [p] + book[1..]
    else [book[0]] + Put(book[1..], p)
  }

  predicate Listed(book: seq<Position>, symbol: Symbol) {
    exists p :: p in book && p.symbol == symbol
  }

  predicate DistinctSymbols(book: seq<Position>) {
    forall i, j :: 0 <= i < j < |book| ==> book[i].symbol != book[j].symbol
  }

  /** The account after a lookup, which creates a zero position for a new symbol. */
  function Touch(a: Account, symbol: Symbol): Account {
    a.(book := Put(a.book, Get(a.book, symbol)))
  }

  // ---------- Applying a fill ----------

  predicate SameDirection(held: real, signed: real) {
    (held > 0.0 && signed > 0.0) || (held < 0.0 && signed < 0.0)
  }

  /** A fill against an open position in the other direction realizes P&L. */
  predicate Reduces(held: real, signed: real) {
    held != 0.0 && !SameDirection(held, signed)
  }

  /** The quantity-weighted average of the basis held and the new fill. */
  function AveragedCost(p: Position, signed: real, price: real): real
    requires SameDirection(p.quantity, signed)
  {
    (Abs(p.quantity) * p.avgCost + Abs(signed) * price) / (Abs(p.quantity) + Abs(signed))
  }

  /** Gross P&L on the part of the position that the fill closes. */
  function GrossOnClosed(p: Position, signed: real, price: real): real {
    var closed := Min(Abs(signed), Abs(p.quantity));
    if p.quantity > 0.0
    then Notional(closed, price - p.avgCost, p.multiplier)
    else Notional(closed, p.avgCost - price, p.multiplier)
  }

  function ApplyToPosition(p: Position, signed: real, price: real, fee: real, multiplier: real): Position {
    var held := p.quantity;
    var quantity := held + signed;
    if held == 0.0 then
      p.(quantity := quantity, avgCost := price, multiplier := multiplier)
    else if SameDirection(held, signed) then
      p.(quantity := quantity, avgCost := AveragedCost(p, signed, price))
    else
      var q := p.(quantity := quantity, realizedPnl := p.realizedPnl + (GrossOnClosed(p, signed, price) - fee));
      if Abs(signed) > Abs(held) then q.(avgCost := price, multiplier := multiplier)
      else if quantity == 0.0 then q.(avgCost := 0.0)
      else q
  }

  function ApplyFill(a: Account, symbol: Symbol, side: Side, quantity: real, price: real, fee: real, multiplier: real): Account {
    var signed := Signed(side, quantity);
    Account(
      a.cash - Notional(signed, price, multiplier) - fee,
      Put(a.book, ApplyToPosition(Get(a.book, symbol), signed, price, fee, multiplier)))
  }

  // ---------- Valuation ----------

  /** The value of one position at the marks; nothing when flat or unmarked. */
  function ValueAt(marks: map<Symbol, real>, p: Position): real {
    if p.quantity == 0.0 || p.symbol !in marks then 0.0
    else Notional(p.quantity, marks[p.symbol], p.multiplier)
  }

  function MarketValue(marks: map<Symbol, real>): Position -> real {
    (p: Position) => ValueAt(marks, p)
  }

  function Exposure(marks: map<Symbol, real>): Position -> real {
    (p: Position) => Abs(ValueAt(marks, p))
  }

  function MarkToMarket(book: seq<Position>, marks: map<Symbol, real>): real {
    Sum(book, MarketValue(marks))
  }

  function GrossExposure(book: seq<Position>, marks: map<Symbol, real>): real {
    Sum(book, Exposure(marks))
  }

  function Equity(a: Account, marks: map<Symbol, real>): real {
    a.cash + MarkToMarket(a.book, marks)
  }

  /** The position as it would stand with the target symbol at a new quantity and multiplier. */
  function Retarget(p: Position, symbol: Symbol, quantity: real, multiplier: real): Position {
    if p.symbol == symbol then p.(quantity := quantity, multiplier := multiplier) else p
  }

  function Retargeted(weight: Position -> real, symbol: Symbol, quantity: real, multiplier: real): Position -> real {
    (p: Position) => weight(Retarget(p, symbol, quantity, multiplier))
  }

  datatype Projection = Projection(equity: real, gross: real)

  /** The equity and gross exposure the buying-power check compares, before the fill is applied. */
  function Project(book: seq<Position>, cashAfter: real, marks: map<Symbol, real>,
                   symbol: Symbol, quantity: real, multiplier: real): Projection {
    var target := ZeroPosition(symbol).(quantity := quantity, multiplier := multiplier);
    var unseen := !Listed(book, symbol);
    Projection(
      cashAfter + Sum(book, Retargeted(MarketValue(marks), symbol, quantity, multiplier))
      + (if unseen then ValueAt(marks, target) else 0.0),
      Sum(book, Retargeted(Exposure(marks), symbol, quantity, multiplier))
      + (if unseen then Abs(ValueAt(marks, target)) else 0.0))
  }

  function OpenQuantities(book: seq<Position>): seq<(Symbol, real)> {
    if book == [] then []
    else (if book[0].quantity != 0.0 then [(book[0].symbol, book[0].quantity)] else []) + OpenQuantities(book[1..])
  }

  // ---------- The dictionary laws ----------

  lemma {:induction false} GetPut(book: seq<Position>, p: Position, symbol: Symbol)
    ensures Get(Put(book, p), symbol) == if symbol == p.symbol then p else Get(book, symbol)
  {
    if book == [] || book[0].symbol == p.symbol {
      assert book != [] ==> ([p] + book[1..])[1..] == book[1..];
    } else {
      GetPut(book[1..], p, symbol);
      assert ([book[0]] + Put(book[1..], p))[1..] == Put(book[1..], p);
    }
  }

  lemma {:induction false} PutMembers(book: seq<Position>, p: Position)
    ensures forall symbol :: Listed(Put(book, p), symbol) <==> Listed(book, symbol) || symbol == p.symbol
    ensures forall q :: q in Put(book, p) ==> q == p || q in book
    ensures p in Put(book, p)
  {
    if book == [] {
    } else if book[0].symbol == p.symbol {
      assert book == [book[0]] + book[1..];
      forall symbol ensures Listed(Put(book, p), symbol) <==> Listed(book, symbol) {
        if Listed(book, symbol) && symbol != p.symbol {
          var q :| q in book && q.symbol == symbol;
          assert q in book[1..];
        }
      }
    } else {
      PutMembers(book[1..], p);
      var rest := Put(book[1..], p);
      assert forall q :: q in book <==> q == book[0] || q in book[1..];
      assert forall q :: q in Put(book, p) <==> q == book[0] || q in rest;
      forall symbol ensures Listed(Put(book, p), symbol) <==> Listed(book, symbol) || symbol == p.symbol {
        assert Listed(rest, symbol) <==> Listed(book[1..], symbol) || symbol == p.symbol;
      }
    }
  }

  lemma ListedSnoc(book: seq<Position>, p: Position, symbol: Symbol)
    ensures Listed(book + [p], symbol) <==> Listed(book, symbol) || p.symbol == symbol
  {
    assert forall q :: q in book + [p] <==> q in book || q == p;
  }

  lemma {:induction false} PutDistinct(book: seq<Position>, p: Position)
    requires DistinctSymbols(book)
    ensures DistinctSymbols(Put(book, p))
  {
    if book == [] || book[0].symbol == p.symbol {
    } else {
      PutDistinct(book[1..], p);
      PutMembers(book[1..], p);
      var rest := Put(book[1..], p);
      forall j | 0 <= j < |rest| ensures rest[j].symbol != book[0].symbol {
        assert rest[j] in rest;
        if rest[j] != p {
          var k :| 0 <= k < |book[1..]| && book[1..][k] == rest[j];
          assert book[k + 1] == rest[j];
        }
      }
    }
  }

  lemma {:induction false} PutTwice(book: seq<Position>, p: Position, q: Position)
    requires p.symbol == q.symbol
    ensures Put(Put(book, p), q) == Put(book, q)
  {
    if book == [] || book[0].symbol == p.symbol {
      assert book != [] ==> ([p] + book[1..])[1..] == book[1..];
    } else {
      PutTwice(book[1..], p, q);
      assert ([book[0]] + Put(book[1..], p))[1..] == Put(book[1..], p);
    }
  }

  /** Overwriting one position changes a sum over the book by that position's change alone. */
  lemma {:induction false} SumPut(book: seq<Position>, p: Position, weight: Position -> real)
    requires weight(ZeroPosition(p.symbol)) == 0.0
    ensures Sum(Put(book, p), weight) == Sum(book, weight) - weight(Get(book, p.symbol)) + weight(p)
  {
    if book == [] {
    } else if book[0].symbol == p.symbol {
      assert ([p] + book[1..])[1..] == book[1..];
    } else {
      SumPut(book[1..], p, weight);
      assert ([book[0]] + Put(book[1..], p))[1..] == Put(book[1..], p);
    }
  }

  lemma {:induction false} GetListed(book: seq<Position>, symbol: Symbol)
    ensures Listed(book, symbol) ==> Get(book, symbol) in book
    ensures !Listed(book, symbol) ==> Get(book, symbol) == ZeroPosition(symbol)
  {
    if book == [] {
    } else {
      assert book[0] in book;
      if book[0].symbol != symbol {
        GetListed(book[1..], symbol);
        assert forall q :: q in book <==> q == book[0] || q in book[1..];
        assert Listed(book, symbol) <==> Listed(book[1..], symbol);
      }
    }
  }

  lemma {:induction false} GetIsEntry(book: seq<Position>, p: Position)
    requires DistinctSymbols(book) && p in book
    ensures Get(book, p.symbol) == p
  {
    if book[0] != p {
      assert p in book[1..];
      var k :| 0 <= k < |book[1..]| && book[1..][k] == p;
      assert book[k + 1] == p;
      GetIsEntry(book[1..], p);
    }
  }

  // ---------- The accounting laws ----------

  /** Realized P&L less the cost of what is still held. */
  function Basis(p: Position): real {
    p.realizedPnl - Notional(p.quantity, p.avgCost, p.multiplier)
  }

  /** An open position carries its symbol's fixed contract multiplier. */
  predicate Carries(p: Position, multiplier: real) {
    p.quantity != 0.0 ==> p.multiplier == multiplier
  }

  /**
   Average-cost accounting books exactly the fill's cash flow, whether the fill opens,
   adds, reduces, closes or flips; the fee goes to realized P&L only when it reduces.
   */
  lemma FillMovesBasis(p: Position, signed: real, price: real, fee: real, m: real)
    requires Carries(p, m)
    ensures var q := ApplyToPosition(p, signed, price, fee, m);
            && q.quantity == p.quantity + signed
            && Carries(q, m)
            && Basis(q) == Basis(p) - Notional(signed, price, m) - (if Reduces(p.quantity, signed) then fee else 0.0)
  {
    var held := p.quantity;
    NotionalZero(p.avgCost, p.multiplier);
    NotionalZero(0.0, m);
    if held == 0.0 {
      assert held + signed == signed;
    } else if SameDirection(held, signed) {
      AveragingPreservesCost(p, signed, price);
    } else {
      ClosingRealizes(p, signed, price);
    }
  }

  lemma NotionalZero(price: real, m: real)
    ensures Notional(0.0, price, m) == 0.0
  {
  }

  /** The weighted average preserves the total cost. */
  lemma AveragingPreservesCost(p: Position, signed: real, price: real)
    requires SameDirection(p.quantity, signed)
    ensures Notional(p.quantity + signed, AveragedCost(p, signed, price), p.multiplier)
         == Notional(p.quantity, p.avgCost, p.multiplier) + Notional(signed, price, p.multiplier)
  {
    var held, cost, total := p.quantity, p.avgCost, Abs(p.quantity) + Abs(signed);
    var average := (Abs(held) * cost + Abs(signed) * price) / total;
    assert total * average == Abs(held) * cost + Abs(signed) * price;
    assert (held + signed) * average == held * cost + signed * price by {
      if held < 0.0 {
        assert (-total) * average == -(total * average);
      }
    }
    assert (held * cost + signed * price) * p.multiplier == held * cost * p.multiplier + signed * price * p.multiplier;
  }

  /** Closing realizes the closed part at the price; a flip leaves the residual at the price, a reduction at cost. */
  lemma ClosingRealizes(p: Position, signed: real, price: real)
    requires Reduces(p.quantity, signed)
    ensures GrossOnClosed(p, signed, price)
            - Notional(p.quantity + signed, if Abs(signed) > Abs(p.quantity) then price else p.avgCost, p.multiplier)
         == - Notional(p.quantity, p.avgCost, p.multiplier) - Notional(signed, price, p.multiplier)
    ensures p.quantity + signed == 0.0 ==> Notional(p.quantity + signed, p.avgCost, p.multiplier) == 0.0
  {
    var held, cost, m := p.quantity, p.avgCost, p.multiplier;
    var closed := if Abs(signed) > Abs(held) then held else -signed;
    assert GrossOnClosed(p, signed, price) == closed * (price - cost) * m;
    assert closed * (price - cost) * m == closed * price * m - closed * cost * m;
    if Abs(signed) > Abs(held) {
      assert (held + signed) * price * m == held * price * m + signed * price * m;
    } else {
      assert (held + signed) * cost * m == held * cost * m + signed * cost * m;
    }
    if held + signed == 0.0 {
      assert Notional(0.0, cost, m) == 0.0;
    }
  }

  /** The part of a position that a fill against it closes, signed like the position. */
  function ClosedPart(held: real, signed: real): real {
    if Abs(signed) > Abs(held) then held else -signed
  }

  /**
   What a fill realizes and what it leaves as cost. Opening realizes nothing and costs the
   price; adding realizes nothing and averages; against the position, the closed part is
   realized at the difference to its cost, less the fee, and what is left keeps its cost,
   unless the fill flips the position, whose new cost is the price.
   */
  lemma FillRealizes(p: Position, signed: real, price: real, fee: real, m: real)
    ensures var q := ApplyToPosition(p, signed, price, fee, m);
            && (p.quantity == 0.0 ==> q.realizedPnl == p.realizedPnl && q.avgCost == price && q.multiplier == m)
            && (SameDirection(p.quantity, signed) ==>
                  && q.realizedPnl == p.realizedPnl && q.multiplier == p.multiplier
                  && q.avgCost * (p.quantity + signed) == p.avgCost * p.quantity + price * signed)
            && (Reduces(p.quantity, signed) ==>
                  && q.realizedPnl - p.realizedPnl == ClosedPart(p.quantity, signed) * (price - p.avgCost) * p.multiplier - fee
                  && (q.quantity == 0.0 ==> q.avgCost == 0.0)
                  && (q.quantity * p.quantity > 0.0 ==> q.avgCost == p.avgCost && q.multiplier == p.multiplier)
                  && (q.quantity * p.quantity < 0.0 ==> q.avgCost == price && q.multiplier == m))
  {
    hide Notional;
    if SameDirection(p.quantity, signed) {
      AveragedTimes(p, signed, price);
    } else if Reduces(p.quantity, signed) {
      GrossIsClosedPart(p, signed, price);
      ResidualSign(p.quantity, signed);
    }
  }

  lemma AveragedTimes(p: Position, signed: real, price: real)
    requires SameDirection(p.quantity, signed)
    ensures AveragedCost(p, signed, price) * (p.quantity + signed) == p.avgCost * p.quantity + price * signed
  {
    var held, cost, total := p.quantity, p.avgCost, Abs(p.quantity) + Abs(signed);
    var average := (Abs(held) * cost + Abs(signed) * price) / total;
    assert average * total == Abs(held) * cost + Abs(signed) * price;
    if held < 0.0 {
      assert average * -total == -(average * total);
    }
  }

  lemma GrossIsClosedPart(p: Position, signed: real, price: real)
    requires Reduces(p.quantity, signed)
    ensures GrossOnClosed(p, signed, price) == ClosedPart(p.quantity, signed) * (price - p.avgCost) * p.multiplier
  {
    var part, gain := ClosedPart(p.quantity, signed), price - p.avgCost;
    if p.quantity < 0.0 {
      assert -part * -gain == part * gain;
    }
  }

  lemma ResidualSign(held: real, signed: real)
    requires Reduces(held, signed)
    ensures (held + signed) * held > 0.0 <==> Abs(signed) < Abs(held)
    ensures (held + signed) * held < 0.0 <==> Abs(signed) > Abs(held)
  {
    var rest := held + signed;
    if Abs(signed) < Abs(held) {
      NonNegativeTimes(Abs(rest), Abs(held));
    } else if Abs(signed) > Abs(held) {
      NonNegativeTimes(Abs(rest), Abs(held));
    }
  }

  // ---------- The buying-power projection is exact ----------

  lemma SumRetargetedAbsent(book: seq<Position>, weight: Position -> real, p: Position)
    requires !Listed(book, p.symbol)
    ensures Sum(book, Retargeted(weight, p.symbol, p.quantity, p.multiplier)) == Sum(book, weight)
  {
    forall x | x in book
      ensures Retargeted(weight, p.symbol, p.quantity, p.multiplier)(x) == weight(x)
    {
      assert Retarget(x, p.symbol, p.quantity, p.multiplier) == x;
    }
    SumEqual(book, Retargeted(weight, p.symbol, p.quantity, p.multiplier), weight);
  }

  /** Projecting a listed symbol is weighing the book with that symbol overwritten. */
  lemma {:induction false} SumRetargetedListed(book: seq<Position>, weight: Position -> real, p: Position)
    requires DistinctSymbols(book) && Listed(book, p.symbol)
    requires forall b :: b in book && b.symbol == p.symbol
               ==> weight(Retarget(b, p.symbol, p.quantity, p.multiplier)) == weight(p)
    ensures Sum(book, Retargeted(weight, p.symbol, p.quantity, p.multiplier)) == Sum(Put(book, p), weight)
  {
    var rest := book[1..];
    assert forall k :: 0 <= k < |rest| ==> rest[k] == book[k + 1];
    if book[0].symbol == p.symbol {
      assert ([p] + rest)[1..] == rest;
      SumRetargetedAbsent(rest, weight, p);
      assert book[0] in book;
    } else {
      assert Listed(rest, p.symbol) by {
        var q :| q in book && q.symbol == p.symbol;
        assert q in rest;
      }
      SumRetargetedListed(rest, weight, p);
      assert Retarget(book[0], p.symbol, p.quantity, p.multiplier) == book[0];
      assert ([book[0]] + Put(rest, p))[1..] == Put(rest, p);
    }
  }

  lemma {:induction false} PutAbsent(book: seq<Position>, p: Position)
    requires !Listed(book, p.symbol)
    ensures Put(book, p) == book + [p]
  {
    if book == [] {
    } else {
      assert book[0] in book;
      assert forall q :: q in book[1..] ==> q in book;
      PutAbsent(book[1..], p);
    }
  }

  lemma ProjectIsOverwrite(book: seq<Position>, cashAfter: real, marks: map<Symbol, real>, p: Position)
    requires DistinctSymbols(book)
    ensures Project(book, cashAfter, marks, p.symbol, p.quantity, p.multiplier)
         == Projection(cashAfter + MarkToMarket(Put(book, p), marks), GrossExposure(Put(book, p), marks))
  {
    if Listed(book, p.symbol) {
      SumRetargetedListed(book, MarketValue(marks), p);
      SumRetargetedListed(book, Exposure(marks), p);
    } else {
      SumRetargetedAbsent(book, MarketValue(marks), p);
      SumRetargetedAbsent(book, Exposure(marks), p);
      PutAbsent(book, p);
      SumSnoc(book, p, MarketValue(marks));
      SumSnoc(book, p, Exposure(marks));
    }
  }

  /** The multiplier of the position after a fill quoted at the given multiplier. */
  function MultiplierAfter(p: Position, signed: real, multiplier: real): real {
    if p.quantity == 0.0 || (Reduces(p.quantity, signed) && Abs(signed) > Abs(p.quantity)) then multiplier
    else p.multiplier
  }

  /**
   The pre-fill projection foretells the equity after the fill if and only if the fill is
   quoted at the multiplier the position will carry, or that position will be worth
   nothing anyway; under the multiplier condition the gross exposure is foretold too.
   */
  lemma ProjectionExact(a: Account, symbol: Symbol, side: Side, quantity: real, price: real, fee: real, m: real,
                        marks: map<Symbol, real>)
    requires DistinctSymbols(a.book)
    ensures var before := Get(a.book, symbol);
            var signed := Signed(side, quantity);
            var held := before.quantity + signed;
            var foretold := Project(a.book, a.cash - Notional(signed, price, m) - fee, marks, symbol, held, m);
            var after := ApplyFill(a, symbol, side, quantity, price, fee, m);
            && (foretold.equity == Equity(after, marks) <==>
                  held == 0.0 || symbol !in marks || marks[symbol] == 0.0 || MultiplierAfter(before, signed, m) == m)
            && (MultiplierAfter(before, signed, m) == m ==> foretold.gross == GrossExposure(after.book, marks))
  {
    var before := Get(a.book, symbol);
    var signed := Signed(side, quantity);
    var after := ApplyToPosition(before, signed, price, fee, m);
    AppliedShape(a, symbol, side, quantity, price, fee, m);
    OverwriteExact(a.book, a.cash - Notional(signed, price, m) - fee, marks, after, m);
  }

  lemma AppliedShape(a: Account, symbol: Symbol, side: Side, quantity: real, price: real, fee: real, m: real)
    ensures var p := Get(a.book, symbol);
            var signed := Signed(side, quantity);
            var q := ApplyToPosition(p, signed, price, fee, m);
            && q.symbol == symbol && q.quantity == p.quantity + signed
            && q.multiplier == MultiplierAfter(p, signed, m)
            && ApplyFill(a, symbol, side, quantity, price, fee, m)
               == Account(a.cash - Notional(signed, price, m) - fee, Put(a.book, q))
  {
  }

  lemma OverwriteExact(book: seq<Position>, cash: real, marks: map<Symbol, real>, p: Position, m: real)
    requires DistinctSymbols(book)
    ensures var foretold := Project(book, cash, marks, p.symbol, p.quantity, m);
            && (foretold.equity == Equity(Account(cash, Put(book, p)), marks) <==>
                  p.quantity == 0.0 || p.symbol !in marks || marks[p.symbol] == 0.0 || p.multiplier == m)
            && (p.multiplier == m ==> foretold.gross == GrossExposure(Put(book, p), marks))
  {
    var target := p.(multiplier := m);
    ProjectIsOverwrite(book, cash, marks, target);
    SumPut(book, target, MarketValue(marks));
    SumPut(book, p, MarketValue(marks));
    ValuesAgree(marks, target, p);
  }

  lemma RetargetedValue(marks: map<Symbol, real>, p: Position, symbol: Symbol, quantity: real, m: real)
    ensures var (q, k) := if p.symbol == symbol then (quantity, m) else (p.quantity, p.multiplier);
            var mv := if q == 0.0 || p.symbol !in marks then 0.0 else Notional(q, marks[p.symbol], k);
            && Retargeted(MarketValue(marks), symbol, quantity, m)(p) == mv
            && Retargeted(Exposure(marks), symbol, quantity, m)(p) == Abs(mv)
  {
    var moved := Retarget(p, symbol, quantity, m);
    assert Retargeted(MarketValue(marks), symbol, quantity, m)(p) == MarketValue(marks)(moved);
    assert Retargeted(Exposure(marks), symbol, quantity, m)(p) == Exposure(marks)(moved);
  }

  lemma ValuesAgree(marks: map<Symbol, real>, p: Position, q: Position)
    requires p.symbol == q.symbol && p.quantity == q.quantity
    ensures ValueAt(marks, p) == ValueAt(marks, q) <==>
              p.quantity == 0.0 || p.symbol !in marks || marks[p.symbol] == 0.0 || p.multiplier == q.multiplier
  {
    if p.quantity != 0.0 && p.symbol in marks {
      var unit := p.quantity * marks[p.symbol];
      assert unit * p.multiplier - unit * q.multiplier == unit * (p.multiplier - q.multiplier);
    }
  }
}
