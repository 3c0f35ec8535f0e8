/**
 The portfolio object: cash and a position dictionary updated in place, each operation
 proved to do to the account what its specification function says.
 */
module Portfolios {
  import opened Prelude
  import opened Types
  import opened Accounts

  /** What looking a symbol up and writing it back do at the place where a scan for it stops. */
  lemma {:induction false} EntryAt(book: seq<Position>, i: nat, p: Position)
    requires i <= |book| && forall k :: 0 <= k < i ==> book[k].symbol != p.symbol
    requires i < |book| ==> book[i].symbol == p.symbol
    ensures Get(book, p.symbol) == if i < |book| then book[i] else ZeroPosition(p.symbol)
    ensures Put(book, p) == if i < |book| then book[i := p] else book + [p]
  {
    if i > 0 {
      assert forall k :: 0 <= k < i - 1 ==> book[1..][k] == book[k + 1];
      EntryAt(book[1..], i - 1, p);
    }
  }

  class Portfolio {
    var cash: real
    var positions: seq<Position>

    function View(): Account
      reads this
    {
      Account(cash, positions)
    }

    constructor (startingCash: real)
      ensures View() == Account(startingCash, [])
    {
      cash, positions := startingCash, [];
    }

    /** Looks a symbol up, creating a zero position when there is none. */
    method GetPosition(symbol: Symbol) returns (p: Position)
      modifies this`positions
      ensures p == Get(old(positions), symbol)
      ensures View() == Touch(old(View()), symbol)
    {
      var i := 0;
      while i < |positions| && positions[i].symbol != symbol
        invariant 0 <= i <= |positions| && positions == old(positions)
        invariant forall k :: 0 <= k < i ==> positions[k].symbol != symbol
      {
        i := i + 1;
      }
      if i < |positions| {
        p := positions[i];
        EntryAt(positions, i, p);
        assert positions[i := p] == positions;
      } else {
        p := ZeroPosition(symbol);
        EntryAt(positions, i, p);
        positions := positions + [p];
      }
    }

    /** Writes a position back under its symbol. */
    method StorePosition(p: Position)
      requires Listed(positions, p.symbol)
      modifies this`positions
      ensures View() == Account(old(cash), Put(old(positions), p))
    {
      var i := 0;
      while i < |positions| && positions[i].symbol != p.symbol
        invariant 0 <= i <= |positions| && positions == old(positions)
        invariant forall k :: 0 <= k < i ==> positions[k].symbol != p.symbol
      {
        i := i + 1;
      }
      EntryAt(positions, i, p);
      positions := positions[i := p];
    }

    /** Opens, extends, reduces, closes or flips a position, moving cash and realized P&L. */
    method ApplyFill(symbol: Symbol, side: Side, quantity: real, price: real, fee: real, multiplier: real)
      modifies this
      ensures View() == Accounts.ApplyFill(old(View()), symbol, side, quantity, price, fee, multiplier)
    {
      var signed := if side == Buy then quantity else -quantity;
      cash := cash - Notional(signed, price, multiplier);
      cash := cash - fee;
      var p := GetPosition(symbol);
      var held := p.quantity;
      var quantityAfter := held + signed;
      var sameDirection := (held > 0.0 && signed > 0.0) || (held < 0.0 && signed < 0.0);
      if held == 0.0 {
        p := p.(avgCost := price);
        p := p.(multiplier := multiplier);
      } else if sameDirection {
        p := p.(avgCost := AveragedCost(p, signed, price));
      } else {
        p := p.(realizedPnl := p.realizedPnl + (GrossOnClosed(p, signed, price) - fee));
        if Abs(signed) > Abs(held) {
          p := p.(avgCost := price);
          p := p.(multiplier := multiplier);
        } else if quantityAfter == 0.0 {
          p := p.(avgCost := 0.0);
        }
      }
      p := p.(quantity := quantityAfter);
      assert p == ApplyToPosition(Get(old(positions), symbol), signed, price, fee, multiplier);
      PutMembers(old(positions), Get(old(positions), symbol));
      StorePosition(p);
      PutTwice(old(positions), Get(old(positions), symbol), p);
    }

    /** Sells at the position's own multiplier, as option settlement does. */
    method ApplySell(symbol: Symbol, quantity: real, price: real, fee: real)
      modifies this
      ensures View() == Accounts.ApplyFill(old(View()), symbol, Sell, quantity, price, fee,
                                             Get(old(positions), symbol).multiplier)
    {
      var p := GetPosition(symbol);
      GetPut(old(positions), p, symbol);
      ApplyFill(symbol, Sell, quantity, price, fee, p.multiplier);
      PutTwice(old(positions), p, ApplyToPosition(p, -quantity, price, fee, p.multiplier));
    }

    method MarkToMarket(marks: map<Symbol, real>) returns (total: real)
      ensures total == Accounts.MarkToMarket(positions, marks)
    {
      total := 0.0;
      for i := 0 to |positions|
        invariant total == Sum(positions[..i], MarketValue(marks))
      {
        var p := positions[i];
        SumPrefix(positions, i, MarketValue(marks));
        if p.quantity != 0.0 && p.symbol in marks {
          total := total + Notional(p.quantity, marks[p.symbol], p.multiplier);
        }
      }
      assert positions[..|positions|] == positions;
    }

    method ProjectedEquityAndGross(cashAfter: real, marks: map<Symbol, real>, symbol: Symbol, quantity: real, multiplier: real)
      returns (projection: Projection)
      ensures projection == Project(positions, cashAfter, marks, symbol, quantity, multiplier)
    {
      hide Sum, Retargeted;
      var equity, gross, seen := cashAfter, 0.0, false;
      SumOfNothing(Retargeted(MarketValue(marks), symbol, quantity, multiplier));
      SumOfNothing(Retargeted(Exposure(marks), symbol, quantity, multiplier));
      ghost var value := Retargeted(MarketValue(marks), symbol, quantity, multiplier);
      ghost var exposure := Retargeted(Exposure(marks), symbol, quantity, multiplier);
      for i := 0 to |positions|
        invariant equity == cashAfter + Sum(positions[..i], value)
        invariant gross == Sum(positions[..i], exposure)
        invariant seen <==> Listed(positions[..i], symbol)
      {
        var p := positions[i];
        assert Sum(positions[..i + 1], value) == Sum(positions[..i], value) + value(p)
            && Sum(positions[..i + 1], exposure) == Sum(positions[..i], exposure) + exposure(p)
            && (Listed(positions[..i + 1], symbol) <==> Listed(positions[..i], symbol) || p.symbol == symbol) by {
          SumPrefix(positions, i, value);
          SumPrefix(positions, i, exposure);
          assert positions[..i + 1] == positions[..i] + [p];
          ListedSnoc(positions[..i], p, symbol);
        }
        RetargetedValue(marks, p, symbol, quantity, multiplier);
        var q, m := p.quantity, p.multiplier;
        if p.symbol == symbol {
          q, m := quantity, multiplier;
          seen := true;
        }
        if q == 0.0 || p.symbol !in marks {
          continue;
        }
        var mv := Notional(q, marks[p.symbol], m);
        equity := equity + mv;
        gross := gross + Abs(mv);
      }
      assert positions[..|positions|] == positions;
      ghost var target := ZeroPosition(symbol).(quantity := quantity, multiplier := multiplier);
      ghost var unseen := if Listed(positions, symbol) then 0.0 else ValueAt(marks, target);
      assert Project(positions, cashAfter, marks, symbol, quantity, multiplier)
          == Projection(cashAfter + Sum(positions, value) + unseen, Sum(positions, exposure) + Abs(unseen));
      if !seen && quantity != 0.0 && symbol in marks {
        var mv := Notional(quantity, marks[symbol], multiplier);
        equity := equity + mv;
        gross := gross + Abs(mv);
      }
      projection := Projection(equity, gross);
    }
  }
}
