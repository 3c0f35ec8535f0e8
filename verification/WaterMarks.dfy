/**
 When a trailing stop's water mark is forgotten. The mark is dropped when the order is filled
 completely, and only then; every other way of leaving the book leaves it behind.
 */
module WaterMarks {
  import opened Prelude
  import opened Types
  import opened Fills
  import opened Accounts
  import opened Timelines
  import opened Engine
  import opened Causality
  import opened Orders
  import opened Lifecycle
  import opened Margin
  import opened Trailing

  // ---------- What trying an order comes to ----------

  /** The bar fills what is left of the order and the account's rules accept the fill. */
  predicate Completes<S>(env: Env<S>, tick: Tick, st: State<S>, o: Order)
    requires o.symbol in tick.bars
  {
    var e := TryFill(o, tick.bars[o.symbol], env.config, st.trail).0;
    && e.Some? && e.value.remainder <= 0.0
    && Objection(env.config, Touch(st.account, o.symbol), st.marks, e.value.fill).None?
  }

  /** The bar fills some of the order and the account's rules refuse the fill. */
  predicate Refused<S>(env: Env<S>, tick: Tick, st: State<S>, o: Order)
    requires o.symbol in tick.bars
  {
    var e := TryFill(o, tick.bars[o.symbol], env.config, st.trail).0;
    e.Some? && Objection(env.config, Touch(st.account, o.symbol), st.marks, e.value.fill).Some?
  }

  /**
   The bar that tries a trailing order forgets its water mark if and only if it completes the
   order, and drops the order from the book if and only if it completes or refuses it.
   */
  lemma MarkDroppedIff<S>(env: Env<S>, tick: Tick, st: State<S>, o: Order)
    requires o.kind.TrailingStop? && o.symbol in tick.bars
    ensures var after := FillOrder(env, tick, st, o);
            && (o.id !in after.trail <==> Completes(env, tick, st, o))
            && after.pending
               == if Completes(env, tick, st, o) || Refused(env, tick, st, o) then st.pending
                  else st.pending + [o.(quantity := after.pending[|st.pending|].quantity)]
  {
    hide Objection, ApplyFill, Touch, TryFill;
    TriedIsMarked(o, tick.bars[o.symbol], env.config, st.trail);
  }

  lemma TriedIsMarked(o: Order, bar: Bar, config: Config, trail: map<nat, real>)
    requires o.kind.TrailingStop?
    ensures o.id in TryFill(o, bar, config, trail).1
  {
  }

  // ---------- Splitting a bar at an order's turn ----------

  lemma {:induction false} FillOrdersSplit<S>(env: Env<S>, tick: Tick, st: State<S>, a: seq<Order>, b: seq<Order>)
    ensures FillOrders(env, tick, st, a + b) == FillOrders(env, tick, FillOrders(env, tick, st, a), b)
    decreases |a|
  {
    hide FillOrder;
    if a == [] {
      assert a + b == b;
    } else {
      assert (a + b)[1..] == a[1..] + b;
      FillOrdersSplit(env, tick, FillOrder(env, tick, st, a[0]), a[1..], b);
    }
  }

  lemma NoneIn(pending: seq<Order>, id: nat)
    requires forall o :: o in pending ==> o.id != id
    ensures !InBook(pending, id)
  {
  }

  /** Trying other orders leaves an order's water mark and its presence in the book alone. */
  lemma OthersLeave<S>(env: Env<S>, tick: Tick, st: State<S>, orders: seq<Order>, id: nat)
    requires TickStamped(tick) && DistinctIds(orders) && forall p :: p in orders ==> p.id != id
    ensures var after := FillOrders(env, tick, st, orders);
            && Lookup(after.trail, id) == Lookup(st.trail, id)
            && (InBook(after.pending, id) <==> InBook(st.pending, id))
  {
    hide FillOrders, Lookup;
    FillOrdersTrail(env, tick, st, orders);
    FillOrdersAdd(env, tick, st, orders);
    var after := FillOrders(env, tick, st, orders);
    var added := after.pending[|st.pending|..];
    forall p | p in added ensures p.id != id {
      assert Remains(p, orders);
      var q :| q in orders && p == q.(quantity := p.quantity);
    }
    assert after.pending == st.pending + added;
    assert forall p :: p in after.pending <==> p in st.pending || p in added;
  }

  lemma SliceDiffers(orders: seq<Order>, i: nat)
    requires DistinctIds(orders) && i < |orders|
    ensures DistinctIds(orders[..i]) && DistinctIds(orders[i + 1..])
    ensures forall p :: p in orders[..i] ==> p.id != orders[i].id
    ensures forall p :: p in orders[i + 1..] ==> p.id != orders[i].id
    ensures orders == orders[..i] + [orders[i]] + orders[i + 1..]
  {
    var late := orders[i + 1..];
    assert forall j :: 0 <= j < |late| ==> late[j] == orders[i + 1 + j];
  }

  /** At an order's turn nothing has touched its mark yet, and after its turn nothing does. */
  lemma AroundTheTurn<S>(env: Env<S>, tick: Tick, st: State<S>, orders: seq<Order>, i: nat)
    requires TickStamped(tick) && DistinctIds(orders) && i < |orders| && !InBook(st.pending, orders[i].id)
    ensures var o := orders[i];
            var turn := FillOrders(env, tick, st, orders[..i]);
            var next := FillOrder(env, tick, turn, o);
            var after := FillOrders(env, tick, st, orders);
            && Lookup(turn.trail, o.id) == Lookup(st.trail, o.id) && !InBook(turn.pending, o.id)
            && Lookup(after.trail, o.id) == Lookup(next.trail, o.id)
            && (InBook(after.pending, o.id) <==> InBook(next.pending, o.id))
  {
    hide FillOrders, FillOrder, Lookup, InBook, DistinctIds;
    SliceDiffers(orders, i);
    var o := orders[i];
    var turn := FillOrders(env, tick, st, orders[..i]);
    OthersLeave(env, tick, st, orders[..i], o.id);
    FillOrdersSplit(env, tick, st, orders[..i] + [o], orders[i + 1..]);
    FillOrdersSnoc(env, tick, st, orders[..i], o);
    OthersLeave(env, tick, FillOrder(env, tick, turn, o), orders[i + 1..], o.id);
  }

  // ---------- Runs ----------

  /** Bar k tries the order: it is neither due to expire at the bar nor to be cancelled. */
  predicate IsTried<S>(env: Env<S>, k: nat, o: Order)
    requires k < |Timeline(env.market)|
  {
    Staying(k)(o) && o.id !in Run(env, k).cancels
  }

  lemma PendingDistinct<S>(env: Env<S>, k: nat)
    requires k <= |Timeline(env.market)|
    ensures DistinctIds(Run(env, k).pending)
  {
    hide Run;
    forall id: nat ensures Count(Run(env, k).pending, Has(id)) <= 1 {
      RunBalances(env, k, id);
    }
    CountDistinct(Run(env, k).pending);
  }

  lemma OnlyItself(pending: seq<Order>, o: Order, p: Order)
    requires DistinctIds(pending) && o in pending && p in pending && o.id == p.id
    ensures o == p
  {
  }

  lemma BarOrdersAreTried<S>(env: Env<S>, k: nat)
    requires k < |Timeline(env.market)|
    ensures BarOrders(env, k) == Tried(Run(env, k), k) && DistinctIds(BarOrders(env, k))
    ensures Opening(env, k).trail == Run(env, k).trail
    ensures forall o :: o in BarOrders(env, k) <==> o in Run(env, k).pending && IsTried(env, k, o)
  {
    hide Run, BeforeFills, Tried, Timeline;
    BeforeFillsShape(env, TickOf(env, k), Run(env, k));
    TriedDistinct(env, k, k);
    TriedMembers(Run(env, k), k);
  }

  /** After its orders a bar only adds new ones to the book and leaves the marks alone. */
  lemma BarTail<S>(env: Env<S>, k: nat, id: nat)
    requires k < |Timeline(env.market)| && id < |Run(env, k).log.submitted|
    ensures var filled := FillOrders(env, TickOf(env, k), Opening(env, k).(pending := []), BarOrders(env, k));
            && Run(env, k + 1).trail == filled.trail
            && (InBook(Run(env, k + 1).pending, id) <==> InBook(filled.pending, id))
  {
    hide FillOrders, BeforeFills, InBook;
    var before := Opening(env, k);
    var filled := FillOrders(env, TickOf(env, k), before.(pending := []), before.pending);
    BeforeFillsShape(env, TickOf(env, k), Run(env, k));
    FillsKeepSubmitted(env, TickOf(env, k), before.(pending := []), before.pending);
    StrategyAdds(env, TickOf(env, k), filled, id);
  }

  lemma StrategyAdds<S>(env: Env<S>, tick: Tick, st: State<S>, id: nat)
    requires id < |st.log.submitted|
    ensures InBook(StrategyPhase(env, tick, st).pending, id) <==> InBook(st.pending, id)
  {
    var response := env.strategy.onBar(st.strategy, ContextOf(env, tick, st));
    var orders := Submit(response.requests, tick.ts, tick.barCount, |st.log.submitted|);
    SubmitIsFresh(response.requests, tick.ts, tick.barCount, |st.log.submitted|);
    forall o | o in orders ensures o.id != id {
      var i :| 0 <= i < |orders| && orders[i] == o;
    }
    assert forall o :: o in st.pending + orders <==> o in st.pending || o in orders;
  }

  lemma MarkIsWater<S>(env: Env<S>, k: nat, o: Order)
    requires k <= |Timeline(env.market)| && o in Run(env, k).pending && o.kind.TrailingStop?
    ensures o.id in Run(env, k).trail <==> Water(env.market, Timeline(env.market), o, k).Some?
  {
    hide Run, Water;
    TrailingRatchet(env, k, o);
  }

  lemma SameLookup(a: map<nat, real>, b: map<nat, real>, id: nat)
    requires Lookup(a, id) == Lookup(b, id)
    ensures id in a <==> id in b
  {
  }

  /** An order that a bar does not try keeps its mark, if it has one. */
  lemma UntriedKeepsMark<S>(env: Env<S>, k: nat, id: nat)
    requires k < |Timeline(env.market)|
    requires forall o :: o in Tried(Run(env, k), k) ==> o.id != id
    ensures id in Run(env, k + 1).trail <==> id in Run(env, k).trail
  {
    hide Run, Tried, TickAt, Water;
    BarTrailOfRun(env, k + 1);
    var kept :| KeptByBar(env, k + 1, Run(env, k), Run(env, k + 1), kept);
    SameLookup(Run(env, k + 1).trail, Run(env, k).trail, id);
  }

  lemma LeavesUntried<S>(env: Env<S>, k: nat, o: Order)
    requires k < |Timeline(env.market)| && o in Run(env, k).pending && o.kind.TrailingStop? && !IsTried(env, k, o)
    ensures !InBook(Run(env, k + 1).pending, o.id)
    ensures o.id in Run(env, k + 1).trail <==> Water(env.market, Timeline(env.market), o, k).Some?
  {
    hide Run, Tried, Water, InBook;
    PendingDistinct(env, k);
    TriedMembers(Run(env, k), k);
    SubmittedBefore(env, k, o);
    forall p | p in Tried(Run(env, k), k) ensures p.id != o.id {
      if p.id == o.id {
        OnlyItself(Run(env, k).pending, o, p);
      }
    }
    UntriedLeaves(env, k + 1, o.id);
    UntriedKeepsMark(env, k, o.id);
    MarkIsWater(env, k, o);
  }

  /** The state of bar k at the order's turn. */
  function AtTurn<S>(env: Env<S>, k: nat, o: Order): State<S>
    requires k < |Timeline(env.market)| && o in BarOrders(env, k)
  {
    MidBar(env, k, IndexOf(BarOrders(env, k), o))
  }

  lemma TurnDecides<S>(env: Env<S>, k: nat, o: Order)
    requires k < |Timeline(env.market)| && o in BarOrders(env, k) && o.kind.TrailingStop?
    ensures var next := FillOrder(env, TickOf(env, k), AtTurn(env, k, o), o);
            && !InBook(AtTurn(env, k, o).pending, o.id)
            && Lookup(AtTurn(env, k, o).trail, o.id) == Lookup(Run(env, k).trail, o.id)
            && (o.id in Run(env, k + 1).trail <==> o.id in next.trail)
            && (InBook(Run(env, k + 1).pending, o.id) <==> InBook(next.pending, o.id))
  {
    hide Run, FillOrders, FillOrder, BeforeFills, Lookup, DistinctIds;
    BarOrdersAreTried(env, k);
    SubmittedBefore(env, k, o);
    var opening := Opening(env, k).(pending := []);
    NoneIn(opening.pending, o.id);
    hide InBook;
    var orders := BarOrders(env, k);
    AroundTheTurn(env, TickOf(env, k), opening, orders, IndexOf(orders, o));
    BarTail(env, k, o.id);
    SameLookup(Run(env, k + 1).trail, FillOrder(env, TickOf(env, k), AtTurn(env, k, o), o).trail, o.id);
  }

  /**
   Every way of leaving the book. Bar k of a run has the following in store for a trailing
   order that rests in it. If the order expires or is to be cancelled it leaves, and its mark
   stays exactly if some earlier bar had tried it. If its symbol does not trade it stays as
   it is. Otherwise, decided by the state at its turn: it leaves if it is completed or
   refused, and its mark is forgotten if and only if it is completed.
   */
  lemma MarkAfterBar<S>(env: Env<S>, k: nat, o: Order)
    requires k < |Timeline(env.market)| && o in Run(env, k).pending && o.kind.TrailingStop?
    ensures o in BarOrders(env, k) <==> IsTried(env, k, o)
    ensures var next := Run(env, k + 1);
            var tick := TickOf(env, k);
            if o !in BarOrders(env, k) then
              && !InBook(next.pending, o.id)
              && (o.id in next.trail <==> Water(env.market, Timeline(env.market), o, k).Some?)
            else if o.symbol !in tick.bars then
              && InBook(next.pending, o.id)
              && (o.id in next.trail <==> Water(env.market, Timeline(env.market), o, k).Some?)
            else
              && (!InBook(next.pending, o.id) <==>
                    Completes(env, tick, AtTurn(env, k, o), o) || Refused(env, tick, AtTurn(env, k, o), o))
              && (o.id !in next.trail <==> Completes(env, tick, AtTurn(env, k, o), o))
  {
    hide Run, Tried, Water, FillOrders, BeforeFills, AtTurn, BarOrders, TickAt, Completes, Refused;
    BarOrdersAreTried(env, k);
    if o !in BarOrders(env, k) {
      LeavesUntried(env, k, o);
    } else {
      TurnDecides(env, k, o);
      MarkIsWater(env, k, o);
      var turn := AtTurn(env, k, o);
      SameLookup(turn.trail, Run(env, k).trail, o.id);
      if o.symbol in TickOf(env, k).bars {
        MarkDroppedIff(env, TickOf(env, k), turn, o);
        BookAfterTurn(turn.pending, FillOrder(env, TickOf(env, k), turn, o).pending, o);
      } else {
        BookAfterTurn(turn.pending, turn.pending + [o], o);
      }
    }
  }

  lemma BookAfterTurn(before: seq<Order>, after: seq<Order>, o: Order)
    requires !InBook(before, o.id)
    requires after == before || (|after| > |before| && after == before + [o.(quantity := after[|before|].quantity)])
    ensures InBook(after, o.id) <==> after != before
  {
    if after != before {
      assert after[|before|] in after && after[|before|].id == o.id;
    }
  }

  /** A mark left behind stays for the rest of the run, and a forgotten one is never seen again. */
  lemma {:induction false} MarkStaysPut<S>(env: Env<S>, k: nat, n: nat, id: nat)
    requires k <= n <= |Timeline(env.market)|
    requires id < |Run(env, k).log.submitted| && !InBook(Run(env, k).pending, id)
    ensures id in Run(env, n).trail <==> id in Run(env, k).trail
  {
    hide Step, Tried;
    if k == n {
    } else {
      MarkStaysPut(env, k, n - 1, id);
      GoneForGood(env, k, n - 1, id);
      TriedMembers(Run(env, n - 1), n - 1);
      UntriedKeepsMark(env, n - 1, id);
    }
  }

  /**
   When the text "dropped when the order leaves the book" holds: for a trailing order that
   leaves at bar k, no mark is left at any later point of the run if and only if bar k
   completes it, or expires or cancels it before any bar has tried it.
   */
  lemma MarkForgottenIff<S>(env: Env<S>, k: nat, n: nat, o: Order)
    requires k < n <= |Timeline(env.market)| && o in Run(env, k).pending && o.kind.TrailingStop?
    requires !InBook(Run(env, k + 1).pending, o.id)
    ensures o in BarOrders(env, k) <==> IsTried(env, k, o)
    ensures o.id !in Run(env, n).trail <==>
              if o in BarOrders(env, k)
              then o.symbol in TickOf(env, k).bars && Completes(env, TickOf(env, k), AtTurn(env, k, o), o)
              else Water(env.market, Timeline(env.market), o, k).None?
  {
    hide Run, Tried, Water, FillOrders, BeforeFills, AtTurn, BarOrders, TickAt, Completes, Refused, IsTried, InBook;
    MarkAfterBar(env, k, o);
    SubmittedBefore(env, k, o);
    SubmittedGrows(env, k);
    MarkStaysPut(env, k + 1, n, o.id);
  }

  lemma SubmittedGrows<S>(env: Env<S>, k: nat)
    requires k < |Timeline(env.market)|
    ensures |Run(env, k).log.submitted| <= |Run(env, k + 1).log.submitted|
  {
    hide Run, Tried, BarFills;
    BarShape(env, k + 1);
  }
}
