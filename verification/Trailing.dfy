/**
 Trailing stops over whole runs: the stored water mark is the extreme of the bars on which
 the order has been tried, its trigger ratchets, and it fires on a breach of that trigger.
 */
module Trailing {
  import opened Prelude
  import opened Types
  import opened Fills
  import opened Accounts
  import opened Timelines
  import opened Engine
  import opened Causality
  import opened Orders
  import opened Lifecycle

  /** The bar on which bar j of the timeline tries an order: one after its submission that trades its symbol. */
  function TriedOn(m: Market, o: Order, ts: int): Option<Bar> {
    if ts <= o.submittedTs || o.symbol !in BarsAt(m, ts) then None else Some(BarsAt(m, ts)[o.symbol])
  }

  /** The running high (SELL) or low (BUY) over the bars among the first k that tried the order. */
  function Water(m: Market, tl: seq<int>, o: Order, k: nat): Option<real>
    requires k <= |tl|
  {
    if k == 0 then None
    else
      var before := Water(m, tl, o, k - 1);
      match TriedOn(m, o, tl[k - 1])
      case None => before
      case Some(bar) => Some(NextWater(o.side, before, bar))
  }

  function Mark(side: Side, bar: Bar): real {
    if side == Sell then bar.high else bar.low
  }

  predicate AtLeastAsFar(side: Side, water: real, mark: real) {
    if side == Sell then water >= mark else water <= mark
  }

  /** The water mark is an extreme: none before any trial, else reached by one and passed by none. */
  lemma {:induction false} WaterIsExtreme(m: Market, tl: seq<int>, o: Order, k: nat)
    requires k <= |tl|
    ensures Water(m, tl, o, k).None? <==> forall j :: 0 <= j < k ==> TriedOn(m, o, tl[j]).None?
    ensures Water(m, tl, o, k).Some? ==>
              && (forall j :: 0 <= j < k && TriedOn(m, o, tl[j]).Some? ==>
                    AtLeastAsFar(o.side, Water(m, tl, o, k).value, Mark(o.side, TriedOn(m, o, tl[j]).value)))
              && (exists j :: 0 <= j < k && TriedOn(m, o, tl[j]).Some?
                    && Water(m, tl, o, k).value == Mark(o.side, TriedOn(m, o, tl[j]).value))
  {
    hide TriedOn;
    if k == 0 {
    } else {
      WaterIsExtreme(m, tl, o, k - 1);
      var before, now := Water(m, tl, o, k - 1), TriedOn(m, o, tl[k - 1]);
      if now.Some? && (before.None? || before.value != Water(m, tl, o, k).value) {
        assert Water(m, tl, o, k).value == Mark(o.side, now.value);
      }
    }
  }

  lemma {:induction false} WaterMoves(m: Market, tl: seq<int>, o: Order, j: nat, k: nat)
    requires j <= k <= |tl| && Water(m, tl, o, j).Some?
    ensures Water(m, tl, o, k).Some? && AtLeastAsFar(o.side, Water(m, tl, o, k).value, Water(m, tl, o, j).value)
  {
    hide TriedOn;
    if j < k {
      WaterMoves(m, tl, o, j, k - 1);
    }
  }

  function TriggerAt(m: Market, tl: seq<int>, o: Order, k: nat): real
    requires k <= |tl| && o.kind.TrailingStop? && Water(m, tl, o, k).Some?
  {
    TrailTrigger(o.side, o.kind.percent, Water(m, tl, o, k).value)
  }

  /** Bar j trades through the trigger that is in force on it. */
  predicate BreachAt(m: Market, tl: seq<int>, o: Order, j: nat)
    requires j < |tl| && o.kind.TrailingStop?
  {
    && TriedOn(m, o, tl[j]).Some?
    && Water(m, tl, o, j + 1).Some?
    && Breached(o.side, TriggerAt(m, tl, o, j + 1), TriedOn(m, o, tl[j]).value)
  }

  /** The trigger only ever moves in the protective direction: for BUY at any trail, for SELL at one of at most 100 percent. */
  lemma TriggerRatchets(m: Market, tl: seq<int>, o: Order, j: nat, k: nat)
    requires j <= k <= |tl| && Water(m, tl, o, j).Some?
    requires o.kind.TrailingStop? && o.kind.percent > 0.0 && (o.side == Sell ==> o.kind.percent <= 100.0)
    ensures Water(m, tl, o, k).Some?
    ensures AtLeastAsFar(o.side, TriggerAt(m, tl, o, k), TriggerAt(m, tl, o, j))
  {
    WaterMoves(m, tl, o, j, k);
    TriggerFollows(o.side, o.kind.percent, Water(m, tl, o, j).value, Water(m, tl, o, k).value);
  }

  lemma TriggerFollows(side: Side, percent: real, early: real, late: real)
    requires percent > 0.0 && (side == Sell ==> percent <= 100.0) && AtLeastAsFar(side, late, early)
    ensures AtLeastAsFar(side, TrailTrigger(side, percent, late), TrailTrigger(side, percent, early))
  {
    var factor := if side == Sell then 1.0 - percent / 100.0 else 1.0 + percent / 100.0;
    assert (late - early) * factor == late * factor - early * factor;
    if side == Sell {
      NonNegativeTimes(late - early, factor);
    } else {
      NonNegativeTimes(early - late, factor);
      assert (early - late) * factor == early * factor - late * factor;
    }
  }

  /** A SELL trigger rises with its water mark if and only if the trail is at most 100 percent. */
  lemma SellRatchetCondition(percent: real)
    ensures percent <= 100.0 <==>
              forall low: real, high: real {:trigger TrailTrigger(Sell, percent, low), TrailTrigger(Sell, percent, high)} ::
                low < high ==> TrailTrigger(Sell, percent, low) <= TrailTrigger(Sell, percent, high)
  {
    if percent <= 100.0 {
      forall low: real, high: real | low < high
        ensures TrailTrigger(Sell, percent, low) <= TrailTrigger(Sell, percent, high)
      {
        var factor := 1.0 - percent / 100.0;
        NonNegativeTimes(high - low, factor);
        assert (high - low) * factor == high * factor - low * factor;
      }
    } else {
      assert TrailTrigger(Sell, percent, 0.0) == 0.0 > TrailTrigger(Sell, percent, 1.0);
    }
  }

  // ---------- One bar ----------

  /** The water mark after a tick, from the stored one. */
  function WaterAfter(tick: Tick, o: Order, stored: Option<real>): Option<real> {
    if o.symbol in tick.bars then Some(NextWater(o.side, stored, tick.bars[o.symbol])) else stored
  }

  /** The tick breaches the order's trigger, given the water mark stored before it. */
  predicate TickBreaches(tick: Tick, o: Order, stored: Option<real>)
    requires o.kind.TrailingStop?
  {
    && o.symbol in tick.bars
    && Breached(o.side, TrailTrigger(o.side, o.kind.percent, WaterAfter(tick, o, stored).value), tick.bars[o.symbol])
  }

  lemma FillOrderTrail<S>(env: Env<S>, tick: Tick, st: State<S>, o: Order)
    ensures var after := FillOrder(env, tick, st, o);
            && (forall id: nat :: id != o.id ==> Lookup(after.trail, id) == Lookup(st.trail, id))
            && (|after.pending| > |st.pending| && o.kind.TrailingStop? ==>
                  && Lookup(after.trail, o.id) == WaterAfter(tick, o, Lookup(st.trail, o.id))
                  && (env.config.maxPctOfVolume.None? ==> !TickBreaches(tick, o, Lookup(st.trail, o.id))))
            && (|after.log.fills| > |st.log.fills| && o.kind.TrailingStop? ==>
                  TickBreaches(tick, o, Lookup(st.trail, o.id)))
  {
    hide Objection, ApplyFill, Touch;
  }

  /** What a bar means for the trailing orders it tries, in terms of the marks stored before it. */
  ghost predicate TrailMoves(config: Config, tick: Tick, trail: map<nat, real>, orders: seq<Order>,
                          after: map<nat, real>, pending: seq<Order>, fills: seq<Fill>)
  {
    && (forall id: nat :: (forall o :: o in orders ==> o.id != id) ==> Lookup(after, id) == Lookup(trail, id))
    && (forall o :: o in pending && o.kind.TrailingStop? ==>
          && Lookup(after, o.id) == WaterAfter(tick, o, Lookup(trail, o.id))
          && (config.maxPctOfVolume.None? ==> !TickBreaches(tick, o, Lookup(trail, o.id))))
    && (forall f, o :: f in fills && o in orders && f.id == OrderId(o.id) && o.kind.TrailingStop? ==>
          TickBreaches(tick, o, Lookup(trail, o.id)))
  }

  lemma NothingMoves(config: Config, tick: Tick, trail: map<nat, real>)
    ensures TrailMoves(config, tick, trail, [], trail, [], [])
  {
  }

  lemma OthersDiffer(orders: seq<Order>)
    requires orders != [] && DistinctIds(orders)
    ensures DistinctIds(orders[1..]) && forall p :: p in orders[1..] ==> p.id != orders[0].id
    ensures orders == [orders[0]] + orders[1..]
  {
    var rest := orders[1..];
    assert forall i :: 0 <= i < |rest| ==> rest[i] == orders[i + 1];
  }

  lemma {:induction false} FillOrdersTrail<S>(env: Env<S>, tick: Tick, st: State<S>, orders: seq<Order>)
    requires TickStamped(tick) && DistinctIds(orders)
    ensures var after := FillOrders(env, tick, st, orders);
            && |st.pending| <= |after.pending| && |st.log.fills| <= |after.log.fills|
            && TrailMoves(env.config, tick, st.trail, orders, after.trail,
                          after.pending[|st.pending|..], after.log.fills[|st.log.fills|..])
    decreases |orders|
  {
    hide FillOrder, TrailMoves, WaterAfter, TickBreaches, FillsOnce, AllRemain, FillOf, Lookup, DistinctIds, Remains;
    if orders == [] {
      NothingMoves(env.config, tick, st.trail);
      assert st.pending[|st.pending|..] == [] && st.log.fills[|st.log.fills|..] == [];
    } else {
      var o, rest := orders[0], orders[1..];
      var next := FillOrder(env, tick, st, o);
      FillOrderAdds(env, tick, st, o);
      FillOrderTrail(env, tick, st, o);
      OthersDiffer(orders);
      FillOrdersTrail(env, tick, next, rest);
      FillOrdersAdd(env, tick, next, rest);
      var after := FillOrders(env, tick, next, rest);
      var kept, later := next.pending[|st.pending|..], after.pending[|next.pending|..];
      var first, added := next.log.fills[|st.log.fills|..], after.log.fills[|next.log.fills|..];
      assert after.pending[|st.pending|..] == kept + later;
      assert after.log.fills[|st.log.fills|..] == first + added;
      TrailMovesJoin(env.config, tick, st.trail, o, rest, next.trail, after.trail, kept, later, first, added);
    }
  }

  /** Trying one order and then the others moves the marks as trying them all does. */
  lemma TrailMovesJoin(config: Config, tick: Tick, trail: map<nat, real>, o: Order, rest: seq<Order>,
                       mid: map<nat, real>, after: map<nat, real>,
                       kept: seq<Order>, later: seq<Order>, first: seq<Fill>, added: seq<Fill>)
    requires forall p :: p in rest ==> p.id != o.id
    requires forall id: nat :: id != o.id ==> Lookup(mid, id) == Lookup(trail, id)
    requires forall p :: p in kept ==> p == o.(quantity := p.quantity)
    requires kept != [] && o.kind.TrailingStop? ==>
               && Lookup(mid, o.id) == WaterAfter(tick, o, Lookup(trail, o.id))
               && (config.maxPctOfVolume.None? ==> !TickBreaches(tick, o, Lookup(trail, o.id)))
    requires forall f :: f in first ==> FillOf(o, tick.ts, f)
    requires first != [] && o.kind.TrailingStop? ==> TickBreaches(tick, o, Lookup(trail, o.id))
    requires TrailMoves(config, tick, mid, rest, after, later, added)
    requires AllRemain(later, rest) && FillsOnce(rest, tick.ts, added)
    ensures TrailMoves(config, tick, trail, [o] + rest, after, kept + later, first + added)
  {
    var orders := [o] + rest;
    forall id: nat | forall p :: p in orders ==> p.id != id ensures Lookup(after, id) == Lookup(trail, id) {
      assert o in orders;
      assert forall p :: p in rest ==> p in orders;
    }
    forall p | p in kept + later && p.kind.TrailingStop?
      ensures Lookup(after, p.id) == WaterAfter(tick, p, Lookup(trail, p.id))
      ensures config.maxPctOfVolume.None? ==> !TickBreaches(tick, p, Lookup(trail, p.id))
    {
      if p in kept {
        assert Lookup(after, o.id) == Lookup(mid, o.id);
      } else {
        assert Remains(p, rest);
        var q :| q in rest && p == q.(quantity := p.quantity);
      }
    }
    forall f, p | f in first + added && p in orders && f.id == OrderId(p.id) && p.kind.TrailingStop?
      ensures TickBreaches(tick, p, Lookup(trail, p.id))
    {
      if f in first {
        assert p == o;
      } else {
        var i :| 0 <= i < |added| && added[i] == f;
        assert FillsSome(rest, tick.ts, added[i]);
        var r :| r in rest && FillOf(r, tick.ts, f);
        assert p in rest;
      }
    }
  }

  lemma StepTrail<S>(env: Env<S>, tick: Tick, prev: State<S>)
    requires TickStamped(tick) && DistinctIds(Tried(prev, tick.barCount))
    ensures var next := Step(env, tick, prev);
            && |prev.log.fills| <= |next.log.fills| && |prev.log.submitted| <= |next.log.submitted|
            && exists kept :: next.pending == kept + next.log.submitted[|prev.log.submitted|..]
                 && AllRemain(kept, Tried(prev, tick.barCount))
                 && TrailMoves(env.config, tick, prev.trail, Tried(prev, tick.barCount), next.trail, kept,
                               next.log.fills[|prev.log.fills|..])
  {
    hide FillOrders, BeforeFills, Tried;
    var before := BeforeFills(env, tick, prev);
    BeforeFillsShape(env, tick, prev);
    FillOrdersTrail(env, tick, before.(pending := []), before.pending);
    FillOrdersAdd(env, tick, before.(pending := []), before.pending);
    FillsKeepSubmitted(env, tick, before.(pending := []), before.pending);
    var filled := FillPhase(env, tick, before);
    var response := env.strategy.onBar(filled.strategy, ContextOf(env, tick, filled));
    var orders := Submit(response.requests, tick.ts, tick.barCount, |filled.log.submitted|);
    assert filled.pending[0..] == filled.pending;
    assert (filled.log.submitted + orders)[|filled.log.submitted|..] == orders;
    var all := filled.log.fills[|prev.log.fills|..];
    var own := filled.log.fills[|before.log.fills|..];
    forall f | f in all && f.id.OrderId? ensures f in own {
      var i :| 0 <= i < |all| && all[i] == f;
      assert filled.log.fills[|prev.log.fills| + i] == f;
      var j := |prev.log.fills| + i - |before.log.fills|;
      assert own[j] == f;
    }
    assert TrailMoves(env.config, tick, prev.trail, before.pending, filled.trail, filled.pending, all);
  }

  // ---------- Runs ----------

  /** What holds of the trailing orders in the book after k bars. */
  ghost predicate Trails<S>(env: Env<S>, k: nat, st: State<S>)
    requires k <= |Timeline(env.market)|
  {
    && (forall id: nat :: id >= |st.log.submitted| ==> Lookup(st.trail, id) == None)
    && (forall o :: o in st.pending && o.kind.TrailingStop? ==> TrailsWell(env, k, st, o))
  }

  ghost predicate TrailsWell<S>(env: Env<S>, k: nat, st: State<S>, o: Order)
    requires k <= |Timeline(env.market)| && o.kind.TrailingStop?
  {
    && Lookup(st.trail, o.id) == Water(env.market, Timeline(env.market), o, k)
    && (env.config.maxPctOfVolume.None? ==>
          forall j :: 0 <= j < k ==> !BreachAt(env.market, Timeline(env.market), o, j))
  }

  /** An order's fill happened on a bar that breached its trigger, the first such bar when volume is not capped. */
  ghost predicate FiredOnBreach<S>(env: Env<S>, k: nat, o: Order, f: Fill)
    requires k <= |Timeline(env.market)| && o.kind.TrailingStop?
  {
    var tl := Timeline(env.market);
    exists j :: 0 <= j < k && tl[j] == f.filledTs && BreachAt(env.market, tl, o, j)
      && (env.config.maxPctOfVolume.None? ==> forall i :: 0 <= i < j ==> !BreachAt(env.market, tl, o, i))
  }

  /** Bar k leaves these of its tried orders in the book, with the marks moved accordingly. */
  ghost predicate KeptByBar<S>(env: Env<S>, k: nat, prev: State<S>, next: State<S>, kept: seq<Order>)
    requires 0 < k <= |Timeline(env.market)|
  {
    && |prev.log.fills| <= |next.log.fills| && |prev.log.submitted| <= |next.log.submitted|
    && next.pending == kept + next.log.submitted[|prev.log.submitted|..]
    && AllRemain(kept, Tried(prev, k - 1))
    && TrailMoves(env.config, TickAt(env.market, k - 1, Timeline(env.market)[k - 1]), prev.trail,
                  Tried(prev, k - 1), next.trail, kept, next.log.fills[|prev.log.fills|..])
  }

  ghost predicate BarTrail<S>(env: Env<S>, k: nat, prev: State<S>, next: State<S>)
    requires 0 < k <= |Timeline(env.market)|
  {
    exists kept :: KeptByBar(env, k, prev, next, kept)
  }

  /** Water marks and breaches do not depend on how much of the order is left. */
  lemma {:induction false} WaterIgnoresQuantity(m: Market, tl: seq<int>, o: Order, p: Order, k: nat)
    requires k <= |tl| && p == o.(quantity := p.quantity)
    ensures Water(m, tl, p, k) == Water(m, tl, o, k)
  {
    if k == 0 {
    } else {
      WaterIgnoresQuantity(m, tl, o, p, k - 1);
    }
  }

  lemma BreachIgnoresQuantity(m: Market, tl: seq<int>, o: Order, p: Order, j: nat)
    requires j < |tl| && p == o.(quantity := p.quantity) && o.kind.TrailingStop?
    ensures BreachAt(m, tl, p, j) <==> BreachAt(m, tl, o, j)
  {
    WaterIgnoresQuantity(m, tl, o, p, j + 1);
  }

  /** An order submitted before bar k - 1 meets it as its water mark and trigger say. */
  lemma TickMatches(m: Market, tl: seq<int>, k: nat, o: Order)
    requires 0 < k <= |tl| && o.kind.TrailingStop? && o.submittedTs < tl[k - 1]
    ensures var tick := TickAt(m, k - 1, tl[k - 1]);
            && WaterAfter(tick, o, Water(m, tl, o, k - 1)) == Water(m, tl, o, k)
            && (TickBreaches(tick, o, Water(m, tl, o, k - 1)) <==> BreachAt(m, tl, o, k - 1))
  {
  }

  lemma NotYetTried(m: Market, tl: seq<int>, k: nat, o: Order)
    requires 0 < k <= |tl| && StrictlyIncreasing(tl) && o.kind.TrailingStop? && o.submittedTs == tl[k - 1]
    ensures Water(m, tl, o, k).None?
    ensures forall j :: 0 <= j < k ==> !BreachAt(m, tl, o, j)
  {
    forall j | 0 <= j < k ensures TriedOn(m, o, tl[j]).None? {
      assert tl[j] <= tl[k - 1];
    }
    hide TriedOn;
    WaterIsExtreme(m, tl, o, k);
  }

  /** A pending order was submitted before the next bar. */
  lemma SubmittedBefore<S>(env: Env<S>, k: nat, o: Order)
    requires k < |Timeline(env.market)| && o in Run(env, k).pending
    ensures o.submittedTs < Timeline(env.market)[k] && o.id < |Run(env, k).log.submitted|
    ensures o == Run(env, k).log.submitted[o.id].(quantity := o.quantity)
  {
    hide Run;
    RunsInTime(env, k);
    RunBalances(env, k, 0);
    assert AsSubmitted(Run(env, k).log.submitted, o);
    assert SubmittedInTime(Timeline(env.market), k, Run(env, k).log.submitted[o.id]);
  }

  /** The trailing orders a bar leaves in the book carry the right marks. */
  lemma KeptTrails<S>(env: Env<S>, k: nat, prev: State<S>, next: State<S>, kept: seq<Order>, o: Order)
    requires 0 < k <= |Timeline(env.market)| && prev == Run(env, k - 1) && |prev.log.fills| <= |next.log.fills|
    requires Trails(env, k - 1, prev) && o in kept && o.kind.TrailingStop?
    requires AllRemain(kept, Tried(prev, k - 1))
    requires TrailMoves(env.config, TickAt(env.market, k - 1, Timeline(env.market)[k - 1]), prev.trail,
                        Tried(prev, k - 1), next.trail, kept, next.log.fills[|prev.log.fills|..])
    ensures TrailsWell(env, k, next, o)
  {
    hide Run, Tried, TickAt, WaterAfter, TickBreaches, Water, BreachAt;
    var tl := Timeline(env.market);
    assert Remains(o, Tried(prev, k - 1));
    var p :| p in Tried(prev, k - 1) && o == p.(quantity := o.quantity);
    TriedMembers(prev, k - 1);
    SubmittedBefore(env, k - 1, p);
    forall j | 0 <= j <= k ensures Water(env.market, tl, o, j) == Water(env.market, tl, p, j) {
      WaterIgnoresQuantity(env.market, tl, p, o, j);
    }
    forall j | 0 <= j < k ensures BreachAt(env.market, tl, o, j) <==> BreachAt(env.market, tl, p, j) {
      BreachIgnoresQuantity(env.market, tl, p, o, j);
    }
    assert TrailsWell(env, k - 1, prev, p);
    TickMatches(env.market, tl, k, o);
  }

  /** A trailing order that has just been submitted has no mark yet. */
  lemma FreshTrails<S>(env: Env<S>, k: nat, prev: State<S>, next: State<S>, kept: seq<Order>, o: Order)
    requires 0 < k <= |Timeline(env.market)| && |prev.log.fills| <= |next.log.fills|
    requires Trails(env, k - 1, prev) && AllSound(prev, []) && o.kind.TrailingStop?
    requires o.id >= |prev.log.submitted| && o.submittedTs == Timeline(env.market)[k - 1]
    requires TrailMoves(env.config, TickAt(env.market, k - 1, Timeline(env.market)[k - 1]), prev.trail,
                        Tried(prev, k - 1), next.trail, kept, next.log.fills[|prev.log.fills|..])
    ensures TrailsWell(env, k, next, o)
  {
    hide Tried, TickAt, WaterAfter, TickBreaches, Water, BreachAt;
    TriedMembers(prev, k - 1);
    forall p | p in Tried(prev, k - 1) ensures p.id != o.id {
      assert AsSubmitted(prev.log.submitted, p);
    }
    NotYetTried(env.market, Timeline(env.market), k, o);
  }

  lemma BarTrails<S>(env: Env<S>, k: nat, prev: State<S>, next: State<S>)
    requires 0 < k <= |Timeline(env.market)| && prev == Run(env, k - 1) && AllSound(prev, [])
    requires Trails(env, k - 1, prev)
    requires BarTrail(env, k, prev, next) && BarMoves(prev, next, k - 1, Timeline(env.market)[k - 1])
    ensures Trails(env, k, next)
  {
    hide Run, Tried, TickAt, TrailsWell, TrailMoves;
    var tick := TickAt(env.market, k - 1, Timeline(env.market)[k - 1]);
    var recent := next.log.submitted[|prev.log.submitted|..];
    var kept :| KeptByBar(env, k, prev, next, kept);
    forall o | o in next.pending && o.kind.TrailingStop? ensures TrailsWell(env, k, next, o) {
      if o in kept {
        KeptTrails(env, k, prev, next, kept, o);
      } else {
        var i :| 0 <= i < |recent| && recent[i] == o;
        assert recent[i].id == |prev.log.submitted| + i;
        FreshTrails(env, k, prev, next, kept, o);
      }
    }
    UnknownIds(env.config, tick, prev, next, k - 1, kept);
  }

  lemma {:induction false} RunTrails<S>(env: Env<S>, k: nat)
    requires k <= |Timeline(env.market)|
    ensures Trails(env, k, Run(env, k))
  {
    hide Run, Timeline, Trails, BarTrail, BarMoves, AllSound, Balanced;
    if k == 0 {
      RunStarts(env);
      InitialTrails(env);
    } else {
      RunTrails(env, k - 1);
      BarTrailOfRun(env, k);
      BarShape(env, k);
      RunBalances(env, k - 1, 0);
      BarTrails(env, k, Run(env, k - 1), Run(env, k));
    }
  }

  lemma InitialTrails<S>(env: Env<S>)
    ensures Trails(env, 0, Initial(env))
  {
  }

  lemma UnknownIds<S>(config: Config, tick: Tick, prev: State<S>, next: State<S>, barCount: nat, kept: seq<Order>)
    requires |prev.log.fills| <= |next.log.fills| && |prev.log.submitted| <= |next.log.submitted|
    requires AllSound(prev, [])
    requires forall id: nat :: id >= |prev.log.submitted| ==> Lookup(prev.trail, id) == None
    requires TrailMoves(config, tick, prev.trail, Tried(prev, barCount), next.trail, kept, next.log.fills[|prev.log.fills|..])
    ensures forall id: nat :: id >= |next.log.submitted| ==> Lookup(next.trail, id) == None
  {
    hide Tried;
    TriedMembers(prev, barCount);
    forall p | p in Tried(prev, barCount) ensures p.id < |prev.log.submitted| {
      assert AsSubmitted(prev.log.submitted, p);
    }
  }

  lemma BarTrailOfRun<S>(env: Env<S>, k: nat)
    requires 0 < k <= |Timeline(env.market)|
    ensures BarTrail(env, k, Run(env, k - 1), Run(env, k))
  {
    hide Step, Tried, TrailMoves;
    TriedDistinct(env, k - 1, k - 1);
    var prev, next := Run(env, k - 1), Run(env, k);
    StepTrail(env, TickAt(env.market, k - 1, Timeline(env.market)[k - 1]), prev);
    var kept :| next.pending == kept + next.log.submitted[|prev.log.submitted|..]
      && AllRemain(kept, Tried(prev, k - 1))
      && TrailMoves(env.config, TickAt(env.market, k - 1, Timeline(env.market)[k - 1]), prev.trail,
                    Tried(prev, k - 1), next.trail, kept, next.log.fills[|prev.log.fills|..]);
    assert KeptByBar(env, k, prev, next, kept);
  }

  /**
   The ratchet. After any number of bars every trailing order in the book has, as its stored
   water mark, exactly the running extreme of the bars that tried it; and without a volume
   cap none of those bars traded through the trigger in force on it.
   */
  lemma TrailingRatchet<S>(env: Env<S>, k: nat, o: Order)
    requires k <= |Timeline(env.market)|
    requires o in Run(env, k).pending && o.kind.TrailingStop?
    ensures Lookup(Run(env, k).trail, o.id) == Water(env.market, Timeline(env.market), o, k)
    ensures env.config.maxPctOfVolume.None? ==>
              forall j :: 0 <= j < k ==> !BreachAt(env.market, Timeline(env.market), o, j)
  {
    hide Run;
    RunTrails(env, k);
    assert TrailsWell(env, k, Run(env, k), o);
  }

  lemma FiresNow<S>(env: Env<S>, k: nat, prev: State<S>, next: State<S>, kept: seq<Order>, f: Fill)
    requires 0 < k <= |Timeline(env.market)| && prev == Run(env, k - 1)
    requires |prev.log.fills| <= |next.log.fills| && prev.log.submitted <= next.log.submitted
    requires f in next.log.fills[|prev.log.fills|..] && f.id.OrderId?
    requires Trails(env, k - 1, prev)
    requires BarFills(Tried(prev, k - 1), Timeline(env.market)[k - 1], next.log.fills[|prev.log.fills|..])
    requires TrailMoves(env.config, TickAt(env.market, k - 1, Timeline(env.market)[k - 1]), prev.trail,
                        Tried(prev, k - 1), next.trail, kept, next.log.fills[|prev.log.fills|..])
    ensures f.id.id < |next.log.submitted|
    ensures next.log.submitted[f.id.id].kind.TrailingStop? ==> FiredOnBreach(env, k, next.log.submitted[f.id.id], f)
  {
    hide Run, Tried, TickAt, WaterAfter, TickBreaches, Water, BreachAt, BarFills;
    var tl := Timeline(env.market);
    var added := next.log.fills[|prev.log.fills|..];
    var a :| 0 <= a < |added| && added[a] == f;
    NewFillsSome(Tried(prev, k - 1), tl[k - 1], added, a);
    var p :| p in Tried(prev, k - 1) && FillOf(p, tl[k - 1], f);
    TriedMembers(prev, k - 1);
    SubmittedBefore(env, k - 1, p);
    var o := prev.log.submitted[p.id];
    assert next.log.submitted[p.id] == o;
    if o.kind.TrailingStop? {
      assert TrailsWell(env, k - 1, prev, p);
      TickMatches(env.market, tl, k, p);
      forall j | 0 <= j < k ensures BreachAt(env.market, tl, o, j) <==> BreachAt(env.market, tl, p, j) {
        BreachIgnoresQuantity(env.market, tl, p, o, j);
      }
      assert BreachAt(env.market, tl, o, k - 1) && tl[k - 1] == f.filledTs;
    }
  }

  /**
   A trailing stop fires on a breach. In every run each fill of a trailing order happened on
   a bar that traded through the trigger in force on it; without a volume cap that bar is
   the first one that did.
   */
  lemma {:induction false} TrailingFires<S>(env: Env<S>, k: nat, f: Fill)
    requires k <= |Timeline(env.market)|
    requires f in Run(env, k).log.fills && f.id.OrderId?
    ensures f.id.id < |Run(env, k).log.submitted|
    ensures Run(env, k).log.submitted[f.id.id].kind.TrailingStop? ==>
              FiredOnBreach(env, k, Run(env, k).log.submitted[f.id.id], f)
  {
    hide Step, Tried, TickAt, TrailMoves, BarFills, FiredOnBreach, Trails;
    if k == 0 {
    } else {
      BarShape(env, k);
      var prev, next := Run(env, k - 1), Run(env, k);
      if f in prev.log.fills {
        TrailingFires(env, k - 1, f);
        FiredStays(env, k - 1, prev.log.submitted[f.id.id], f);
      } else {
        BarTrailOfRun(env, k);
        RunTrails(env, k - 1);
        var kept :| KeptByBar(env, k, prev, next, kept);
        InSuffix(prev.log.fills, next.log.fills, f);
        FiresNow(env, k, prev, next, kept, f);
      }
    }
  }

  lemma InSuffix<T>(before: seq<T>, after: seq<T>, x: T)
    requires before <= after && x in after && x !in before
    ensures x in after[|before|..]
  {
    assert after == before + after[|before|..];
  }

  lemma FiredStays<S>(env: Env<S>, k: nat, o: Order, f: Fill)
    requires k < |Timeline(env.market)| && o.kind.TrailingStop? ==> FiredOnBreach(env, k, o, f)
    ensures k < |Timeline(env.market)| && o.kind.TrailingStop? ==> FiredOnBreach(env, k + 1, o, f)
  {
  }
}
