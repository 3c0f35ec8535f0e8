/**
 When orders fill. Over every run a fill happens after its order's submission bar and
 before its expiry, at most once per bar, and never once the order has left the book or
 its cancellation has been requested.
 */
module Lifecycle {
  import opened Prelude
  import opened Types
  import opened Fills
  import opened Accounts
  import opened Timelines
  import opened Engine
  import opened Causality
  import opened Orders

  predicate DistinctIds(orders: seq<Order>) {
    forall i, j :: 0 <= i < j < |orders| ==> orders[i].id != orders[j].id
  }

  /** A fill made for an order at a timestamp. */
  predicate FillOf(o: Order, ts: int, f: Fill) {
    && f.id == OrderId(o.id) && f.symbol == o.symbol && f.side == o.side && f.tags == o.tags
    && f.submittedTs == o.submittedTs && f.filledTs == ts
  }

  predicate FillsSome(orders: seq<Order>, ts: int, f: Fill) {
    exists o :: o in orders && FillOf(o, ts, f)
  }

  /** Each fill is for one of the orders, and no order is filled twice. */
  predicate FillsOnce(orders: seq<Order>, ts: int, fills: seq<Fill>) {
    && (forall i :: 0 <= i < |fills| ==> FillsSome(orders, ts, fills[i]))
    && (forall i, j :: 0 <= i < j < |fills| ==> fills[i].id != fills[j].id)
  }

  /** Each resting order is one of the originals, with what is left of its quantity. */
  predicate Remains(o: Order, orders: seq<Order>) {
    exists p :: p in orders && o == p.(quantity := o.quantity)
  }

  predicate AllRemain(pending: seq<Order>, orders: seq<Order>) {
    forall o :: o in pending ==> Remains(o, orders)
  }

  /** The fills grew by at most one, made for the order. */
  predicate FillsGrow(o: Order, ts: int, prev: seq<Fill>, next: seq<Fill>) {
    next == prev || (|next| == |prev| + 1 && next[..|prev|] == prev && FillOf(o, ts, next[|prev|]))
  }

  /** The book grew by at most one, the order with what is left of it. */
  predicate BookGrows(o: Order, prev: seq<Order>, next: seq<Order>) {
    next == prev || (|next| == |prev| + 1 && next[..|prev|] == prev && next[|prev|] == o.(quantity := next[|prev|].quantity))
  }

  predicate FillsGain(orders: seq<Order>, ts: int, prev: seq<Fill>, next: seq<Fill>) {
    prev <= next && FillsOnce(orders, ts, next[|prev|..])
  }

  predicate BookGains(orders: seq<Order>, prev: seq<Order>, next: seq<Order>) {
    prev <= next && AllRemain(next[|prev|..], orders)
  }

  /** What trying one order adds: at most one fill, its own, and at most itself to the book. */
  lemma FillOrderAdds<S>(env: Env<S>, tick: Tick, st: State<S>, o: Order)
    requires TickStamped(tick)
    ensures var after := FillOrder(env, tick, st, o);
            FillsGrow(o, tick.ts, st.log.fills, after.log.fills) && BookGrows(o, st.pending, after.pending)
  {
    hide Objection, ApplyFill, Touch, TryFill;
    if o.symbol in tick.bars && TryFill(o, tick.bars[o.symbol], env.config, st.trail).0.Some? {
      FillNamesOrder(o, tick.bars[o.symbol], env.config, st.trail);
    }
  }

  lemma FillsGainJoin(orders: seq<Order>, ts: int, prev: seq<Fill>, mid: seq<Fill>, next: seq<Fill>)
    requires orders != [] && DistinctIds(orders)
    requires FillsGrow(orders[0], ts, prev, mid) && FillsGain(orders[1..], ts, mid, next)
    ensures FillsGain(orders, ts, prev, next)
  {
    var added := next[|mid|..];
    Widen(orders[1..], orders, ts, added);
    if mid == prev {
    } else {
      var first := mid[|prev|];
      assert next[|prev|..] == [first] + added;
      assert FillsSome(orders, ts, first) by { assert orders[0] in orders; }
      forall i | 0 <= i < |added| ensures added[i].id != first.id {
        assert FillsSome(orders[1..], ts, added[i]);
        var o :| o in orders[1..] && FillOf(o, ts, added[i]);
        var j :| 0 <= j < |orders[1..]| && orders[1..][j] == o;
        assert orders[j + 1] == o;
      }
    }
  }

  lemma BookGainsJoin(orders: seq<Order>, prev: seq<Order>, mid: seq<Order>, next: seq<Order>)
    requires orders != [] && BookGrows(orders[0], prev, mid) && BookGains(orders[1..], mid, next)
    ensures BookGains(orders, prev, next)
  {
    var later := next[|mid|..];
    forall o | o in later ensures Remains(o, orders) {
      assert Remains(o, orders[1..]);
      var p :| p in orders[1..] && o == p.(quantity := o.quantity);
      assert p in orders;
    }
    if mid == prev {
    } else {
      assert next[|prev|..] == [mid[|prev|]] + later;
      assert Remains(mid[|prev|], orders) by { assert orders[0] in orders; }
    }
  }

  lemma {:induction false} FillOrdersAdd<S>(env: Env<S>, tick: Tick, st: State<S>, orders: seq<Order>)
    requires TickStamped(tick) && DistinctIds(orders)
    ensures var after := FillOrders(env, tick, st, orders);
            FillsGain(orders, tick.ts, st.log.fills, after.log.fills) && BookGains(orders, st.pending, after.pending)
    decreases |orders|
  {
    hide FillOrder;
    if orders == [] {
    } else {
      var next := FillOrder(env, tick, st, orders[0]);
      FillOrderAdds(env, tick, st, orders[0]);
      FillOrdersAdd(env, tick, next, orders[1..]);
      var after := FillOrders(env, tick, next, orders[1..]);
      FillsGainJoin(orders, tick.ts, st.log.fills, next.log.fills, after.log.fills);
      BookGainsJoin(orders, st.pending, next.pending, after.pending);
      hide FillsGain, BookGains, FillsGrow, BookGrows;
    }
  }

  lemma Widen(orders: seq<Order>, more: seq<Order>, ts: int, fills: seq<Fill>)
    requires forall o :: o in orders ==> o in more
    requires FillsOnce(orders, ts, fills)
    ensures FillsOnce(more, ts, fills)
  {
    forall i | 0 <= i < |fills| ensures FillsSome(more, ts, fills[i]) {
      assert FillsSome(orders, ts, fills[i]);
      var o :| o in orders && FillOf(o, ts, fills[i]);
      assert o in more;
    }
  }

  // ---------- What a whole bar adds ----------

  /** The orders a bar tries: pending, not expired at it, and not to be cancelled. */
  function Tried<S>(st: State<S>, barCount: nat): seq<Order> {
    Filter(Filter(st.pending, Staying(barCount)), Keeping(st.cancels))
  }

  lemma TriedMembers<S>(st: State<S>, barCount: nat)
    ensures forall o :: o in Tried(st, barCount) <==>
              o in st.pending && Staying(barCount)(o) && o.id !in st.cancels
  {
    FilterMembers(st.pending, Staying(barCount));
    FilterMembers(Filter(st.pending, Staying(barCount)), Keeping(st.cancels));
  }

  lemma BeforeFillsShape<S>(env: Env<S>, tick: Tick, st: State<S>)
    ensures var before := BeforeFills(env, tick, st);
            && before.pending == Tried(st, tick.barCount)
            && before.trail == st.trail
            && before.log.submitted == st.log.submitted
            && before.marks == MarkPhase(tick, st).marks
            && st.log.fills <= before.log.fills
            && (forall i :: |st.log.fills| <= i < |before.log.fills| ==> before.log.fills[i].id.Expiry?)
  {
    var marked := MarkPhase(tick, st);
    SettleKeepsOrders(env.config, tick, marked, SymbolsOf(marked.account.book), 0);
    SettleKeepsMarks(env.config, tick, marked, SymbolsOf(marked.account.book));
    if st.cancels == {} {
      FilterAll(Filter(st.pending, Staying(tick.barCount)), Keeping(st.cancels));
    }
  }

  lemma {:induction false} CountDistinct(orders: seq<Order>)
    requires forall id: nat :: Count(orders, Has(id)) <= 1
    ensures DistinctIds(orders)
  {
    if orders == [] {
    } else {
      var rest := orders[1..];
      forall id: nat ensures Count(rest, Has(id)) <= 1 {
        assert Count(orders, Has(id)) <= 1;
      }
      CountDistinct(rest);
      assert Count(orders, Has(orders[0].id)) <= 1;
      CountZero(rest, Has(orders[0].id));
      forall j | 1 <= j < |orders| ensures orders[j].id != orders[0].id {
        assert rest[j - 1] in rest;
      }
      forall i, j | 0 <= i < j < |orders| ensures orders[i].id != orders[j].id {
        if i > 0 { assert rest[i - 1] == orders[i] && rest[j - 1] == orders[j]; }
      }
    }
  }

  lemma TriedDistinct<S>(env: Env<S>, k: nat, barCount: nat)
    requires k <= |Timeline(env.market)|
    ensures DistinctIds(Tried(Run(env, k), barCount))
  {
    hide Run;
    var st := Run(env, k);
    var staying := Filter(st.pending, Staying(barCount));
    forall id: nat ensures Count(Tried(st, barCount), Has(id)) <= 1 {
      RunBalances(env, k, id);
      FilterSplits(st.pending, Staying(barCount), Expiring(barCount), Rests(id), Has(id));
      FilterSplits(staying, Keeping(st.cancels), Cancelling(st.cancels), Rests(id), Has(id));
    }
    CountDistinct(Tried(st, barCount));
  }

  /** Only strategy orders that were tried fill, once each; the rest of a bar's fills settle options. */
  predicate BarFills(tried: seq<Order>, ts: int, fills: seq<Fill>) {
    exists n :: 0 <= n <= |fills| && (forall i :: 0 <= i < n ==> fills[i].id.Expiry?) && FillsOnce(tried, ts, fills[n..])
  }

  /** What one bar does to the fills, the submissions and the book. */
  predicate BarMoves<S>(prev: State<S>, next: State<S>, barCount: nat, ts: int) {
    && prev.log.fills <= next.log.fills
    && BarFills(Tried(prev, barCount), ts, next.log.fills[|prev.log.fills|..])
    && prev.log.submitted <= next.log.submitted
    && Fresh(next.log.submitted[|prev.log.submitted|..], ts, barCount, |prev.log.submitted|)
    && (forall o :: o in next.pending ==>
          Remains(o, Tried(prev, barCount)) || o in next.log.submitted[|prev.log.submitted|..])
  }

  lemma FillPhaseShape<S>(env: Env<S>, tick: Tick, prev: State<S>)
    requires TickStamped(tick) && DistinctIds(Tried(prev, tick.barCount))
    ensures var filled := FillPhase(env, tick, BeforeFills(env, tick, prev));
            && prev.log.fills <= filled.log.fills
            && BarFills(Tried(prev, tick.barCount), tick.ts, filled.log.fills[|prev.log.fills|..])
            && filled.log.submitted == prev.log.submitted
            && AllRemain(filled.pending, Tried(prev, tick.barCount))
  {
    hide FillOrders, BeforeFills, Tried;
    var before := BeforeFills(env, tick, prev);
    BeforeFillsShape(env, tick, prev);
    FillOrdersAdd(env, tick, before.(pending := []), before.pending);
    FillsKeepSubmitted(env, tick, before.(pending := []), before.pending);
    var filled := FillPhase(env, tick, before);
    var added := filled.log.fills[|prev.log.fills|..];
    var n := |before.log.fills| - |prev.log.fills|;
    assert added[n..] == filled.log.fills[|before.log.fills|..];
    assert forall i :: 0 <= i < n ==> added[i] == before.log.fills[|prev.log.fills| + i];
    assert filled.pending[0..] == filled.pending;
  }

  lemma StepMoves<S>(env: Env<S>, tick: Tick, prev: State<S>)
    requires TickStamped(tick) && DistinctIds(Tried(prev, tick.barCount))
    ensures BarMoves(prev, Step(env, tick, prev), tick.barCount, tick.ts)
  {
    hide FillPhase, BeforeFills, Tried, BarFills;
    FillPhaseShape(env, tick, prev);
    var filled := FillPhase(env, tick, BeforeFills(env, tick, prev));
    var response := env.strategy.onBar(filled.strategy, ContextOf(env, tick, filled));
    var orders := Submit(response.requests, tick.ts, tick.barCount, |filled.log.submitted|);
    SubmitIsFresh(response.requests, tick.ts, tick.barCount, |filled.log.submitted|);
    assert (filled.log.submitted + orders)[|filled.log.submitted|..] == orders;
  }

  /** The shape of one bar of a run, in terms of the state before it. */
  lemma BarShape<S>(env: Env<S>, k: nat)
    requires 0 < k <= |Timeline(env.market)|
    ensures BarMoves(Run(env, k - 1), Run(env, k), k - 1, Timeline(env.market)[k - 1])
  {
    hide Step, Tried, BarMoves;
    TriedDistinct(env, k - 1, k - 1);
    StepMoves(env, TickAt(env.market, k - 1, Timeline(env.market)[k - 1]), Run(env, k - 1));
  }

  lemma {:induction false} FillsKeepSubmitted<S>(env: Env<S>, tick: Tick, st: State<S>, orders: seq<Order>)
    ensures FillOrders(env, tick, st, orders).log.submitted == st.log.submitted
    decreases |orders|
  {
    if orders == [] {
    } else {
      FillsKeepSubmitted(env, tick, FillOrder(env, tick, st, orders[0]), orders[1..]);
    }
  }

  // ---------- Timing over runs ----------

  /** Submitted at one of the first k bars, expiring after it. */
  predicate SubmittedInTime(tl: seq<int>, k: nat, o: Order)
    requires k <= |tl|
  {
    exists i :: 0 <= i < k && tl[i] == o.submittedTs && (o.expiresAt.Some? ==> i < o.expiresAt.value)
  }

  /** Filled at one of the first k bars, after the submission bar and before the expiry. */
  predicate FilledInTime(tl: seq<int>, k: nat, o: Order, f: Fill)
    requires k <= |tl|
  {
    && FillOf(o, f.filledTs, f)
    && exists i, j :: 0 <= i < j < k && tl[i] == o.submittedTs && tl[j] == f.filledTs
                      && (o.expiresAt.Some? ==> j < o.expiresAt.value)
  }

  predicate AllInTime(tl: seq<int>, k: nat, log: Log)
    requires k <= |tl|
  {
    && (forall id :: 0 <= id < |log.submitted| ==> SubmittedInTime(tl, k, log.submitted[id]))
    && (forall f :: f in log.fills && f.id.OrderId? ==>
          f.id.id < |log.submitted| && FilledInTime(tl, k, log.submitted[f.id.id], f))
  }

  lemma SubmittedLater(tl: seq<int>, k: nat, o: Order)
    requires k < |tl| && SubmittedInTime(tl, k, o)
    ensures SubmittedInTime(tl, k + 1, o)
  {
  }

  lemma SubmittedNow(tl: seq<int>, k: nat, o: Order)
    requires 0 < k <= |tl| && o.submittedTs == tl[k - 1] && (o.expiresAt.Some? ==> k - 1 < o.expiresAt.value)
    ensures SubmittedInTime(tl, k, o)
  {
  }

  lemma FilledLater(tl: seq<int>, k: nat, o: Order, f: Fill)
    requires k < |tl| && FilledInTime(tl, k, o, f)
    ensures FilledInTime(tl, k + 1, o, f)
  {
  }

  lemma NewFillInTime(tl: seq<int>, k: nat, submitted: seq<Order>, tried: seq<Order>, f: Fill)
    requires 0 < k <= |tl| && StrictlyIncreasing(tl)
    requires FillsSome(tried, tl[k - 1], f)
    requires forall o :: o in tried ==> AsSubmitted(submitted, o) && Staying(k - 1)(o)
    requires forall id :: 0 <= id < |submitted| ==> SubmittedInTime(tl, k - 1, submitted[id])
    ensures f.id.OrderId? && f.id.id < |submitted| && FilledInTime(tl, k, submitted[f.id.id], f)
  {
    var o :| o in tried && FillOf(o, tl[k - 1], f);
    assert AsSubmitted(submitted, o) && SubmittedInTime(tl, k - 1, submitted[o.id]);
    var i :| 0 <= i < k - 1 && tl[i] == o.submittedTs;
    assert tl[k - 1] == f.filledTs;
  }

  lemma BarInTime<S>(tl: seq<int>, k: nat, prev: State<S>, next: State<S>)
    requires 0 < k <= |tl| && StrictlyIncreasing(tl)
    requires AllInTime(tl, k - 1, prev.log) && AllSound(prev, [])
    requires BarMoves(prev, next, k - 1, tl[k - 1])
    ensures AllInTime(tl, k, next.log)
  {
    hide Tried, SubmittedInTime, FilledInTime;
    var tried := Tried(prev, k - 1);
    TriedMembers(prev, k - 1);
    forall id | 0 <= id < |next.log.submitted| ensures SubmittedInTime(tl, k, next.log.submitted[id]) {
      var o := next.log.submitted[id];
      if id < |prev.log.submitted| {
        assert o == prev.log.submitted[id];
        SubmittedLater(tl, k - 1, o);
      } else {
        assert o == next.log.submitted[|prev.log.submitted|..][id - |prev.log.submitted|];
        SubmittedNow(tl, k, o);
      }
    }
    forall f | f in next.log.fills && f.id.OrderId?
      ensures f.id.id < |next.log.submitted| && FilledInTime(tl, k, next.log.submitted[f.id.id], f)
    {
      var a :| 0 <= a < |next.log.fills| && next.log.fills[a] == f;
      if a < |prev.log.fills| {
        assert f == prev.log.fills[a] && f in prev.log.fills;
        FilledLater(tl, k - 1, prev.log.submitted[f.id.id], f);
      } else {
        NewFillsSome(tried, tl[k - 1], next.log.fills[|prev.log.fills|..], a - |prev.log.fills|);
        NewFillInTime(tl, k, prev.log.submitted, tried, f);
      }
    }
  }

  lemma {:induction false} RunsInTime<S>(env: Env<S>, k: nat)
    requires k <= |Timeline(env.market)|
    ensures AllInTime(Timeline(env.market), k, Run(env, k).log)
  {
    hide Run, Timeline, BarMoves, SubmittedInTime, FilledInTime, AllSound, Balanced;
    if k == 0 {
      RunStarts(env);
    } else {
      RunsInTime(env, k - 1);
      BarShape(env, k);
      RunBalances(env, k - 1, 0);
      BarInTime(Timeline(env.market), k, Run(env, k - 1), Run(env, k));
    }
  }

  lemma NewFillsSome(tried: seq<Order>, ts: int, fills: seq<Fill>, a: nat)
    requires BarFills(tried, ts, fills) && a < |fills| && fills[a].id.OrderId?
    ensures FillsSome(tried, ts, fills[a])
    ensures forall b :: 0 <= b < |fills| && b != a ==> fills[b].id != fills[a].id
  {
    var n :| 0 <= n <= |fills| && (forall i :: 0 <= i < n ==> fills[i].id.Expiry?) && FillsOnce(tried, ts, fills[n..]);
    assert fills[n..][a - n] == fills[a];
    forall b | 0 <= b < |fills| && b != a ensures fills[b].id != fills[a].id {
      if b >= n { assert fills[n..][b - n] == fills[b]; }
    }
  }

  /**
   Lifecycle timing. After any number of bars, every fill of a strategy order carries the
   order's own symbol, side and tags, and happened strictly after the bar that submitted
   the order and strictly before the bar count at which it expires.
   */
  lemma FillsAreTimely<S>(env: Env<S>, k: nat, f: Fill)
    requires k <= |Timeline(env.market)|
    requires f in Run(env, k).log.fills && f.id.OrderId?
    ensures f.id.id < |Run(env, k).log.submitted|
    ensures FilledInTime(Timeline(env.market), k, Run(env, k).log.submitted[f.id.id], f)
  {
    hide Run;
    RunsInTime(env, k);
  }

  /** Two fills of one order cannot both be among a bar's new fills. */
  lemma FirstIsEarlier(prev: seq<Fill>, next: seq<Fill>, a: nat, b: nat)
    requires prev <= next && a < b < |next| && |prev| <= b
    requires next[a].id == next[b].id
    requires var added := next[|prev|..];
             forall c :: 0 <= c < |added| && c != b - |prev| ==> added[c].id != added[b - |prev|].id
    ensures a < |prev| && prev[a] == next[a]
  {
    var added := next[|prev|..];
    assert forall c :: |prev| <= c < |next| ==> next[c] == added[c - |prev|];
  }

  /** An order fills at most once per bar, remainders of partial fills included. */
  lemma {:induction false} OneFillPerBar<S>(env: Env<S>, k: nat, a: nat, b: nat)
    requires k <= |Timeline(env.market)|
    requires a < b < |Run(env, k).log.fills|
    requires Run(env, k).log.fills[a].id.OrderId? && Run(env, k).log.fills[a].id == Run(env, k).log.fills[b].id
    ensures Run(env, k).log.fills[a].filledTs < Run(env, k).log.fills[b].filledTs
  {
    hide Step, Tried;
    if k == 0 {
    } else {
      BarShape(env, k);
      var tl := Timeline(env.market);
      var prev, next := Run(env, k - 1).log.fills, Run(env, k).log.fills;
      if b < |prev| {
        OneFillPerBar(env, k - 1, a, b);
      } else {
        NewFillsSome(Tried(Run(env, k - 1), k - 1), tl[k - 1], next[|prev|..], b - |prev|);
        FirstIsEarlier(prev, next, a, b);
        EarlierStamps(env, k, next[a]);
      }
    }
  }

  /** What was filled before bar k is stamped before it. */
  lemma EarlierStamps<S>(env: Env<S>, k: nat, f: Fill)
    requires 0 < k <= |Timeline(env.market)|
    requires f in Run(env, k - 1).log.fills
    ensures f.filledTs < Timeline(env.market)[k - 1]
  {
    hide Step;
    var tl := Timeline(env.market);
    if k > 1 {
      StampsBounded(env, k - 1, tl[k - 2]);
    }
  }

  predicate InBook(pending: seq<Order>, id: nat) {
    exists o :: o in pending && o.id == id
  }

  /** Bar k neither fills nor keeps an order that it does not try. */
  lemma UntriedLeaves<S>(env: Env<S>, k: nat, id: nat)
    requires 0 < k <= |Timeline(env.market)|
    requires id < |Run(env, k - 1).log.submitted|
    requires forall o :: o in Tried(Run(env, k - 1), k - 1) ==> o.id != id
    ensures !InBook(Run(env, k).pending, id)
    ensures forall i :: |Run(env, k - 1).log.fills| <= i < |Run(env, k).log.fills| ==>
              Run(env, k).log.fills[i].id != OrderId(id)
  {
    hide Step, Tried;
    BarShape(env, k);
    var prev, next := Run(env, k - 1), Run(env, k);
    hide Run;
    var tried := Tried(prev, k - 1);
    forall o | o in next.pending ensures o.id != id {
      if Remains(o, tried) {
        var p :| p in tried && o == p.(quantity := o.quantity);
      } else {
        var recent := next.log.submitted[|prev.log.submitted|..];
        var i :| 0 <= i < |recent| && recent[i] == o;
        assert recent[i].id == |prev.log.submitted| + i;
      }
    }
    var added := next.log.fills[|prev.log.fills|..];
    forall i | |prev.log.fills| <= i < |next.log.fills| ensures next.log.fills[i].id != OrderId(id) {
      var f := added[i - |prev.log.fills|];
      assert f == next.log.fills[i];
      if f.id.OrderId? {
        NewFillsSome(tried, Timeline(env.market)[k - 1], added, i - |prev.log.fills|);
        var o :| o in tried && FillOf(o, Timeline(env.market)[k - 1], f);
      }
    }
  }

  /** It does not try an order that is out of the book or to be cancelled. */
  lemma UntriedStaysOut<S>(env: Env<S>, k: nat, id: nat)
    requires 0 < k <= |Timeline(env.market)|
    requires id < |Run(env, k - 1).log.submitted|
    requires !InBook(Run(env, k - 1).pending, id) || id in Run(env, k - 1).cancels
    ensures !InBook(Run(env, k).pending, id)
    ensures forall i :: |Run(env, k - 1).log.fills| <= i < |Run(env, k).log.fills| ==>
              Run(env, k).log.fills[i].id != OrderId(id)
  {
    hide Run, Tried;
    TriedMembers(Run(env, k - 1), k - 1);
    UntriedLeaves(env, k, id);
  }

  /** An order that has left the book never returns to it and never fills again. */
  lemma {:induction false} GoneForGood<S>(env: Env<S>, k: nat, n: nat, id: nat)
    requires k <= n <= |Timeline(env.market)|
    requires id < |Run(env, k).log.submitted| && !InBook(Run(env, k).pending, id)
    ensures !InBook(Run(env, n).pending, id)
    ensures id < |Run(env, n).log.submitted| && |Run(env, k).log.fills| <= |Run(env, n).log.fills|
    ensures forall i :: |Run(env, k).log.fills| <= i < |Run(env, n).log.fills| ==>
              Run(env, n).log.fills[i].id != OrderId(id)
  {
    hide Step;
    if k == n {
    } else {
      GoneForGood(env, k, n - 1, id);
      UntriedStaysOut(env, n, id);
      BarShape(env, n);
    }
  }

  /**
   A cancellation requested at one bar holds from the next one on: the order leaves the
   book there and no later bar of the run fills any of it.
   */
  lemma NoFillAfterCancel<S>(env: Env<S>, k: nat, n: nat, id: nat)
    requires k < n <= |Timeline(env.market)|
    requires id < |Run(env, k).log.submitted| && id in Run(env, k).cancels
    ensures !InBook(Run(env, n).pending, id)
    ensures forall i :: |Run(env, k).log.fills| <= i < |Run(env, n).log.fills| ==>
              Run(env, n).log.fills[i].id != OrderId(id)
  {
    hide Run, Tried, BarFills, Fresh, InBook, Remains;
    BarShape(env, k + 1);
    UntriedStaysOut(env, k + 1, id);
    GoneForGood(env, k + 1, n, id);
    FillsPrefix(env, k + 1, n);
  }

  lemma {:induction false} FillsPrefix<S>(env: Env<S>, k: nat, n: nat)
    requires k <= n <= |Timeline(env.market)|
    ensures Run(env, k).log.fills <= Run(env, n).log.fills
  {
    hide Run, Tried, BarFills, Fresh, InBook, Remains;
    if k < n {
      FillsPrefix(env, k, n - 1);
      BarShape(env, n);
    }
  }
}
