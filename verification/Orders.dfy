/**
 Orders and their quantities are conserved over whole runs: what was submitted rests in the
 book, was filled, or was rejected, cancelled or expired.
 */
module Orders {
  import opened Prelude
  import opened Types
  import opened Fills
  import opened Accounts
  import opened Timelines
  import opened Engine

  // ---------- Counting where orders rest ----------

  function Has(id: nat): Order -> bool {
    (o: Order) => o.id == id
  }

  function Rests(id: nat): Order -> real {
    (o: Order) => if o.id == id then o.quantity else 0.0
  }

  function FilledFor(id: nat): Fill -> real {
    (f: Fill) => if f.id == OrderId(id) then f.quantity else 0.0
  }

  function RejectedOrders(rejections: seq<Rejection>): seq<Order> {
    if rejections == [] then []
    else RejectedOrders(rejections[..|rejections| - 1]) + [rejections[|rejections| - 1].order]
  }

  /** How many copies of an order there are: in the book (or still to be tried), cancelled, expired and rejected. */
  function Copies<S>(st: State<S>, untried: seq<Order>, id: nat): nat {
    Count(st.pending, Has(id)) + Count(untried, Has(id)) + Count(st.log.cancelled, Has(id))
    + Count(st.log.expired, Has(id)) + Count(RejectedOrders(st.log.rejected), Has(id))
  }

  /** The unfilled quantity left in those places. */
  function Resting<S>(st: State<S>, untried: seq<Order>, id: nat): real {
    Sum(st.pending, Rests(id)) + Sum(untried, Rests(id)) + Sum(st.log.cancelled, Rests(id))
    + Sum(st.log.expired, Rests(id)) + Sum(RejectedOrders(st.log.rejected), Rests(id))
  }

  function FilledQuantity(fills: seq<Fill>, id: nat): real {
    Sum(fills, FilledFor(id))
  }

  /** A resting order is the submitted one, except for the quantity still to fill. */
  predicate AsSubmitted(submitted: seq<Order>, o: Order) {
    o.id < |submitted| && o.quantity > 0.0 && o == submitted[o.id].(quantity := o.quantity)
  }

  predicate Sound(submitted: seq<Order>, orders: seq<Order>) {
    forall o :: o in orders ==> AsSubmitted(submitted, o)
  }

  predicate AllSound<S>(st: State<S>, untried: seq<Order>) {
    && (forall id: nat :: id < |st.log.submitted| ==> st.log.submitted[id].id == id && st.log.submitted[id].quantity > 0.0)
    && Sound(st.log.submitted, st.pending) && Sound(st.log.submitted, untried)
    && Sound(st.log.submitted, st.log.cancelled) && Sound(st.log.submitted, st.log.expired)
    && Sound(st.log.submitted, RejectedOrders(st.log.rejected))
  }

  /** One order's books balance: at most one copy, and filled plus resting is what was submitted. */
  predicate Balanced<S>(st: State<S>, untried: seq<Order>, id: nat) {
    if id < |st.log.submitted| then
      && Copies(st, untried, id) <= 1
      && Resting(st, untried, id) + FilledQuantity(st.log.fills, id) == st.log.submitted[id].quantity
    else
      Copies(st, untried, id) == 0 && FilledQuantity(st.log.fills, id) == 0.0
  }

  // ---------- Each phase keeps the books balanced ----------

  lemma {:induction false} SettleKeepsOrders<S>(config: Config, tick: Tick, st: State<S>, symbols: seq<Symbol>, id: nat)
    ensures var after := SettleAll(config, tick, st, symbols);
            && after.pending == st.pending && after.cancels == st.cancels && after.trail == st.trail
            && after.log == st.log.(fills := after.log.fills)
            && FilledQuantity(after.log.fills, id) == FilledQuantity(st.log.fills, id)
            && st.log.fills <= after.log.fills
            && (forall i :: |st.log.fills| <= i < |after.log.fills| ==> after.log.fills[i].id.Expiry?)
    decreases |symbols|
  {
    if symbols == [] {
    } else {
      var next := SettleOne(config, tick, st, symbols[0]);
      if next != st {
        SumSnoc(st.log.fills, SettlementFill(config, tick, st, symbols[0]), FilledFor(id));
      }
      SettleKeepsOrders(config, tick, next, symbols[1..], id);
    }
  }

  lemma {:induction false} SettleKeepsMarks<S>(config: Config, tick: Tick, st: State<S>, symbols: seq<Symbol>)
    ensures SettleAll(config, tick, st, symbols).marks == st.marks
    decreases |symbols|
  {
    if symbols == [] {
    } else {
      SettleKeepsMarks(config, tick, SettleOne(config, tick, st, symbols[0]), symbols[1..]);
    }
  }

  lemma ExpireBalances<S>(strategy: Strategy<S>, tick: Tick, st: State<S>, id: nat)
    requires AllSound(st, []) && Balanced(st, [], id)
    ensures var after := ExpirePhase(strategy, tick, st);
            AllSound(after, []) && Balanced(after, [], id)
  {
    var gone := Filter(st.pending, Expiring(tick.barCount));
    FilterMembers(st.pending, Expiring(tick.barCount));
    FilterMembers(st.pending, Staying(tick.barCount));
    FilterSplits(st.pending, Expiring(tick.barCount), Staying(tick.barCount), Rests(id), Has(id));
    SumAppend(st.log.expired, gone, Rests(id));
    CountAppend(st.log.expired, gone, Has(id));
  }

  lemma CancelBalances<S>(strategy: Strategy<S>, st: State<S>, id: nat)
    requires AllSound(st, []) && Balanced(st, [], id)
    ensures var after := CancelPhase(strategy, st);
            AllSound(after, []) && Balanced(after, [], id)
  {
    var gone := Filter(st.pending, Cancelling(st.cancels));
    FilterMembers(st.pending, Cancelling(st.cancels));
    FilterMembers(st.pending, Keeping(st.cancels));
    FilterSplits(st.pending, Cancelling(st.cancels), Keeping(st.cancels), Rests(id), Has(id));
    SumAppend(st.log.cancelled, gone, Rests(id));
    CountAppend(st.log.cancelled, gone, Has(id));
  }

  /** An order that is tried and stays in the book. */
  lemma KeptBalances<S>(st: State<S>, after: State<S>, untried: seq<Order>, id: nat)
    requires untried != [] && AllSound(st, untried) && Balanced(st, untried, id)
    requires after.pending == st.pending + [untried[0]] && after.log == st.log
    ensures AllSound(after, untried[1..]) && Balanced(after, untried[1..], id)
  {
    SumSnoc(st.pending, untried[0], Rests(id));
    CountAppend(st.pending, [untried[0]], Has(id));
  }

  /** An order that is tried and rejected. */
  lemma RejectedBalances<S>(st: State<S>, after: State<S>, untried: seq<Order>, r: Rejection, id: nat)
    requires untried != [] && AllSound(st, untried) && Balanced(st, untried, id)
    requires r.order == untried[0]
    requires after.pending == st.pending && after.log == st.log.(rejected := st.log.rejected + [r])
    ensures AllSound(after, untried[1..]) && Balanced(after, untried[1..], id)
  {
    RejectionAdds(st.log.rejected, r);
    SumSnoc(RejectedOrders(st.log.rejected), r.order, Rests(id));
    CountAppend(RejectedOrders(st.log.rejected), [r.order], Has(id));
  }

  /** An order that is filled, wholly or in part. */
  lemma BookedBalances<S>(st: State<S>, after: State<S>, untried: seq<Order>, f: Fill, remainder: real, id: nat)
    requires untried != [] && AllSound(st, untried) && Balanced(st, untried, id)
    requires f.id == OrderId(untried[0].id) && remainder >= 0.0 && f.quantity + remainder == untried[0].quantity
    requires after.log == st.log.(fills := st.log.fills + [f])
    requires after.pending == st.pending + (if remainder > 0.0 then [untried[0].(quantity := remainder)] else [])
    ensures AllSound(after, untried[1..]) && Balanced(after, untried[1..], id)
  {
    var rest := untried[0].(quantity := remainder);
    assert AsSubmitted(st.log.submitted, untried[0]);
    SumSnoc(st.log.fills, f, FilledFor(id));
    SumSnoc(st.pending, rest, Rests(id));
    CountAppend(st.pending, [rest], Has(id));
    assert st.pending + [] == st.pending;
  }

  lemma FillOrderBalances<S>(env: Env<S>, tick: Tick, st: State<S>, untried: seq<Order>, id: nat)
    requires untried != [] && AllSound(st, untried) && Balanced(st, untried, id)
    ensures var after := FillOrder(env, tick, st, untried[0]);
            AllSound(after, untried[1..]) && Balanced(after, untried[1..], id)
  {
    hide AllSound, Balanced, TryFill, Objection, ApplyFill, Touch;
    var o := untried[0];
    var after := FillOrder(env, tick, st, o);
    if o.symbol !in tick.bars || TryFill(o, tick.bars[o.symbol], env.config, st.trail).0.None? {
      KeptBalances(st, after, untried, id);
    } else {
      var e := TryFill(o, tick.bars[o.symbol], env.config, st.trail).0.value;
      var objection := Objection(env.config, Touch(st.account, o.symbol), st.marks, e.fill);
      if objection.Some? {
        RejectedBalances(st, after, untried, Rejection(o, objection.value), id);
      } else {
        SoundQuantity(st, untried);
        FillSplitsOrder(o, tick.bars[o.symbol], env.config, st.trail);
        BookedBalances(st, after, untried, e.fill, e.remainder, id);
      }
    }
  }

  lemma SoundQuantity<S>(st: State<S>, untried: seq<Order>)
    requires untried != [] && AllSound(st, untried)
    ensures untried[0].quantity > 0.0 && untried[0].id < |st.log.submitted|
  {
    assert AsSubmitted(st.log.submitted, untried[0]);
  }

  lemma RejectionAdds(rejected: seq<Rejection>, r: Rejection)
    ensures RejectedOrders(rejected + [r]) == RejectedOrders(rejected) + [r.order]
  {
    assert (rejected + [r])[..|rejected|] == rejected;
  }

  lemma {:induction false} FillsBalance<S>(env: Env<S>, tick: Tick, st: State<S>, untried: seq<Order>, id: nat)
    requires AllSound(st, untried) && Balanced(st, untried, id)
    ensures var after := FillOrders(env, tick, st, untried);
            AllSound(after, []) && Balanced(after, [], id)
    decreases |untried|
  {
    hide FillOrder;
    if untried == [] {
    } else {
      FillOrderBalances(env, tick, st, untried, id);
      FillsBalance(env, tick, FillOrder(env, tick, st, untried[0]), untried[1..], id);
    }
  }

  /** The orders of one bar: consecutive ids, positive quantities, this timestamp, a later expiry. */
  predicate Fresh(orders: seq<Order>, ts: int, barCount: nat, nextId: nat) {
    forall i :: 0 <= i < |orders| ==>
      && orders[i].id == nextId + i && orders[i].quantity > 0.0 && orders[i].submittedTs == ts
      && (orders[i].expiresAt.Some? ==> orders[i].expiresAt.value > barCount)
  }

  lemma FreshCons(o: Order, rest: seq<Order>, ts: int, barCount: nat, nextId: nat)
    requires Fresh(rest, ts, barCount, nextId + 1) && Fresh([o], ts, barCount, nextId)
    ensures Fresh([o] + rest, ts, barCount, nextId)
  {
    var orders := [o] + rest;
    assert [o][0] == o;
    assert forall i :: 1 <= i < |orders| ==> orders[i] == rest[i - 1];
  }

  lemma FreshOne(r: OrderRequest, ts: int, barCount: nat, nextId: nat)
    requires ValidRequest(r)
    ensures Fresh(Submit([r], ts, barCount, nextId), ts, barCount, nextId)
  {
    assert [r][1..] == [] && Submit([], ts, barCount, nextId + 1) == [];
  }

  lemma SubmitFirst(requests: seq<OrderRequest>, ts: int, barCount: nat, nextId: nat)
    requires requests != [] && ValidRequest(requests[0])
    ensures |Submit([requests[0]], ts, barCount, nextId)| == 1
    ensures Submit(requests, ts, barCount, nextId)
         == [Submit([requests[0]], ts, barCount, nextId)[0]] + Submit(requests[1..], ts, barCount, nextId + 1)
  {
    assert [requests[0]][1..] == [] && Submit([], ts, barCount, nextId + 1) == [];
  }

  lemma {:induction false} SubmitIsFresh(requests: seq<OrderRequest>, ts: int, barCount: nat, nextId: nat)
    ensures Fresh(Submit(requests, ts, barCount, nextId), ts, barCount, nextId)
  {
    if requests == [] {
    } else if ValidRequest(requests[0]) {
      hide Fresh, Submit;
      SubmitIsFresh(requests[1..], ts, barCount, nextId + 1);
      FreshOne(requests[0], ts, barCount, nextId);
      SubmitFirst(requests, ts, barCount, nextId);
      var first := Submit([requests[0]], ts, barCount, nextId);
      assert first == [first[0]];
      FreshCons(first[0], Submit(requests[1..], ts, barCount, nextId + 1), ts, barCount, nextId);
    } else {
      SubmitIsFresh(requests[1..], ts, barCount, nextId);
    }
  }

  /** A positive quantity, and a positive trail and lifetime where there are any. */
  function IsValid(): OrderRequest -> bool {
    (r: OrderRequest) =>
      && r.quantity > 0.0
      && match r.kind { case TrailingStop(percent) => percent > 0.0 case _ => true }
      && match r.expiresAfter { case Some(bars) => bars > 0 case None => true }
  }

  /** The order made of a request. */
  predicate MadeOf(o: Order, r: OrderRequest, barCount: nat) {
    && o.symbol == r.symbol && o.side == r.side && o.quantity == r.quantity && o.kind == r.kind && o.tags == r.tags
    && (o.expiresAt.None? <==> r.expiresAfter.None?)
    && (r.expiresAfter.Some? ==> o.expiresAt == Some(barCount + r.expiresAfter.value))
  }

  /** The valid requests, and no others, become orders, each its own and in their order. */
  lemma {:induction false} SubmitsEachValid(requests: seq<OrderRequest>, ts: int, barCount: nat, nextId: nat)
    ensures var orders := Submit(requests, ts, barCount, nextId);
            var valid := Filter(requests, IsValid());
            |orders| == |valid| && forall i :: 0 <= i < |orders| ==> MadeOf(orders[i], valid[i], barCount)
  {
    if requests == [] {
    } else {
      SubmitsEachValid(requests[1..], ts, barCount, nextId + 1);
      SubmitsEachValid(requests[1..], ts, barCount, nextId);
    }
  }

  /** Among a bar's orders each of their ids occurs exactly once. */
  lemma {:induction false} FreshTally(orders: seq<Order>, ts: int, barCount: nat, nextId: nat, id: nat)
    requires Fresh(orders, ts, barCount, nextId)
    ensures nextId <= id < nextId + |orders| ==>
              Count(orders, Has(id)) == 1 && Sum(orders, Rests(id)) == orders[id - nextId].quantity
    ensures !(nextId <= id < nextId + |orders|) ==>
              Count(orders, Has(id)) == 0 && Sum(orders, Rests(id)) == 0.0
  {
    if orders == [] {
    } else {
      FreshTally(orders[1..], ts, barCount, nextId + 1, id);
    }
  }

  /** With no copy anywhere nothing rests. */
  lemma {:induction false} NoneRests(orders: seq<Order>, id: nat)
    requires Count(orders, Has(id)) == 0
    ensures Sum(orders, Rests(id)) == 0.0
  {
    if orders == [] {
    } else {
      NoneRests(orders[1..], id);
    }
  }

  lemma NothingRests<S>(st: State<S>, id: nat)
    requires Copies(st, [], id) == 0
    ensures Resting(st, [], id) == 0.0
  {
    NoneRests(st.pending, id);
    NoneRests(st.log.cancelled, id);
    NoneRests(st.log.expired, id);
    NoneRests(RejectedOrders(st.log.rejected), id);
  }

  lemma StrategyBalances<S>(env: Env<S>, tick: Tick, st: State<S>, id: nat)
    requires AllSound(st, []) && Balanced(st, [], id)
    ensures var after := StrategyPhase(env, tick, st);
            AllSound(after, []) && Balanced(after, [], id)
  {
    var response := env.strategy.onBar(st.strategy, ContextOf(env, tick, st));
    var nextId := |st.log.submitted|;
    var orders := Submit(response.requests, tick.ts, tick.barCount, nextId);
    SubmitIsFresh(response.requests, tick.ts, tick.barCount, nextId);
    SubmittedBalances(st, StrategyPhase(env, tick, st), orders, tick.ts, tick.barCount, id);
  }

  lemma SubmittedBalances<S>(st: State<S>, after: State<S>, orders: seq<Order>, ts: int, barCount: nat, id: nat)
    requires AllSound(st, []) && Balanced(st, [], id)
    requires Fresh(orders, ts, barCount, |st.log.submitted|)
    requires after.pending == st.pending + orders
    requires after.log == st.log.(submitted := st.log.submitted + orders, signals := after.log.signals)
    ensures AllSound(after, []) && Balanced(after, [], id)
  {
    hide RejectedOrders, Sum, Count, FilledQuantity;
    var submitted := st.log.submitted + orders;
    FreshTally(orders, ts, barCount, |st.log.submitted|, id);
    SumAppend(st.pending, orders, Rests(id));
    CountAppend(st.pending, orders, Has(id));
    if Copies(st, [], id) == 0 {
      NothingRests(st, id);
    }
    forall o | o in orders ensures AsSubmitted(submitted, o) {
      var i :| 0 <= i < |orders| && orders[i] == o;
      assert submitted[o.id] == o;
    }
    SoundLonger(st.log.submitted, orders, st.pending);
    SoundLonger(st.log.submitted, orders, st.log.cancelled);
    SoundLonger(st.log.submitted, orders, st.log.expired);
    SoundLonger(st.log.submitted, orders, RejectedOrders(st.log.rejected));
  }

  lemma SoundLonger(submitted: seq<Order>, more: seq<Order>, orders: seq<Order>)
    requires Sound(submitted, orders)
    ensures Sound(submitted + more, orders)
  {
    forall o | o in orders ensures AsSubmitted(submitted + more, o) {
      assert AsSubmitted(submitted, o);
    }
  }

  lemma SettleBalances<S>(config: Config, tick: Tick, st: State<S>, id: nat)
    requires AllSound(st, []) && Balanced(st, [], id)
    ensures var after := SettlePhase(config, tick, MarkPhase(tick, st));
            AllSound(after, []) && Balanced(after, [], id)
  {
    hide SettleAll, SymbolsOf, Sound, FilledQuantity, RejectedOrders;
    var marked := MarkPhase(tick, st);
    SettleKeepsOrders(config, tick, marked, SymbolsOf(marked.account.book), id);
  }

  /** Before any order is tried, every resting order is an untried one. */
  lemma NoneTriedYet<S>(st: State<S>, id: nat)
    requires AllSound(st, []) && Balanced(st, [], id)
    ensures AllSound(st.(pending := []), st.pending) && Balanced(st.(pending := []), st.pending, id)
  {
    hide RejectedOrders, FilledQuantity, AsSubmitted;
  }

  lemma EquityBalances<S>(tick: Tick, st: State<S>, id: nat)
    requires AllSound(st, []) && Balanced(st, [], id)
    ensures AllSound(EquityPhase(tick, st), []) && Balanced(EquityPhase(tick, st), [], id)
  {
    hide MarkToMarket, RejectedOrders, FilledQuantity, AsSubmitted, Sound;
  }

  lemma StepBalances<S>(env: Env<S>, tick: Tick, st: State<S>, id: nat)
    requires AllSound(st, []) && Balanced(st, [], id)
    ensures AllSound(Step(env, tick, st), []) && Balanced(Step(env, tick, st), [], id)
  {
    hide MarkPhase, SettlePhase, ExpirePhase, CancelPhase, FillOrders, StrategyPhase, EquityPhase, AllSound, Balanced;
    SettleBalances(env.config, tick, st, id);
    var settled := SettlePhase(env.config, tick, MarkPhase(tick, st));
    ExpireBalances(env.strategy, tick, settled, id);
    CancelBalances(env.strategy, ExpirePhase(env.strategy, tick, settled), id);
    var before := BeforeFills(env, tick, st);
    NoneTriedYet(before, id);
    FillsBalance(env, tick, before.(pending := []), before.pending, id);
    StrategyBalances(env, tick, FillPhase(env, tick, before), id);
    EquityBalances(tick, StrategyPhase(env, tick, FillPhase(env, tick, before)), id);
  }

  lemma InitialBalances<S>(env: Env<S>, id: nat)
    ensures AllSound(Initial(env), []) && Balanced(Initial(env), [], id)
  {
  }

  lemma {:induction false} RunBalances<S>(env: Env<S>, k: nat, id: nat)
    requires k <= |Timeline(env.market)|
    ensures AllSound(Run(env, k), []) && Balanced(Run(env, k), [], id)
  {
    hide Step, Run, Timeline, AllSound, Balanced;
    if k == 0 {
      RunStarts(env);
      InitialBalances(env, id);
    } else {
      RunBalances(env, k - 1, id);
      RunNext(env, k - 1);
      StepBalances(env, TickAt(env.market, k - 1, Timeline(env.market)[k - 1]), Run(env, k - 1), id);
    }
  }

  /** In how many places an order is, counting "completely filled" as one. */
  function Places<S>(st: State<S>, id: nat): nat
    requires id < |st.log.submitted|
  {
    Count(st.pending, Has(id)) + Count(st.log.cancelled, Has(id)) + Count(st.log.expired, Has(id))
    + Count(RejectedOrders(st.log.rejected), Has(id))
    + (if FilledQuantity(st.log.fills, id) == st.log.submitted[id].quantity then 1 else 0)
  }

  /**
   Order conservation. After any number of bars every submitted order is in exactly one
   place: pending, cancelled, expired, rejected or completely filled. What its fills add
   up to and what is left where it rests make up its original quantity, and wherever it
   rests it is the order submitted but for that quantity.
   */
  lemma OrdersConserved<S>(env: Env<S>, k: nat, id: nat)
    requires k <= |Timeline(env.market)|
    requires id < |Run(env, k).log.submitted|
    ensures var st := Run(env, k);
            && Places(st, id) == 1
            && Resting(st, [], id) + FilledQuantity(st.log.fills, id) == st.log.submitted[id].quantity
            && AllSound(st, [])
  {
    hide Step, Run;
    RunBalances(env, k, id);
    var st := Run(env, k);
    if Copies(st, [], id) == 0 {
      NothingRests(st, id);
    } else {
      SomethingRests(st, id);
    }
  }

  lemma {:induction false} RestsPositive(submitted: seq<Order>, orders: seq<Order>, id: nat)
    requires Sound(submitted, orders)
    ensures Sum(orders, Rests(id)) >= 0.0
    ensures Count(orders, Has(id)) > 0 ==> Sum(orders, Rests(id)) > 0.0
  {
    if orders == [] {
    } else {
      assert AsSubmitted(submitted, orders[0]);
      RestsPositive(submitted, orders[1..], id);
    }
  }

  lemma SomethingRests<S>(st: State<S>, id: nat)
    requires AllSound(st, []) && Copies(st, [], id) > 0
    ensures Resting(st, [], id) > 0.0
  {
    RestsPositive(st.log.submitted, st.pending, id);
    RestsPositive(st.log.submitted, st.log.cancelled, id);
    RestsPositive(st.log.submitted, st.log.expired, id);
    RestsPositive(st.log.submitted, RejectedOrders(st.log.rejected), id);
  }
}
