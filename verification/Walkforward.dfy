/**
 Walk-forward analysis: how windows tile the data, how one window trains and tests, and
 why the warm-up of the test run replays the training run.
 */
module Walkforward {
  import opened Prelude
  import opened Types
  import opened Timelines
  import opened Engine
  import opened Causality
  import opened Grids
  import opened BacktestRuns

  // ---------- Windows ----------

  datatype Window = Window(trainStart: int, trainEnd: int, testStart: int, testEnd: int)

  /** How many windows fit: the first takes train and test bars, each further one test bars more. */
  function Fitting(minBars: nat, trainBars: int, testBars: int): int
    requires testBars > 0
  {
    (minBars - trainBars) / testBars
  }

  function Least(lengths: seq<nat>): nat
    requires lengths != []
  {
    if |lengths| == 1 then lengths[0]
    else
      var rest := Least(lengths[1..]);
      if lengths[0] <= rest then lengths[0] else rest
  }

  lemma {:induction false} LeastIsLeast(lengths: seq<nat>)
    requires lengths != []
    ensures Least(lengths) in lengths && forall n :: n in lengths ==> Least(lengths) <= n
  {
    if |lengths| > 1 {
      LeastIsLeast(lengths[1..]);
      assert forall n :: n in lengths <==> n == lengths[0] || n in lengths[1..];
    }
  }

  /** Windows whose test segments tile the tail of the data, each preceded by its training segment. */
  predicate Tiles(windows: seq<Window>, minBars: nat, trainBars: int, testBars: int) {
    && (forall i :: 0 <= i < |windows| ==>
          && 0 <= windows[i].trainStart
          && windows[i].trainEnd == windows[i].trainStart + trainBars
          && windows[i].testStart == windows[i].trainEnd
          && windows[i].testEnd == windows[i].testStart + testBars
          && windows[i].testEnd <= minBars)
    && (forall i :: 0 <= i < |windows| - 1 ==> windows[i].testEnd == windows[i + 1].testStart)
    && (windows != [] ==> windows[|windows| - 1].testEnd == minBars)
  }

  lemma QuotientFits(slack: int, size: int)
    requires size > 0
    ensures slack / size * size <= slack
  {
  }

  /** Where the test segment of window i of n ends: the last one ends with the data. */
  function WindowEnd(minBars: int, testBars: int, n: int, i: int): int {
    minBars - (n - 1 - i) * testBars
  }

  lemma WindowFits(minBars: nat, trainBars: int, testBars: int, n: int, i: int)
    requires testBars > 0 && 0 <= i < n <= Fitting(minBars, trainBars, testBars)
    ensures 0 <= WindowEnd(minBars, testBars, n, i) - testBars - trainBars
    ensures WindowEnd(minBars, testBars, n, i) <= minBars
  {
    var fit := Fitting(minBars, trainBars, testBars);
    QuotientFits(minBars - trainBars, testBars);
    hide Fitting;
    TimesGrows(n - i, fit, testBars);
    TimesGrows(0, n - 1 - i, testBars);
    assert (n - 1 - i) * testBars + testBars == (n - i) * testBars;
  }

  lemma WindowsAbut(minBars: int, testBars: int, n: int, i: int)
    ensures WindowEnd(minBars, testBars, n, i) + testBars == WindowEnd(minBars, testBars, n, i + 1)
    ensures WindowEnd(minBars, testBars, n, n - 1) == minBars
  {
    assert (n - 1 - i) * testBars == (n - 1 - (i + 1)) * testBars + testBars;
  }

  /** One more window than fits would start before the data does. */
  lemma NoMoreFit(minBars: nat, trainBars: int, testBars: int)
    requires testBars > 0
    ensures minBars - (Fitting(minBars, trainBars, testBars) + 1) * testBars - trainBars < 0
  {
    var slack := minBars - trainBars;
    assert (slack / testBars + 1) * testBars > slack;
  }

  /**
   Computes the windows: exactly as many as were asked for or as fit, none when that is not
   positive. The index of the training start is never negative, so no window is skipped.
   An empty set of frames is an error once the sizes are positive.
   */
  method ComputeWindows(lengths: seq<nat>, trainBars: int, testBars: int, numWindows: int)
    returns (r: Result<seq<Window>, string>)
    ensures trainBars <= 0 || testBars <= 0 || numWindows <= 0 ==> r == Ok([])
    ensures trainBars > 0 && testBars > 0 && numWindows > 0 ==> (r.Err? <==> lengths == [])
    ensures trainBars > 0 && testBars > 0 && numWindows > 0 && lengths != [] ==>
              var fit := Fitting(Least(lengths), trainBars, testBars);
              && |r.value| == (if fit < 1 then 0 else if numWindows <= fit then numWindows else fit)
              && Tiles(r.value, Least(lengths), trainBars, testBars)
  {
    if trainBars <= 0 || testBars <= 0 || numWindows <= 0 {
      return Ok([]);
    }
    if lengths == [] {
      return Err("min() of no frames");
    }
    hide WindowEnd, Fitting, Least;
    var minBars := Least(lengths);
    var fit := Fitting(minBars, trainBars, testBars);
    if fit < 1 {
      return Ok([]);
    }
    var n := if numWindows <= fit then numWindows else fit;
    var windows: seq<Window> := [];
    for i := 0 to n
      invariant |windows| == i
      invariant forall j :: 0 <= j < i ==>
                  && windows[j].testEnd == WindowEnd(minBars, testBars, n, j)
                  && 0 <= windows[j].trainStart
                  && windows[j].trainEnd == windows[j].trainStart + trainBars
                  && windows[j].testStart == windows[j].trainEnd
                  && windows[j].testEnd == windows[j].testStart + testBars
                  && windows[j].testEnd <= minBars
    {
      var testEnd := WindowEnd(minBars, testBars, n, i);
      var testStart := testEnd - testBars;
      var trainEnd := testStart;
      var trainStart := trainEnd - trainBars;
      WindowFits(minBars, trainBars, testBars, n, i);
      if trainStart >= 0 {
        windows := windows + [Window(trainStart, trainEnd, testStart, testEnd)];
      }
    }
    forall j | 0 <= j < n ensures j < n - 1 ==> windows[j].testEnd == windows[j + 1].testStart {
      WindowsAbut(minBars, testBars, n, j);
    }
    WindowsAbut(minBars, testBars, n, n - 1);
    return Ok(windows);
  }

  // ---------- Slices ----------

  function Clamp(i: nat, n: nat): nat {
    if i < n then i else n
  }

  /** Positional slicing, which stops at the end of a shorter frame. */
  function SliceFrame(frame: seq<Bar>, start: nat, end: nat): seq<Bar>
    requires start <= end
  {
    frame[Clamp(start, |frame|)..Clamp(end, |frame|)]
  }

  /** A slice holds the rows at the positions from start to end, as far as there are any. */
  lemma SliceRows(frame: seq<Bar>, start: nat, end: nat, i: nat)
    requires start <= end
    ensures start + i < end && start + i < |frame| <==> i < |SliceFrame(frame, start, end)|
    ensures start + i < end && start + i < |frame| ==> SliceFrame(frame, start, end)[i] == frame[start + i]
  {
  }

  function SliceBars(m: Market, start: nat, end: nat): Market
    requires start <= end
  {
    m.(frames := map s | s in m.frames :: SliceFrame(m.frames[s], start, end))
  }

  /** The result restricted to the test window; the starting cash is re-anchored to its first equity point. */
  function FilterToWindow<S>(r: BacktestResult<S>, startTs: int): BacktestResult<S> {
    var fills := Filter(r.fills, FilledAfter(startTs - 1));
    var equity := Filter(r.equityCurve, PointAfter(startTs - 1));
    var cash := if equity != [] then equity[0].totalEquity else r.config.startingCash;
    BacktestResult(r.config.(startingCash := cash), fills, equity, r.finalCash, r.finalPositions,
                   [], [], [], r.strategyState, [], 0)
  }

  // ---------- The warm-up replays the training run ----------

  /**
   The position cut at mid is also a cut in time: in the frame of every traded symbol what
   precedes it is earlier than ts and what follows is not.
   */
  ghost predicate TimeCut(m: Market, start: nat, mid: nat, end: nat, ts: int)
    requires start <= mid <= end
  {
    && (forall s, b :: s in m.symbols && b in SliceFrame(Frame(m, s), start, mid) ==> b.ts < ts)
    && (forall s, b :: s in m.symbols && b in SliceFrame(Frame(m, s), mid, end) ==> b.ts >= ts)
  }

  lemma SliceIsTruncation(frame: seq<Bar>, start: nat, mid: nat, end: nat, ts: int)
    requires start <= mid <= end
    requires forall b :: b in SliceFrame(frame, start, mid) ==> b.ts < ts
    requires forall b :: b in SliceFrame(frame, mid, end) ==> b.ts >= ts
    ensures SliceFrame(frame, start, mid) == RowsUpTo(SliceFrame(frame, start, end), ts - 1)
  {
    var early, late := SliceFrame(frame, start, mid), SliceFrame(frame, mid, end);
    assert SliceFrame(frame, start, end) == early + late;
    FilterAppend(early, late, StampedBy(ts - 1));
    FilterAll(early, StampedBy(ts - 1));
    FilterNone(late, StampedBy(ts - 1));
  }

  /** At a time cut, the training bars of the traded symbols are the extended bars seen up to just before the test window. */
  lemma TrainIsTruncated(m: Market, start: nat, mid: nat, end: nat, ts: int)
    requires start <= mid <= end && TimeCut(m, start, mid, end, ts)
    ensures SameTraded(Truncate(SliceBars(m, start, end), ts - 1), SliceBars(m, start, mid))
  {
    forall s | s in m.symbols
      ensures Frame(SliceBars(m, start, mid), s) == Frame(Truncate(SliceBars(m, start, end), ts - 1), s)
    {
      SliceIsTruncation(Frame(m, s), start, mid, end, ts);
    }
  }

  /** The traded frames share one strictly increasing index; a single sorted frame without duplicates does. */
  ghost predicate SharedIndex(m: Market) {
    && (forall s :: s in m.symbols ==> IncreasingFrame(Frame(m, s)))
    && (forall s, t :: s in m.symbols && t in m.symbols ==> SameIndex(Frame(m, s), Frame(m, t)))
  }

  predicate IncreasingFrame(f: seq<Bar>) {
    forall i, j :: 0 <= i < j < |f| ==> f[i].ts < f[j].ts
  }

  predicate SameIndex(f: seq<Bar>, g: seq<Bar>) {
    |f| == |g| && forall i :: 0 <= i < |f| ==> f[i].ts == g[i].ts
  }

  lemma FrameCutsAt(f: seq<Bar>, start: nat, mid: nat, end: nat)
    requires start <= mid <= end && mid < |f|
    requires IncreasingFrame(f)
    ensures forall b :: b in SliceFrame(f, start, mid) ==> b.ts < f[mid].ts
    ensures forall b :: b in SliceFrame(f, mid, end) ==> b.ts >= f[mid].ts
  {
    var early, late := SliceFrame(f, start, mid), SliceFrame(f, mid, end);
    assert forall i :: 0 <= i < |early| ==> early[i] == f[start + i];
    assert forall i :: 0 <= i < |late| ==> late[i] == f[mid + i];
  }

  lemma SharedIndexCuts(m: Market, symbol: Symbol, start: nat, mid: nat, end: nat)
    requires SharedIndex(m) && symbol in m.symbols && start <= mid <= end && mid < |Frame(m, symbol)|
    ensures TimeCut(m, start, mid, end, Frame(m, symbol)[mid].ts)
  {
    hide SliceFrame, Frame;
    forall s | s in m.symbols
      ensures forall b :: b in SliceFrame(Frame(m, s), start, mid) ==> b.ts < Frame(m, symbol)[mid].ts
      ensures forall b :: b in SliceFrame(Frame(m, s), mid, end) ==> b.ts >= Frame(m, symbol)[mid].ts
    {
      assert SameIndex(Frame(m, s), Frame(m, symbol));
      FrameCutsAt(Frame(m, s), start, mid, end);
    }
  }

  /** Train and test results partition the extended result. */
  predicate Partition<S>(train: BacktestResult<S>, test: BacktestResult<S>, extended: BacktestResult<S>) {
    && train.fills + test.fills == extended.fills
    && train.equityCurve + test.equityCurve == extended.equityCurve
    && train.rejected <= extended.rejected
    && train.cancelled <= extended.cancelled
    && train.expired <= extended.expired
    && train.signals <= extended.signals
    && (test.equityCurve != [] ==> test.config.startingCash == test.equityCurve[0].totalEquity)
    && test.finalCash == extended.finalCash && test.finalPositions == extended.finalPositions
  }

  /**
   The warm-up replays the training run. Whenever the cut between training and test rows is
   a cut in time, the extended run of the same strategy passes through the final state of
   the training run, and the training result and the filtered test result partition it.
   */
  lemma WarmUpReplaysTraining<S>(env: Env<S>, start: nat, mid: nat, end: nat, ts: int)
    requires start <= mid <= end && TimeCut(env.market, start, mid, end, ts)
    requires var extended := WithMarket(env, SliceBars(env.market, start, end));
             var train := WithMarket(env, SliceBars(env.market, start, mid));
             Backtest(extended).Ok? && Backtest(train).Ok?
    ensures var extended := WithMarket(env, SliceBars(env.market, start, end));
            var train := WithMarket(env, SliceBars(env.market, start, mid));
            && Partition(Backtest(train).value, FilterToWindow(Backtest(extended).value, ts), Backtest(extended).value)
            && Backtest(train).value
               == ResultOf(env.config, Run(extended, CountUpTo(Timeline(extended.market), ts - 1)))
  {
    hide Run, Timeline, CountUpTo, ValidateInputs, SameTraded, SliceBars, Truncate;
    var extended := WithMarket(env, SliceBars(env.market, start, end));
    TrainIsTruncated(env.market, start, mid, end, ts);
    UntradedIgnored(WithMarket(env, Truncate(extended.market, ts - 1)), SliceBars(env.market, start, mid));
    NoLookAhead(extended, ts - 1);
  }

  /** The same, for frames that share a strictly increasing index, cut at a row of the first symbol. */
  lemma WarmUpReplaysOnSharedIndex<S>(env: Env<S>, start: nat, mid: nat, end: nat)
    requires env.market.symbols != [] && SharedIndex(env.market)
    requires forall s :: s in env.market.symbols ==> s in env.market.frames && end <= |env.market.frames[s]|
    requires start < mid < end
    ensures var ts := env.market.frames[env.market.symbols[0]][mid].ts;
            var extended := Backtest(WithMarket(env, SliceBars(env.market, start, end)));
            var train := Backtest(WithMarket(env, SliceBars(env.market, start, mid)));
            && extended.Ok? && train.Ok?
            && Partition(train.value, FilterToWindow(extended.value, ts), extended.value)
  {
    hide Run, Timeline, FilterToWindow;
    var first := env.market.symbols[0];
    SharedIndexCuts(env.market, first, start, mid, end);
    SliceAccepted(env.market, start, mid);
    SliceAccepted(env.market, start, end);
    WarmUpReplaysTraining(env, start, mid, end, env.market.frames[first][mid].ts);
  }

  lemma SliceAccepted(m: Market, start: nat, end: nat)
    requires m.symbols != [] && start < end
    requires forall s :: s in m.symbols ==> s in m.frames && end <= |m.frames[s]|
    ensures ValidateInputs(SliceBars(m, start, end)).None?
  {
    ComplaintFree(SliceBars(m, start, end).frames, m.symbols);
    forall s | s in m.symbols ensures SliceFrame(m.frames[s], start, end) != [] {
      assert |SliceFrame(m.frames[s], start, end)| == end - start;
    }
  }

  /** Every window computed from frames that include those of the traded symbols replays its training run. */
  lemma ComputedWindowsReplay<S>(env: Env<S>, lengths: seq<nat>, trainBars: int, testBars: int, windows: seq<Window>, i: nat)
    requires trainBars > 0 && testBars > 0 && lengths != []
    requires Tiles(windows, Least(lengths), trainBars, testBars) && i < |windows|
    requires env.market.symbols != [] && SharedIndex(env.market)
    requires forall s :: s in env.market.symbols ==> s in env.market.frames && |env.market.frames[s]| in lengths
    ensures var w := windows[i];
            && 0 <= w.trainStart < w.trainEnd == w.testStart < w.testEnd <= |env.market.frames[env.market.symbols[0]]|
            && var ts := env.market.frames[env.market.symbols[0]][w.testStart].ts;
               var extended := Backtest(WithMarket(env, SliceBars(env.market, w.trainStart, w.testEnd)));
               var train := Backtest(WithMarket(env, SliceBars(env.market, w.trainStart, w.trainEnd)));
               && extended.Ok? && train.Ok?
               && Partition(train.value, FilterToWindow(extended.value, ts), extended.value)
  {
    hide Backtest, SliceBars, FilterToWindow, SharedIndex, Partition;
    LeastIsLeast(lengths);
    WarmUpReplaysOnSharedIndex(env, windows[i].trainStart, windows[i].trainEnd, windows[i].testEnd);
  }

  // ---------- One window ----------

  datatype WindowOutcome<S> = WindowOutcome(best: nat, train: BacktestResult<S>, test: BacktestResult<S>)

  /** What a combination scores on the training bars; a failed run has no score. */
  function ScoreOf<C, S>(train: Market, config: Config, strategyFor: C -> Strategy<S>,
                         metric: BacktestResult<S> -> Score): C -> Score {
    (c: C) =>
      match Backtest(Env(config, train, strategyFor(c)))
      case Err(_) => Failed
      case Ok(r) => metric(r)
  }

  /**
   Sweeps the combinations on the training rows, picks the first best, reruns it on training
   and test rows together and keeps the test window. It fails exactly when no combination
   has a metric. The window is one that fits the data, as the computed windows do.
   */
  method RunWindow<C, S>(m: Market, w: Window, config: Config, combos: seq<C>,
                         strategyFor: C -> Strategy<S>, metric: BacktestResult<S> -> Score)
    returns (r: Result<WindowOutcome<S>, string>)
    requires SortedMarket(m)
    requires 0 <= w.trainStart <= w.trainEnd == w.testStart <= w.testEnd
    requires m.symbols != [] && m.symbols[0] in m.frames && w.testStart < |m.frames[m.symbols[0]]|
    ensures var train := SliceBars(m, w.trainStart, w.trainEnd);
            var score := ScoreOf(train, config, strategyFor, metric);
            var ts := m.frames[m.symbols[0]][w.testStart].ts;
            && (r.Err? ==> forall i :: 0 <= i < |combos| ==> !score(combos[i]).Metric?)
            && (r.Ok? ==>
                  && FirstMaximum(seq(|combos|, i requires 0 <= i < |combos| => score(combos[i])), r.value.best)
                  && var s := strategyFor(combos[r.value.best]);
                     var extended := Backtest(Env(config, SliceBars(m, w.trainStart, w.testEnd), s));
                     && Backtest(Env(config, train, s)) == Ok(r.value.train)
                     && extended.Ok? && r.value.test == FilterToWindow(extended.value, ts)
                     && IsBest(train, config, combos, strategyFor, metric, metric(r.value.train))
                     && (TimeCut(m, w.trainStart, w.trainEnd, w.testEnd, ts) ==>
                           Partition(r.value.train, r.value.test, extended.value)))
  {
    hide Run, Timeline, SliceFrame, SortedMarket, FilterToWindow, Partition, TimeCut, ValidateInputs;
    var train := SliceBars(m, w.trainStart, w.trainEnd);
    var score := ScoreOf(train, config, strategyFor, metric);
    var best, succeeded := SelectCombo(combos, score);
    if best.None? {
      return Err("no param combo produced a valid result");
    }
    var strategy := strategyFor(combos[best.value]);
    assert score(combos[best.value]).Metric?;
    SlicesSorted(m, w.trainStart, w.trainEnd);
    SlicesSorted(m, w.trainStart, w.testEnd);
    var trained := RunBacktest(Env(config, train, strategy));
    LongerAccepted(m, w.trainStart, w.trainEnd, w.testEnd);
    var extended := RunBacktest(Env(config, SliceBars(m, w.trainStart, w.testEnd), strategy));
    var ts := m.frames[m.symbols[0]][w.testStart].ts;
    r := Ok(WindowOutcome(best.value, trained.value, FilterToWindow(extended.value, ts)));
    WindowPartitions(Env(config, m, strategy), w, ts);
    ScoresAreBest(train, config, combos, strategyFor, metric, best.value);
  }

  /** The score is a metric, and no combination that runs on the training rows has a higher one. */
  ghost predicate IsBest<C, S>(train: Market, config: Config, combos: seq<C>, strategyFor: C -> Strategy<S>,
                               metric: BacktestResult<S> -> Score, score: Score) {
    score.Metric? && forall c :: c in combos && Backtest(Env(config, train, strategyFor(c))).Ok? ==>
      var other := metric(Backtest(Env(config, train, strategyFor(c))).value);
      other.Metric? ==> other.value <= score.value
  }

  lemma ScoresAreBest<C, S>(train: Market, config: Config, combos: seq<C>, strategyFor: C -> Strategy<S>,
                            metric: BacktestResult<S> -> Score, best: nat)
    requires best < |combos|
    requires var score := ScoreOf(train, config, strategyFor, metric);
             FirstMaximum(seq(|combos|, i requires 0 <= i < |combos| => score(combos[i])), best)
    ensures Backtest(Env(config, train, strategyFor(combos[best]))).Ok?
    ensures IsBest(train, config, combos, strategyFor, metric,
                   metric(Backtest(Env(config, train, strategyFor(combos[best]))).value))
  {
    hide Backtest;
    var score := ScoreOf(train, config, strategyFor, metric);
    var scores := seq(|combos|, i requires 0 <= i < |combos| => score(combos[i]));
    assert scores[best] == score(combos[best]);
    forall c | c in combos && Backtest(Env(config, train, strategyFor(c))).Ok?
      ensures var other := metric(Backtest(Env(config, train, strategyFor(c))).value);
              other.Metric? ==> other.value <= scores[best].value
    {
      var i :| 0 <= i < |combos| && combos[i] == c;
      assert scores[i] == score(c);
    }
  }

  lemma WindowPartitions<S>(env: Env<S>, w: Window, ts: int)
    requires 0 <= w.trainStart <= w.trainEnd == w.testStart <= w.testEnd
    requires Backtest(WithMarket(env, SliceBars(env.market, w.trainStart, w.testEnd))).Ok?
    requires Backtest(WithMarket(env, SliceBars(env.market, w.trainStart, w.trainEnd))).Ok?
    ensures TimeCut(env.market, w.trainStart, w.trainEnd, w.testEnd, ts) ==>
              Partition(Backtest(WithMarket(env, SliceBars(env.market, w.trainStart, w.trainEnd))).value,
                        FilterToWindow(Backtest(WithMarket(env, SliceBars(env.market, w.trainStart, w.testEnd))).value, ts),
                        Backtest(WithMarket(env, SliceBars(env.market, w.trainStart, w.testEnd))).value)
  {
    hide Partition, FilterToWindow, Backtest, SliceBars;
    if TimeCut(env.market, w.trainStart, w.trainEnd, w.testEnd, ts) {
      WarmUpReplaysTraining(env, w.trainStart, w.trainEnd, w.testEnd, ts);
    }
  }

  lemma SlicesSorted(m: Market, start: nat, end: nat)
    requires SortedMarket(m) && start <= end
    ensures SortedMarket(SliceBars(m, start, end))
  {
    forall s | s in m.frames ensures SortedFrame(SliceFrame(m.frames[s], start, end)) {
      var f, slice := m.frames[s], SliceFrame(m.frames[s], start, end);
      assert forall i :: 0 <= i < |slice| ==> slice[i] == f[Clamp(start, |f|) + i];
    }
  }

  /** If the training slice is accepted, so is the longer extended slice. */
  lemma LongerAccepted(m: Market, start: nat, mid: nat, end: nat)
    requires start <= mid <= end && ValidateInputs(SliceBars(m, start, mid)).None?
    ensures ValidateInputs(SliceBars(m, start, end)).None?
  {
    ComplaintFree(SliceBars(m, start, mid).frames, m.symbols);
    ComplaintFree(SliceBars(m, start, end).frames, m.symbols);
    forall s | s in m.symbols ensures s in m.frames && SliceFrame(m.frames[s], start, end) != [] {
      assert s in SliceBars(m, start, mid).frames && SliceBars(m, start, mid).frames[s] != [];
      assert SliceFrame(m.frames[s], start, mid) != [];
    }
  }
}
