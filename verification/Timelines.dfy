/**
 The unified timeline of a market and the per-timestamp views of its frames: the bar a
 symbol has at a timestamp, the history up to it, and the market cut off at it.
 */
module Timelines {
  import opened Prelude
  import opened Types

  /** Sorted insertion that keeps one copy of each timestamp. */
  function InsertTs(tl: seq<int>, ts: int): (r: seq<int>)
    requires StrictlyIncreasing(tl)
    ensures StrictlyIncreasing(r)
    ensures forall t :: t in r <==> t in tl || t == ts
  {
    if tl == [] then [ts]
    else if ts < tl[0] then [ts] + tl
    else if ts == tl[0] then tl
    else
      var rest := InsertTs(tl[1..], ts);
      assert forall t :: t in tl <==> t == tl[0] || t in tl[1..];
      assert forall i :: 0 <= i < |rest| ==> rest[i] in rest && tl[0] < rest[i];
      [tl[0]] + rest
  }

  predicate HasStamp(frame: seq<Bar>, ts: int) {
    exists i :: 0 <= i < |frame| && frame[i].ts == ts
  }

  function AddFrame(tl: seq<int>, frame: seq<Bar>): (r: seq<int>)
    requires StrictlyIncreasing(tl)
    ensures StrictlyIncreasing(r)
    ensures forall t :: t in r <==> t in tl || HasStamp(frame, t)
  {
    if frame == [] then tl
    else
      var n := |frame| - 1;
      var rest := AddFrame(tl, frame[..n]);
      assert forall t :: HasStamp(frame, t) <==> HasStamp(frame[..n], t) || t == frame[n].ts by {
        assert forall i :: 0 <= i < n ==> frame[..n][i] == frame[i];
      }
      InsertTs(rest, frame[n].ts)
  }

  function Frame(m: Market, symbol: Symbol): seq<Bar> {
    if symbol in m.frames then m.frames[symbol] else []
  }

  /** Some traded symbol has a bar at the timestamp. */
  predicate Traded(m: Market, symbols: seq<Symbol>, ts: int) {
    exists s :: s in symbols && HasStamp(Frame(m, s), ts)
  }

  function TimelineOf(m: Market, symbols: seq<Symbol>): (r: seq<int>)
    ensures StrictlyIncreasing(r)
    ensures forall t :: t in r <==> Traded(m, symbols, t)
  {
    if symbols == [] then []
    else
      var n := |symbols| - 1;
      assert forall t :: Traded(m, symbols, t) <==> Traded(m, symbols[..n], t) || HasStamp(Frame(m, symbols[n]), t) by {
        assert symbols == symbols[..n] + [symbols[n]];
      }
      AddFrame(TimelineOf(m, symbols[..n]), Frame(m, symbols[n]))
  }

  /** All timestamps at which some traded symbol has a bar, in order, once each. */
  function Timeline(m: Market): (r: seq<int>)
    ensures StrictlyIncreasing(r)
    ensures forall t :: t in r <==> Traded(m, m.symbols, t)
  {
    TimelineOf(m, m.symbols)
  }

  /** The bar is a row of the frame after which no other row has its timestamp. */
  predicate IsLastAt(frame: seq<Bar>, bar: Bar) {
    exists i :: 0 <= i < |frame| && frame[i] == bar && forall j :: i < j < |frame| ==> frame[j].ts != bar.ts
  }

  /** The bar a frame has at a timestamp; of duplicate rows the last one counts. */
  function BarAt(frame: seq<Bar>, ts: int): (r: Option<Bar>)
    ensures r.None? <==> !HasStamp(frame, ts)
    ensures r.Some? ==> r.value.ts == ts && IsLastAt(frame, r.value)
  {
    if frame == [] then None
    else
      var n := |frame| - 1;
      if frame[n].ts == ts then Some(frame[n])
      else
        assert HasStamp(frame, ts) <==> HasStamp(frame[..n], ts) by {
          assert forall i :: 0 <= i < n ==> frame[..n][i] == frame[i];
        }
        var before := BarAt(frame[..n], ts);
        assert before.Some? ==> IsLastAt(frame, before.value) by {
          if before.Some? {
            var i :| 0 <= i < n && frame[..n][i] == before.value && forall j :: i < j < n ==> frame[..n][j].ts != ts;
            assert forall j :: i < j < n ==> frame[j] == frame[..n][j];
            assert frame[i] == before.value && forall j :: i < j < |frame| ==> frame[j].ts != ts;
          }
        }
        before
  }

  /** The bars of the traded symbols at one timestamp. */
  function BarsAt(m: Market, ts: int): map<Symbol, Bar> {
    map s | s in m.symbols && BarAt(Frame(m, s), ts).Some? :: BarAt(Frame(m, s), ts).value
  }

  function StampedBy(ts: int): Bar -> bool {
    (b: Bar) => b.ts <= ts
  }

  /** The rows of a frame up to and including a timestamp. */
  function RowsUpTo(frame: seq<Bar>, ts: int): seq<Bar> {
    Filter(frame, StampedBy(ts))
  }

  function History(m: Market, ts: int): map<Symbol, seq<Bar>> {
    map s | s in m.symbols :: RowsUpTo(Frame(m, s), ts)
  }

  /** The market with every row after the timestamp removed. */
  function Truncate(m: Market, ts: int): Market {
    m.(frames := map s | s in m.frames :: RowsUpTo(m.frames[s], ts))
  }

  predicate SortedFrame(frame: seq<Bar>) {
    forall i, j :: 0 <= i < j < |frame| ==> frame[i].ts <= frame[j].ts
  }

  predicate SortedMarket(m: Market) {
    forall s :: s in m.frames ==> SortedFrame(m.frames[s])
  }

  // ---------- Cutting a market does not disturb what precedes the cut ----------

  lemma {:induction false} BarAtCut(frame: seq<Bar>, cut: int, ts: int)
    requires ts <= cut
    ensures BarAt(RowsUpTo(frame, cut), ts) == BarAt(frame, ts)
  {
    if frame == [] {
    } else {
      var n := |frame| - 1;
      BarAtCut(frame[..n], cut, ts);
      assert frame == frame[..n] + [frame[n]];
      FilterAppend(frame[..n], [frame[n]], StampedBy(cut));
      var rows := RowsUpTo(frame[..n], cut);
      assert RowsUpTo(frame, cut) == if frame[n].ts <= cut then rows + [frame[n]] else rows;
      assert (rows + [frame[n]])[..|rows|] == rows;
    }
  }

  lemma {:induction false} RowsUpToCut(frame: seq<Bar>, cut: int, ts: int)
    requires ts <= cut
    ensures RowsUpTo(RowsUpTo(frame, cut), ts) == RowsUpTo(frame, ts)
  {
    if frame == [] {
    } else {
      RowsUpToCut(frame[1..], cut, ts);
      var rows := RowsUpTo(frame[1..], cut);
      assert ([frame[0]] + rows)[1..] == rows;
    }
  }

  lemma FrameCut(m: Market, cut: int, s: Symbol)
    ensures Frame(Truncate(m, cut), s) == RowsUpTo(Frame(m, s), cut)
  {
  }

  /** Up to the cut, the truncated market shows the same bars and the same history. */
  lemma ViewsAgree(m: Market, cut: int, ts: int)
    requires ts <= cut
    ensures BarsAt(Truncate(m, cut), ts) == BarsAt(m, ts)
    ensures History(Truncate(m, cut), ts) == History(m, ts)
  {
    forall s | s in m.symbols
      ensures BarAt(Frame(Truncate(m, cut), s), ts) == BarAt(Frame(m, s), ts)
      ensures RowsUpTo(Frame(Truncate(m, cut), s), ts) == RowsUpTo(Frame(m, s), ts)
    {
      FrameCut(m, cut, s);
      BarAtCut(Frame(m, s), cut, ts);
      RowsUpToCut(Frame(m, s), cut, ts);
    }
  }

  /** How many entries of a timeline are at or before a timestamp. */
  function CountUpTo(tl: seq<int>, ts: int): (k: nat)
    requires StrictlyIncreasing(tl)
    ensures k <= |tl|
    ensures forall i :: 0 <= i < |tl| ==> (tl[i] <= ts <==> i < k)
  {
    if tl == [] then 0
    else
      var n := |tl| - 1;
      if tl[n] <= ts then |tl|
      else
        var k := CountUpTo(tl[..n], ts);
        assert forall i :: 0 <= i < n ==> tl[..n][i] == tl[i];
        k
  }

  /** The truncated market's timeline is the initial part of the full one. */
  lemma TimelineCut(m: Market, cut: int)
    ensures Timeline(Truncate(m, cut)) == Timeline(m)[..CountUpTo(Timeline(m), cut)]
  {
    var full := Timeline(m);
    var part := full[..CountUpTo(full, cut)];
    forall t ensures t in Timeline(Truncate(m, cut)) <==> t in part {
      assert t in part <==> t in full && t <= cut by {
        if t in full && t <= cut {
          var i :| 0 <= i < |full| && full[i] == t;
          assert part[i] == t;
        }
      }
      forall s ensures HasStamp(Frame(Truncate(m, cut), s), t) <==> HasStamp(Frame(m, s), t) && t <= cut {
        FrameCut(m, cut, s);
        StampsCut(Frame(m, s), cut, t);
      }
    }
    SameMembersSameSequence(Timeline(Truncate(m, cut)), part);
  }

  lemma StampsCut(frame: seq<Bar>, cut: int, t: int)
    ensures HasStamp(RowsUpTo(frame, cut), t) <==> HasStamp(frame, t) && t <= cut
  {
    var rows := RowsUpTo(frame, cut);
    FilterMembers(frame, StampedBy(cut));
    if HasStamp(rows, t) {
      var i :| 0 <= i < |rows| && rows[i].ts == t;
      assert rows[i] in rows;
    }
    if HasStamp(frame, t) && t <= cut {
      var i :| 0 <= i < |frame| && frame[i].ts == t;
      assert frame[i] in rows;
    }
  }
}
