/**
 Round-trip extraction: each symbol's fills are cut where the running position returns to
 zero. The cut is the only one of its kind, and it composes at flat points.
 */
module RoundTrips {
  import opened Prelude
  import opened Types

  function SignedOf(): Fill -> real {
    (f: Fill) => SignedQuantity(f)
  }

  /** The position a list of fills leaves, starting flat. */
  function Net(fills: seq<Fill>): real {
    Sum(fills, SignedOf())
  }

  lemma NetSnoc(fills: seq<Fill>, f: Fill)
    ensures Net(fills + [f]) == Net(fills) + SignedQuantity(f)
  {
    SumSnoc(fills, f, SignedOf());
  }

  lemma NetAppend(a: seq<Fill>, b: seq<Fill>)
    ensures Net(a + b) == Net(a) + Net(b)
  {
    SumAppend(a, b, SignedOf());
  }

  // ---------- Segmentation ----------

  datatype Segments = Segments(closed: seq<seq<Fill>>, open: seq<Fill>)

  /** One more fill joins the open segment, and closes it when the position is back at zero. */
  function Extend(s: Segments, f: Fill): Segments {
    var current := s.open + [f];
    if Net(current) == 0.0 then Segments(s.closed + [current], []) else Segments(s.closed, current)
  }

  function Segment(fills: seq<Fill>): Segments {
    if fills == [] then Segments([], [])
    else Extend(Segment(fills[..|fills| - 1]), fills[|fills| - 1])
  }

  lemma SegmentSnoc(fills: seq<Fill>, f: Fill)
    ensures Segment(fills + [f]) == Extend(Segment(fills), f)
  {
    assert (fills + [f])[..|fills|] == fills;
  }

  lemma SegmentNothing()
    ensures Segment([]) == Segments([], []) && Net([]) == 0.0
  {
  }

  function Concat(segments: seq<seq<Fill>>): seq<Fill> {
    if segments == [] then [] else segments[0] + Concat(segments[1..])
  }

  lemma {:induction false} ConcatAppend(a: seq<seq<Fill>>, b: seq<seq<Fill>>)
    ensures Concat(a + b) == Concat(a) + Concat(b)
  {
    if a == [] {
      assert a + b == b;
    } else {
      assert (a + b)[1..] == a[1..] + b;
      ConcatAppend(a[1..], b);
    }
  }

  lemma ConcatLast(segments: seq<seq<Fill>>)
    requires segments != []
    ensures var n := |segments| - 1; Concat(segments) == Concat(segments[..n]) + segments[n]
  {
    var n := |segments| - 1;
    assert segments == segments[..n] + [segments[n]];
    ConcatAppend(segments[..n], [segments[n]]);
    assert Concat([segments[n]]) == segments[n];
  }

  /** No proper nonempty prefix is flat. */
  predicate NeverFlatInside(fills: seq<Fill>) {
    forall i :: 0 < i < |fills| ==> Net(fills[..i]) != 0.0
  }

  /** A closed segment goes from flat to flat without being flat in between. */
  predicate IsTrip(fills: seq<Fill>) {
    fills != [] && Net(fills) == 0.0 && NeverFlatInside(fills)
  }

  predicate IsOpen(fills: seq<Fill>) {
    fills != [] ==> Net(fills) != 0.0 && NeverFlatInside(fills)
  }

  predicate IsSegmentation(fills: seq<Fill>, s: Segments) {
    && Concat(s.closed) + s.open == fills
    && (forall i :: 0 <= i < |s.closed| ==> IsTrip(s.closed[i]))
    && IsOpen(s.open)
  }

  /** Extraction cuts the fills into trips and an unfinished rest, losing nothing. */
  lemma {:induction false} SegmentIsSegmentation(fills: seq<Fill>)
    ensures IsSegmentation(fills, Segment(fills))
  {
    if fills == [] {
    } else {
      var n := |fills| - 1;
      var before, f := Segment(fills[..n]), fills[n];
      SegmentIsSegmentation(fills[..n]);
      var current := before.open + [f];
      assert fills == fills[..n] + [f];
      assert Concat(before.closed) + current == fills;
      forall i | 0 < i < |current| ensures Net(current[..i]) != 0.0 {
        assert current[..i] == before.open[..i];
        assert i == |before.open| ==> before.open[..i] == before.open;
      }
      if Net(current) == 0.0 {
        ConcatAppend(before.closed, [current]);
        assert Concat([current]) == current;
      }
    }
  }

  /** Of two segmentations of the same fills the first trips coincide. */
  lemma FirstTripUnique(fills: seq<Fill>, a: seq<Fill>, b: seq<Fill>)
    requires a <= fills && b <= fills && IsTrip(a) && b != []
    requires NeverFlatInside(b)
    ensures |b| <= |a|
    ensures IsTrip(b) ==> a == b
  {
    assert |a| <= |b| ==> b[..|a|] == a;
    assert |b| <= |a| ==> a[..|b|] == b;
  }

  /** There is only one way to cut fills into trips and an unfinished rest. */
  lemma {:induction false} SegmentationUnique(fills: seq<Fill>, s: Segments, t: Segments)
    requires IsSegmentation(fills, s) && IsSegmentation(fills, t)
    ensures s == t
    decreases |fills|
  {
    if s.closed == [] && t.closed == [] {
      assert s.open == fills == t.open;
    } else if s.closed == [] {
      OpenHasNoTrip(fills, s, t);
    } else if t.closed == [] {
      OpenHasNoTrip(fills, t, s);
    } else {
      var a, b := s.closed[0], t.closed[0];
      assert a <= fills && b <= fills by {
        assert fills == a + (Concat(s.closed[1..]) + s.open);
        assert fills == b + (Concat(t.closed[1..]) + t.open);
      }
      FirstTripUnique(fills, a, b);
      var rest := fills[|a|..];
      assert Concat(s.closed[1..]) + s.open == rest && Concat(t.closed[1..]) + t.open == rest;
      SegmentationUnique(rest, Segments(s.closed[1..], s.open), Segments(t.closed[1..], t.open));
      assert s.closed == [a] + s.closed[1..] && t.closed == [b] + t.closed[1..];
    }
  }

  /** A segmentation with a trip has a flat point after at least one fill. */
  lemma TripIsFlatPrefix(fills: seq<Fill>, t: Segments)
    requires IsSegmentation(fills, t) && t.closed != []
    ensures exists i :: 0 < i <= |fills| && Net(fills[..i]) == 0.0
  {
    var a := t.closed[0];
    assert fills == a + (Concat(t.closed[1..]) + t.open);
    assert fills[..|a|] == a && IsTrip(a);
  }

  /** Fills that never return to zero admit no segmentation with a trip. */
  lemma OpenHasNoTrip(fills: seq<Fill>, s: Segments, t: Segments)
    requires IsSegmentation(fills, s) && IsSegmentation(fills, t)
    requires s.closed == []
    ensures t.closed == []
  {
    assert s.open == fills;
    assert fills[..|fills|] == fills;
    if t.closed != [] {
      TripIsFlatPrefix(fills, t);
    }
  }

  /**
   Segmentation is unique and complete: the extraction is a segmentation, and any cut of the
   fills into trips and an unfinished rest is the extraction's.
   */
  lemma ExtractionIsTheSegmentation(fills: seq<Fill>, s: Segments)
    ensures IsSegmentation(fills, s) <==> s == Segment(fills)
  {
    SegmentIsSegmentation(fills);
    if IsSegmentation(fills, s) {
      SegmentationUnique(fills, s, Segment(fills));
    }
  }

  lemma {:induction false} ClosedNetsZero(segments: seq<seq<Fill>>)
    requires forall i :: 0 <= i < |segments| ==> IsTrip(segments[i])
    ensures Net(Concat(segments)) == 0.0
  {
    if segments == [] {
    } else {
      ClosedNetsZero(segments[1..]);
      NetAppend(segments[0], Concat(segments[1..]));
    }
  }

  /** Nothing is left open exactly when the fills net to zero. */
  lemma FlatMeansClosed(fills: seq<Fill>)
    ensures Net(fills) == Net(Segment(fills).open)
    ensures Net(fills) == 0.0 <==> Segment(fills).open == []
  {
    SegmentIsSegmentation(fills);
    var s := Segment(fills);
    ClosedNetsZero(s.closed);
    NetAppend(Concat(s.closed), s.open);
  }

  /** Extraction composes: cut at any flat point, the parts joined are the extraction of the whole. */
  lemma {:induction false} ExtractionComposes(a: seq<Fill>, b: seq<Fill>)
    requires Net(a) == 0.0
    ensures Segment(a + b) == Segments(Segment(a).closed + Segment(b).closed, Segment(b).open)
  {
    hide Segment, Net;
    if b == [] {
      FlatMeansClosed(a);
      SegmentNothing();
      assert a + b == a;
    } else {
      var n := |b| - 1;
      ExtractionComposes(a, b[..n]);
      SegmentSnoc(a + b[..n], b[n]);
      SegmentSnoc(b[..n], b[n]);
      assert b[..n] + [b[n]] == b && a + b[..n] + [b[n]] == a + b;
    }
  }
}
