/**
 Values and sums shared by the whole model: optional and fallible results, real
 arithmetic helpers, and weighted sums, counts and filters over sequences.
 */
module Prelude {

  datatype Option<+T> = None | Some(value: T)

  datatype Result<+T, +E> = Ok(value: T) | Err(error: E)

  function Abs(x: real): real {
    if x < 0.0 then -x else x
  }

  function Min(x: real, y: real): real {
    if y < x then y else x
  }

  function Max(x: real, y: real): real {
    if x < y then y else x
  }

  lemma NonNegativeTimes(x: real, y: real)
    requires x >= 0.0 && y >= 0.0
    ensures x * y >= 0.0
    ensures x > 0.0 && y > 0.0 ==> x * y > 0.0
  {
  }

  lemma TimesGrows(a: int, b: int, size: int)
    requires a <= b && size >= 0
    ensures a * size <= b * size
  {
    assert (b - a) * size >= 0;
    assert b * size == a * size + (b - a) * size;
  }

  // ---------- Sums ----------

  function Sum<T>(s: seq<T>, weight: T -> real): real {
    if s == [] then 0.0 else weight(s[0]) + Sum(s[1..], weight)
  }

  function Itself(): real -> real {
    (x: real) => x
  }

  lemma SumOfNothing<T>(weight: T -> real)
    ensures Sum([], weight) == 0.0
  {
  }

  function One<T>(): T -> real {
    (x: T) => 1.0
  }

  lemma {:induction false} SumAppend<T>(a: seq<T>, b: seq<T>, weight: T -> real)
    ensures Sum(a + b, weight) == Sum(a, weight) + Sum(b, weight)
  {
    if a == [] {
      assert a + b == b;
    } else {
      assert (a + b)[1..] == a[1..] + b;
      SumAppend(a[1..], b, weight);
    }
  }

  lemma SumSnoc<T>(s: seq<T>, x: T, weight: T -> real)
    ensures Sum(s + [x], weight) == Sum(s, weight) + weight(x)
  {
    SumAppend(s, [x], weight);
  }

  lemma SumLast<T>(s: seq<T>, weight: T -> real)
    requires s != []
    ensures Sum(s, weight) == Sum(s[..|s| - 1], weight) + weight(s[|s| - 1])
  {
    assert s == s[..|s| - 1] + [s[|s| - 1]];
    SumSnoc(s[..|s| - 1], s[|s| - 1], weight);
  }

  /** Adding the next element to a prefix sum, as an accumulating loop does. */
  lemma SumPrefix<T>(s: seq<T>, i: nat, weight: T -> real)
    requires i < |s|
    ensures Sum(s[..i + 1], weight) == Sum(s[..i], weight) + weight(s[i])
  {
    assert s[..i + 1] == s[..i] + [s[i]];
    SumSnoc(s[..i], s[i], weight);
  }

  lemma {:induction false} SumNonNegative<T>(s: seq<T>, weight: T -> real)
    requires forall x :: x in s ==> weight(x) >= 0.0
    ensures Sum(s, weight) >= 0.0
  {
    if s == [] {
    } else {
      SumNonNegative(s[1..], weight);
    }
  }

  lemma {:induction false} SumEqual<T>(s: seq<T>, w1: T -> real, w2: T -> real)
    requires forall x :: x in s ==> w1(x) == w2(x)
    ensures Sum(s, w1) == Sum(s, w2)
  {
    if s == [] {
    } else {
      SumEqual(s[1..], w1, w2);
    }
  }

  lemma {:induction false} SumAdd<T>(s: seq<T>, w1: T -> real, w2: T -> real, total: T -> real)
    requires forall x :: x in s ==> w1(x) + w2(x) == total(x)
    ensures Sum(s, w1) + Sum(s, w2) == Sum(s, total)
  {
    if s == [] {
    } else {
      SumAdd(s[1..], w1, w2, total);
    }
  }

  // ---------- Counts and filters ----------

  function Count<T>(s: seq<T>, test: T -> bool): nat {
    if s == [] then 0 else (if test(s[0]) then 1 else 0) + Count(s[1..], test)
  }

  lemma {:induction false} CountAppend<T>(a: seq<T>, b: seq<T>, test: T -> bool)
    ensures Count(a + b, test) == Count(a, test) + Count(b, test)
  {
    if a == [] {
      assert a + b == b;
    } else {
      assert (a + b)[1..] == a[1..] + b;
      CountAppend(a[1..], b, test);
    }
  }

  lemma {:induction false} CountZero<T>(s: seq<T>, test: T -> bool)
    ensures Count(s, test) == 0 <==> forall x :: x in s ==> !test(x)
  {
    if s == [] {
    } else {
      CountZero(s[1..], test);
      assert forall x :: x in s <==> x == s[0] || x in s[1..];
    }
  }

  function Filter<T>(s: seq<T>, test: T -> bool): seq<T> {
    if s == [] then []
    else if test(s[0]) then [s[0]] + Filter(s[1..], test)
    else Filter(s[1..], test)
  }

  lemma {:induction false} FilterMembers<T>(s: seq<T>, test: T -> bool)
    ensures forall x :: x in Filter(s, test) <==> x in s && test(x)
  {
    if s == [] {
    } else {
      FilterMembers(s[1..], test);
      assert forall x :: x in s <==> x == s[0] || x in s[1..];
    }
  }

  lemma {:induction false} FilterAppend<T>(a: seq<T>, b: seq<T>, test: T -> bool)
    ensures Filter(a + b, test) == Filter(a, test) + Filter(b, test)
  {
    if a == [] {
      assert a + b == b;
    } else {
      assert (a + b)[1..] == a[1..] + b;
      FilterAppend(a[1..], b, test);
    }
  }

  lemma {:induction false} FilterAll<T>(s: seq<T>, test: T -> bool)
    requires forall x :: x in s ==> test(x)
    ensures Filter(s, test) == s
  {
    if s == [] {
    } else {
      FilterAll(s[1..], test);
    }
  }

  lemma {:induction false} FilterNone<T>(s: seq<T>, test: T -> bool)
    requires forall x :: x in s ==> !test(x)
    ensures Filter(s, test) == []
  {
    if s == [] {
    } else {
      FilterNone(s[1..], test);
    }
  }

  /** Splitting a sequence by a test loses nothing and counts nothing twice. */
  lemma {:induction false} FilterSplits<T>(s: seq<T>, test: T -> bool, other: T -> bool, weight: T -> real, mark: T -> bool)
    requires forall x :: x in s ==> other(x) == !test(x)
    ensures Sum(Filter(s, test), weight) + Sum(Filter(s, other), weight) == Sum(s, weight)
    ensures Count(Filter(s, test), mark) + Count(Filter(s, other), mark) == Count(s, mark)
  {
    if s == [] {
    } else {
      FilterSplits(s[1..], test, other, weight, mark);
      var t := Filter(s[1..], test);
      var o := Filter(s[1..], other);
      assert ([s[0]] + t)[1..] == t && ([s[0]] + o)[1..] == o;
    }
  }

  predicate StrictlyIncreasing(s: seq<int>) {
    forall i, j :: 0 <= i < j < |s| ==> s[i] < s[j]
  }

  predicate Distinct<T(==)>(s: seq<T>) {
    forall i, j :: 0 <= i < j < |s| ==> s[i] != s[j]
  }

  /** No two elements have the same key. */
  predicate DistinctBy<T, K(==)>(s: seq<T>, keyOf: T -> K) {
    forall i, j :: 0 <= i < j < |s| ==> keyOf(s[i]) != keyOf(s[j])
  }

  /** Where a sequence first has an element. */
  function IndexOf<T(==)>(s: seq<T>, x: T): (i: nat)
    requires x in s
    ensures i < |s| && s[i] == x && forall k :: 0 <= k < i ==> s[k] != x
  {
    if s[0] == x then 0 else 1 + IndexOf(s[1..], x)
  }

  /** The places at which a test holds. */
  function Places<T>(s: seq<T>, test: T -> bool): set<int> {
    set i | 0 <= i < |s| && test(s[i])
  }

  /** A count is the number of places counted. */
  lemma {:induction false} CountPlaces<T>(s: seq<T>, test: T -> bool)
    ensures Count(s, test) == |Places(s, test)|
  {
    if s == [] {
      assert Places(s, test) == {};
    } else {
      var n := |s| - 1;
      CountPlaces(s[..n], test);
      assert s == s[..n] + [s[n]];
      CountAppend(s[..n], [s[n]], test);
      assert Count([s[n]], test) == if test(s[n]) then 1 else 0;
      if test(s[n]) {
        assert Places(s, test) == Places(s[..n], test) + {n};
      } else {
        assert Places(s, test) == Places(s[..n], test);
      }
    }
  }

  function SetOf<T>(s: seq<T>): set<T> {
    set x | x in s
  }

  /** Each element of the list occurs in the sequence, and they stand in the order of their first occurrences. */
  predicate InFirstOrder<T(==)>(list: seq<T>, flat: seq<T>) {
    && (forall i :: 0 <= i < |list| ==> list[i] in flat)
    && forall i, j :: 0 <= i < j < |list| ==> IndexOf(flat, list[i]) < IndexOf(flat, list[j])
  }

  lemma IndexStays<T>(done: seq<T>, t: T, x: T)
    requires x in done
    ensures x in done + [t] && IndexOf(done + [t], x) == IndexOf(done, x)
  {
    var i := IndexOf(done, x);
    assert (done + [t])[i] == x;
    assert forall k :: 0 <= k < i ==> (done + [t])[k] == done[k];
  }

  lemma SetOfSnoc<T>(s: seq<T>, x: T)
    ensures SetOf(s + [x]) == SetOf(s) + {x}
  {
  }

  /** One more element is appended to the list, unless it is there already. */
  lemma OneMoreInOrder<T>(known: seq<T>, done: seq<T>, t: T)
    requires InFirstOrder(known, done) && SetOf(known) == SetOf(done)
    ensures var next := if t in known then known else known + [t];
            InFirstOrder(next, done + [t]) && SetOf(next) == SetOf(done + [t])
  {
    forall i | 0 <= i < |known| ensures known[i] in done + [t] && IndexOf(done + [t], known[i]) == IndexOf(done, known[i]) {
      IndexStays(done, t, known[i]);
    }
    SetOfSnoc(known, t);
    SetOfSnoc(done, t);
    assert t in known <==> t in SetOf(known);
    assert t in done <==> t in SetOf(done);
    if t !in known {
      assert forall k :: 0 <= k < |done| ==> (done + [t])[k] in done;
      assert IndexOf(done + [t], t) == |done|;
    }
  }

  /** Two strictly increasing sequences with the same members are the same sequence. */
  lemma {:induction false} SameMembersSameSequence(a: seq<int>, b: seq<int>)
    requires StrictlyIncreasing(a) && StrictlyIncreasing(b)
    requires forall t :: t in a <==> t in b
    ensures a == b
  {
    assert |b| > 0 ==> b[0] in b;
    if a == [] {
    } else {
      assert a[0] in a && b[0] in a;
      assert a[0] == b[0];
      forall t ensures t in a[1..] <==> t in b[1..] {
        assert t in a <==> t == a[0] || t in a[1..];
        assert t in b <==> t == b[0] || t in b[1..];
      }
      SameMembersSameSequence(a[1..], b[1..]);
      assert a == [a[0]] + a[1..] && b == [b[0]] + b[1..];
    }
  }

  /** Puts one value in front of every sequence. */
  function Prefixed<T>(x: T, tails: seq<seq<T>>): seq<seq<T>> {
    if tails == [] then [] else [[x] + tails[0]] + Prefixed(x, tails[1..])
  }

  lemma {:induction false} PrefixedAt<T>(x: T, tails: seq<seq<T>>)
    ensures |Prefixed(x, tails)| == |tails|
    ensures forall i :: 0 <= i < |tails| ==> Prefixed(x, tails)[i] == [x] + tails[i]
  {
    if tails != [] {
      PrefixedAt(x, tails[1..]);
    }
  }
}
