/** Insertion-ordered grouping by key, as a dictionary of lists filled item by item. */
module Groups {
  import opened Prelude

  datatype Group<K, T> = Group(key: K, items: seq<T>)

  function AddTo<K(==), T>(groups: seq<Group<K, T>>, key: K, item: T): seq<Group<K, T>> {
    if groups == [] then [Group(key, [item])]
    else if groups[0].key == key then [Group(key, groups[0].items + [item])] + groups[1..]
    else [groups[0]] + AddTo(groups[1..], key, item)
  }

  function GroupBy<K(==), T>(items: seq<T>, keyOf: T -> K): seq<Group<K, T>> {
    if items == [] then []
    else
      var n := |items| - 1;
      AddTo(GroupBy(items[..n], keyOf), keyOf(items[n]), items[n])
  }

  function GroupTotal<K, T>(weight: T -> real): Group<K, T> -> real {
    (g: Group<K, T>) => Sum(g.items, weight)
  }

  function HasKey<K(==), T>(keyOf: T -> K, key: K): T -> bool {
    (x: T) => keyOf(x) == key
  }

  lemma {:induction false} AddToTotal<K, T>(groups: seq<Group<K, T>>, key: K, item: T, weight: T -> real)
    ensures Sum(AddTo(groups, key, item), GroupTotal(weight)) == Sum(groups, GroupTotal(weight)) + weight(item)
  {
    if groups == [] {
      SumSnoc([], item, weight);
      assert [] + [item] == [item];
      assert GroupTotal(weight)(Group(key, [item])) == weight(item);
    } else if groups[0].key == key {
      SumSnoc(groups[0].items, item, weight);
      assert ([Group(key, groups[0].items + [item])] + groups[1..])[1..] == groups[1..];
    } else {
      AddToTotal(groups[1..], key, item, weight);
      assert ([groups[0]] + AddTo(groups[1..], key, item))[1..] == AddTo(groups[1..], key, item);
    }
  }

  /** Grouping loses and duplicates nothing: the group totals add up to the total. */
  lemma {:induction false} GroupsTotal<K, T>(items: seq<T>, keyOf: T -> K, weight: T -> real)
    ensures Sum(GroupBy(items, keyOf), GroupTotal(weight)) == Sum(items, weight)
  {
    if items == [] {
    } else {
      var n := |items| - 1;
      GroupsTotal(items[..n], keyOf, weight);
      AddToTotal(GroupBy(items[..n], keyOf), keyOf(items[n]), items[n], weight);
      assert items == items[..n] + [items[n]];
      SumSnoc(items[..n], items[n], weight);
    }
  }

  function KeyOf<K, T>(): Group<K, T> -> K {
    (g: Group<K, T>) => g.key
  }

  /** One group per key, holding the items of that key in their original order. */
  ghost predicate IsGrouping<K, T>(groups: seq<Group<K, T>>, items: seq<T>, keyOf: T -> K) {
    && DistinctBy(groups, KeyOf<K, T>())
    && (forall i :: 0 <= i < |groups| ==>
          groups[i].items != [] && groups[i].items == Filter(items, HasKey(keyOf, groups[i].key)))
    && (forall x :: x in items ==> exists i :: 0 <= i < |groups| && groups[i].key == keyOf(x))
  }

  /** The item joined the group of its key, at index i, or opened it there. */
  predicate Filed<K(==), T(==)>(groups: seq<Group<K, T>>, after: seq<Group<K, T>>, key: K, item: T, i: nat) {
    && i <= |groups|
    && (forall j :: 0 <= j < |groups| && j != i ==> groups[j].key != key)
    && (i < |groups| ==> groups[i].key == key && after == groups[i := Group(key, groups[i].items + [item])])
    && (i == |groups| ==> after == groups + [Group(key, [item])])
  }

  lemma {:induction false} AddToChangesOne<K, T>(groups: seq<Group<K, T>>, key: K, item: T) returns (i: nat)
    requires DistinctBy(groups, KeyOf<K, T>())
    ensures Filed(groups, AddTo(groups, key, item), key, item, i)
  {
    if groups == [] {
      i := 0;
    } else if groups[0].key == key {
      i := 0;
    } else {
      var rest := groups[1..];
      var j := AddToChangesOne(rest, key, item);
      i := j + 1;
      assert forall k :: 1 <= k < |groups| ==> groups[k] == rest[k - 1];
    }
  }

  /** Filing one more item extends its key's group, at index i, or opens it. */
  lemma GroupsSnoc<K, T>(groups: seq<Group<K, T>>, after: seq<Group<K, T>>, items: seq<T>, x: T, keyOf: T -> K, i: nat)
    requires IsGrouping(groups, items, keyOf) && Filed(groups, after, keyOf(x), x, i)
    ensures IsGrouping(after, items + [x], keyOf)
  {
    forall j | 0 <= j < |after|
      ensures after[j].items != [] && after[j].items == Filter(items + [x], HasKey(keyOf, after[j].key))
    {
      FilterAppend(items, [x], HasKey(keyOf, after[j].key));
      assert Filter([x], HasKey(keyOf, after[j].key)) == if j == i then [x] else [];
      if j == |groups| {
        NoneOfKey(groups, items, keyOf, keyOf(x));
      }
    }
    forall y | y in items + [x] ensures exists j :: 0 <= j < |after| && after[j].key == keyOf(y) {
      if y in items {
        var j :| 0 <= j < |groups| && groups[j].key == keyOf(y);
        assert after[j].key == keyOf(y);
      } else {
        assert y == x && after[i].key == keyOf(y);
      }
    }
  }

  lemma GroupsDistinct<K, T>(groups: seq<Group<K, T>>, items: seq<T>, keyOf: T -> K)
    requires IsGrouping(groups, items, keyOf)
    ensures DistinctBy(groups, KeyOf<K, T>())
  {
  }

  lemma {:induction false} GroupByGroups<K, T>(items: seq<T>, keyOf: T -> K)
    ensures IsGrouping(GroupBy(items, keyOf), items, keyOf)
  {
    if items == [] {
    } else {
      var n := |items| - 1;
      var before, x := GroupBy(items[..n], keyOf), items[n];
      assert items == items[..n] + [x];
      hide IsGrouping, DistinctBy, Filed, AddTo, HasKey, Filter;
      GroupByGroups(items[..n], keyOf);
      GroupsDistinct(before, items[..n], keyOf);
      var i := AddToChangesOne(before, keyOf(x), x);
      GroupsSnoc(before, AddTo(before, keyOf(x), x), items[..n], x, keyOf, i);
    }
  }

  lemma NoneOfKey<K, T>(groups: seq<Group<K, T>>, items: seq<T>, keyOf: T -> K, key: K)
    requires IsGrouping(groups, items, keyOf)
    requires forall j :: 0 <= j < |groups| ==> groups[j].key != key
    ensures Filter(items, HasKey(keyOf, key)) == []
  {
    FilterNone(items, HasKey(keyOf, key));
  }

  // ---------- The order of the groups ----------

  function GroupKeys<K, T>(groups: seq<Group<K, T>>): seq<K> {
    if groups == [] then [] else [groups[0].key] + GroupKeys(groups[1..])
  }

  function ItemKeys<K, T>(items: seq<T>, keyOf: T -> K): seq<K> {
    if items == [] then [] else ItemKeys(items[..|items| - 1], keyOf) + [keyOf(items[|items| - 1])]
  }

  lemma {:induction false} AddToKeys<K, T>(groups: seq<Group<K, T>>, key: K, item: T)
    ensures GroupKeys(AddTo(groups, key, item)) == if key in GroupKeys(groups) then GroupKeys(groups) else GroupKeys(groups) + [key]
  {
    if groups == [] {
    } else if groups[0].key == key {
      assert ([Group(key, groups[0].items + [item])] + groups[1..])[1..] == groups[1..];
    } else {
      AddToKeys(groups[1..], key, item);
      assert ([groups[0]] + AddTo(groups[1..], key, item))[1..] == AddTo(groups[1..], key, item);
    }
  }

  /** The groups stand in the order in which their keys first occur among the items. */
  lemma {:induction false} GroupsInFirstOrder<K, T>(items: seq<T>, keyOf: T -> K)
    ensures InFirstOrder(GroupKeys(GroupBy(items, keyOf)), ItemKeys(items, keyOf))
    ensures SetOf(GroupKeys(GroupBy(items, keyOf))) == SetOf(ItemKeys(items, keyOf))
  {
    hide InFirstOrder, SetOf, AddTo;
    if items == [] {
      NoKeys<K>();
    } else {
      var n := |items| - 1;
      GroupsInFirstOrder(items[..n], keyOf);
      AddToKeys(GroupBy(items[..n], keyOf), keyOf(items[n]), items[n]);
      OneMoreInOrder(GroupKeys(GroupBy(items[..n], keyOf)), ItemKeys(items[..n], keyOf), keyOf(items[n]));
    }
  }

  lemma NoKeys<K>()
    ensures InFirstOrder<K>([], [])
  {
  }
}
