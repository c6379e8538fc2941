/** A stable sort by a comparison, as the language's own sort behaves. */
module Sorting {
  import opened Permutations

  /** Whether the first item may come before the second. */
  type AtMost<!T> = (T, T) -> bool

  ghost predicate TotalPreorder<T(!new)>(atMost: AtMost<T>) {
    && (forall a, b :: atMost(a, b) || atMost(b, a))
    && (forall a, b, c :: atMost(a, b) && atMost(b, c) ==> atMost(a, c))
  }

  ghost predicate Ordered<T>(items: seq<T>, atMost: AtMost<T>) {
    forall i, j :: 0 <= i < j < |items| ==> atMost(items[i], items[j])
  }

  function Insert<T>(sorted: seq<T>, item: T, atMost: AtMost<T>): seq<T> {
    if sorted == [] || !atMost(sorted[0], item) then [item] + sorted
    else [sorted[0]] + Insert(sorted[1..], item, atMost)
  }

  function Sorted<T>(items: seq<T>, atMost: AtMost<T>): seq<T> {
    if items == [] then []
    else Insert(Sorted(items[..|items| - 1], atMost), items[|items| - 1], atMost)
  }

  lemma SortedSnoc<T>(items: seq<T>, item: T, atMost: AtMost<T>)
    ensures Sorted(items + [item], atMost) == Insert(Sorted(items, atMost), item, atMost)
  {
    assert (items + [item])[..|items|] == items;
  }

  /** Where an item is inserted: behind every item that may come before it. */
  lemma {:induction false} InsertAt<T>(sorted: seq<T>, item: T, atMost: AtMost<T>, k: nat)
    requires k <= |sorted| && (forall j :: 0 <= j < k ==> atMost(sorted[j], item))
    requires k < |sorted| ==> !atMost(sorted[k], item)
    ensures Insert(sorted, item, atMost) == sorted[..k] + [item] + sorted[k..]
  {
    if k > 0 {
      InsertAt(sorted[1..], item, atMost, k - 1);
    }
  }

  lemma {:induction false} InsertItems<T>(sorted: seq<T>, item: T, atMost: AtMost<T>)
    ensures multiset(Insert(sorted, item, atMost)) == multiset(sorted) + multiset{item}
    ensures forall x :: x in Insert(sorted, item, atMost) ==> x == item || x in sorted
  {
    if !(sorted == [] || !atMost(sorted[0], item)) {
      InsertItems(sorted[1..], item, atMost);
      assert sorted == [sorted[0]] + sorted[1..];
    }
  }

  lemma {:induction false} InsertOrdered<T(!new)>(sorted: seq<T>, item: T, atMost: AtMost<T>)
    requires TotalPreorder(atMost) && Ordered(sorted, atMost)
    ensures Ordered(Insert(sorted, item, atMost), atMost)
  {
    if sorted == [] || !atMost(sorted[0], item) {
      forall i | 0 <= i < |sorted| ensures atMost(item, sorted[i]) {
        assert i > 0 ==> atMost(sorted[0], sorted[i]);
      }
    } else {
      InsertOrdered(sorted[1..], item, atMost);
      InsertItems(sorted[1..], item, atMost);
      var rest := Insert(sorted[1..], item, atMost);
      forall i | 0 <= i < |rest| ensures atMost(sorted[0], rest[i]) {
        assert rest[i] in rest;
      }
    }
  }

  /** The sort orders its items and loses none. */
  lemma {:induction false} SortedLaw<T(!new)>(items: seq<T>, atMost: AtMost<T>)
    requires TotalPreorder(atMost)
    ensures Ordered(Sorted(items, atMost), atMost) && multiset(Sorted(items, atMost)) == multiset(items)
    ensures |Sorted(items, atMost)| == |items|
  {
    if items != [] {
      var n := |items| - 1;
      SortedLaw(items[..n], atMost);
      InsertOrdered(Sorted(items[..n], atMost), items[n], atMost);
      InsertItems(Sorted(items[..n], atMost), items[n], atMost);
      assert items == items[..n] + [items[n]];
    }
    assert |multiset(Sorted(items, atMost))| == |Sorted(items, atMost)|;
  }

  /** Membership, as the multiset equality gives it. */
  lemma SortedMembers<T(!new)>(items: seq<T>, atMost: AtMost<T>)
    requires TotalPreorder(atMost)
    ensures forall x :: x in Sorted(items, atMost) <==> x in items
  {
    SortedLaw(items, atMost);
    forall x ensures x in Sorted(items, atMost) <==> x in items {
      assert x in multiset(Sorted(items, atMost)) <==> x in multiset(items);
    }
  }

  /** Two ordered lists of the same items are the same list, if only equal items compare both ways. */
  lemma {:induction false} OrderedUnique<T(!new)>(a: seq<T>, b: seq<T>, atMost: AtMost<T>)
    requires Ordered(a, atMost) && Ordered(b, atMost) && multiset(a) == multiset(b)
    requires forall x, y :: x in a && y in a && atMost(x, y) && atMost(y, x) ==> x == y
    ensures a == b
  {
    if a == [] {
      NoneLeft(a, b);
    } else {
      SameHead(a, b, atMost);
      TailsMatch(a, b);
      OrderedUnique(a[1..], b[1..], atMost);
    }
  }

  lemma SameHead<T(!new)>(a: seq<T>, b: seq<T>, atMost: AtMost<T>)
    requires Ordered(a, atMost) && Ordered(b, atMost) && multiset(a) == multiset(b) && a != []
    requires forall x, y :: x in a && y in a && atMost(x, y) && atMost(y, x) ==> x == y
    ensures b != [] && a[0] == b[0]
  {
    SameMembers(a, b);
    assert a[0] in b;
    assert b[0] in a;
  }

  /** Sorting is the same whatever order the items came in, if only equal items compare both ways. */
  lemma SortedCanonical<T(!new)>(a: seq<T>, b: seq<T>, atMost: AtMost<T>)
    requires TotalPreorder(atMost) && multiset(a) == multiset(b)
    requires forall x, y :: x in a && y in a && atMost(x, y) && atMost(y, x) ==> x == y
    ensures Sorted(a, atMost) == Sorted(b, atMost)
  {
    SortedLaw(a, atMost);
    SortedLaw(b, atMost);
    SortedMembers(a, atMost);
    OrderedUnique(Sorted(a, atMost), Sorted(b, atMost), atMost);
  }
}
