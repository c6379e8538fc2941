/** Sums of whole amounts over lists. */
module Sums {
  import opened Permutations
  import RealSums

  function Sum<T>(items: seq<T>, f: T -> int): int {
    if items == [] then 0 else f(items[0]) + Sum(items[1..], f)
  }

  function Real<T>(f: T -> int): T -> real {
    x => f(x) as real
  }

  /** Whole amounts add up as real ones do; the laws below are those of real sums. */
  lemma {:induction false} SumIsReal<T>(items: seq<T>, f: T -> int)
    ensures RealSums.Sum(items, Real(f)) == Sum(items, f) as real
  {
    if items != [] {
      SumIsReal(items[1..], f);
    }
  }

  lemma SumAppends<T>(a: seq<T>, b: seq<T>, f: T -> int)
    ensures Sum(a + b, f) == Sum(a, f) + Sum(b, f)
  {
    SumIsReal(a, f);
    SumIsReal(b, f);
    SumIsReal(a + b, f);
    RealSums.SumAppends(a, b, Real(f));
  }

  lemma SumSnoc<T>(items: seq<T>, item: T, f: T -> int)
    ensures Sum(items + [item], f) == Sum(items, f) + f(item)
  {
    SumAppends(items, [item], f);
  }

  lemma SumsAgree<T>(items: seq<T>, f: T -> int, g: T -> int)
    requires forall x :: x in items ==> f(x) == g(x)
    ensures Sum(items, f) == Sum(items, g)
  {
    SumIsReal(items, f);
    SumIsReal(items, g);
    RealSums.SumsAgree(items, Real(f), Real(g));
  }

  lemma SumWithout<T>(items: seq<T>, k: nat, f: T -> int)
    requires k < |items|
    ensures Sum(items, f) == f(items[k]) + Sum(items[..k] + items[k + 1..], f)
  {
    SumIsReal(items, f);
    SumIsReal(items[..k] + items[k + 1..], f);
    RealSums.SumWithout(items, k, Real(f));
  }

  lemma SumUpdated<T>(items: seq<T>, k: nat, item: T, f: T -> int)
    requires k < |items|
    ensures Sum(items[k := item], f) == Sum(items, f) - f(items[k]) + f(item)
  {
    SumIsReal(items, f);
    SumIsReal(items[k := item], f);
    RealSums.SumUpdated(items, k, item, Real(f));
  }

  /** A sum does not depend on the order of its items. */
  lemma SumPermutes<T>(a: seq<T>, b: seq<T>, f: T -> int)
    requires multiset(a) == multiset(b)
    ensures Sum(a, f) == Sum(b, f)
  {
    SumIsReal(a, f);
    SumIsReal(b, f);
    RealSums.SumPermutes(a, b, Real(f));
  }

  /*** Lists of lists ***/

  /** The lists that items give, one after another. */
  function Flat<T, U>(items: seq<T>, f: T -> seq<U>): seq<U> {
    if items == [] then [] else f(items[0]) + Flat(items[1..], f)
  }

  lemma {:induction false} FlatAppends<T, U>(a: seq<T>, b: seq<T>, f: T -> seq<U>)
    ensures Flat(a + b, f) == Flat(a, f) + Flat(b, f)
  {
    if a == [] {
      assert a + b == b;
    } else {
      FlatAppends(a[1..], b, f);
      FlatHead(a + b, a[0], a[1..] + b, f);
      Regroup(f(a[0]), Flat(a[1..], f), Flat(b, f));
    }
  }

  lemma FlatHead<T, U>(items: seq<T>, head: T, tail: seq<T>, f: T -> seq<U>)
    requires items != [] && items[0] == head && items[1..] == tail
    ensures Flat(items, f) == f(head) + Flat(tail, f)
  {
  }

  lemma Regroup<U>(x: seq<U>, y: seq<U>, z: seq<U>)
    ensures x + (y + z) == (x + y) + z
  {
  }

  lemma FlatSnoc<T, U>(items: seq<T>, item: T, f: T -> seq<U>)
    ensures Flat(items + [item], f) == Flat(items, f) + f(item)
  {
    FlatAppends(items, [item], f);
    assert Flat([item], f) == f(item) + Flat([item][1..], f) == f(item);
  }

  lemma MiddleOut<U>(x: seq<U>, y: seq<U>, z: seq<U>)
    ensures multiset((x + y) + z) == multiset(y) + multiset(x + z)
  {
  }

  lemma FlatSplit<T, U>(items: seq<T>, front: seq<T>, item: T, back: seq<T>, f: T -> seq<U>)
    requires items == (front + [item]) + back
    ensures Flat(items, f) == (Flat(front, f) + f(item)) + Flat(back, f)
  {
    FlatAppends(front + [item], back, f);
    FlatSnoc(front, item, f);
  }

  lemma SplitAt<T>(items: seq<T>, k: nat)
    requires k < |items|
    ensures items == (items[..k] + [items[k]]) + items[k + 1..]
  {
  }

  lemma FlatWithout<T, U>(items: seq<T>, k: nat, f: T -> seq<U>)
    requires k < |items|
    ensures multiset(Flat(items, f)) == multiset(f(items[k])) + multiset(Flat(items[..k] + items[k + 1..], f))
  {
    SplitAt(items, k);
    FlatSplit(items, items[..k], items[k], items[k + 1..], f);
    FlatAppends(items[..k], items[k + 1..], f);
    MiddleOut(Flat(items[..k], f), f(items[k]), Flat(items[k + 1..], f));
  }

  /** In another order, the lists give the same items. */
  lemma {:induction false} FlatPermutes<T, U>(a: seq<T>, b: seq<T>, f: T -> seq<U>)
    requires multiset(a) == multiset(b)
    ensures multiset(Flat(a, f)) == multiset(Flat(b, f))
  {
    if a == [] {
      NoneLeft(a, b);
    } else {
      var k := HeadFound(a, b);
      FlatPermutes(a[1..], b[..k] + b[k + 1..], f);
      FlatWithout(b, k, f);
    }
  }
}
