/** Sums of real amounts over lists. */
module RealSums {
  import opened Permutations

  function Sum<T>(items: seq<T>, f: T -> real): real {
    if items == [] then 0.0 else f(items[0]) + Sum(items[1..], f)
  }

  lemma {:induction false} SumWithout<T>(items: seq<T>, k: nat, f: T -> real)
    requires k < |items|
    ensures Sum(items, f) == f(items[k]) + Sum(items[..k] + items[k + 1..], f)
  {
    var rest := items[..k] + items[k + 1..];
    if k > 0 {
      SumWithout(items[1..], k - 1, f);
      assert items[1..][..k - 1] + items[1..][k..] == rest[1..];
    } else {
      assert rest == items[1..];
    }
  }

  lemma {:induction false} SumAppends<T>(a: seq<T>, b: seq<T>, f: T -> real)
    ensures Sum(a + b, f) == Sum(a, f) + Sum(b, f)
  {
    if a == [] {
      assert a + b == b;
    } else {
      SumAppends(a[1..], b, f);
      assert (a + b)[1..] == a[1..] + b;
    }
  }

  lemma {:induction false} SumsAgree<T>(items: seq<T>, f: T -> real, g: T -> real)
    requires forall x :: x in items ==> f(x) == g(x)
    ensures Sum(items, f) == Sum(items, g)
  {
    if items != [] {
      SumsAgree(items[1..], f, g);
    }
  }

  lemma SumUpdated<T>(items: seq<T>, k: nat, item: T, f: T -> real)
    requires k < |items|
    ensures Sum(items[k := item], f) == Sum(items, f) - f(items[k]) + f(item)
  {
    SumWithout(items, k, f);
    SumWithout(items[k := item], k, f);
    assert items[k := item][..k] == items[..k] && items[k := item][k + 1..] == items[k + 1..];
  }

  /** A sum does not depend on the order of its items. */
  lemma {:induction false} SumPermutes<T>(a: seq<T>, b: seq<T>, f: T -> real)
    requires multiset(a) == multiset(b)
    ensures Sum(a, f) == Sum(b, f)
  {
    if a == [] {
      NoneLeft(a, b);
    } else {
      var k := HeadFound(a, b);
      SumWithout(b, k, f);
      SumPermutes(a[1..], b[..k] + b[k + 1..], f);
    }
  }
}
