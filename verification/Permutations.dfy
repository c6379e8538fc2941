/** Lists with the same items in different orders. */
module Permutations {
  import opened Base

  lemma TakenOut<T>(items: seq<T>, k: nat)
    requires k < |items|
    ensures multiset(items[..k] + items[k + 1..]) == multiset(items) - multiset{items[k]}
  {
    assert items == items[..k] + [items[k]] + items[k + 1..];
  }

  lemma Tail<T>(items: seq<T>)
    requires items != []
    ensures multiset(items[1..]) == multiset(items) - multiset{items[0]}
  {
    assert items == [items[0]] + items[1..];
  }

  /** Of two lists with the same items, the first item of one is found in the other, with the same items left. */
  lemma HeadFound<T>(a: seq<T>, b: seq<T>) returns (k: nat)
    requires multiset(a) == multiset(b) && a != []
    ensures k < |b| && b[k] == a[0] && multiset(a[1..]) == multiset(b[..k] + b[k + 1..])
  {
    assert a[0] in multiset(b);
    k :| 0 <= k < |b| && b[k] == a[0];
    TakenOut(b, k);
    Tail(a);
  }

  lemma NoneLeft<T>(a: seq<T>, b: seq<T>)
    requires multiset(a) == multiset(b) && a == []
    ensures b == []
  {
    assert |multiset(b)| == 0;
  }

  lemma TailsMatch<T>(a: seq<T>, b: seq<T>)
    requires multiset(a) == multiset(b) && a != [] && b != [] && a[0] == b[0]
    ensures multiset(a[1..]) == multiset(b[1..])
  {
    Tail(a);
    Tail(b);
  }

  lemma SameMembers<T(!new)>(a: seq<T>, b: seq<T>)
    requires multiset(a) == multiset(b)
    ensures forall x :: x in a <==> x in b
  {
    forall x ensures x in a <==> x in b {
      assert x in multiset(a) <==> x in multiset(b);
    }
  }

  /*** Repeats ***/

  predicate Distinct<T(==)>(items: seq<T>) {
    forall i, j :: 0 <= i < j < |items| ==> items[i] != items[j]
  }

  lemma CountsOne<T>(items: seq<T>, k: nat)
    requires Distinct(items) && k < |items|
    ensures multiset(items)[items[k]] == 1
  {
    assert items == items[..k] + [items[k]] + items[k + 1..];
  }

  lemma CountsTwo<T>(items: seq<T>, i: nat, j: nat)
    requires i < j < |items| && items[i] == items[j]
    ensures multiset(items)[items[i]] >= 2
  {
    assert items == items[..j] + items[j..];
    assert items[..j][i] == items[i] && items[j..][0] == items[i];
  }

  lemma RearrangedDistinct<T(!new)>(a: seq<T>, b: seq<T>)
    requires multiset(a) == multiset(b) && Distinct(a)
    ensures Distinct(b)
  {
    SameMembers(a, b);
    forall i, j | 0 <= i < j < |b| ensures b[i] != b[j] {
      if b[i] == b[j] {
        CountsTwo(b, i, j);
        assert b[i] in a;
        var k :| 0 <= k < |a| && a[k] == b[i];
        CountsOne(a, k);
      }
    }
  }

  /*** Keys ***/

  type Key<!T> = T -> Option<string>

  /** No two items share a key; items without a key are free. */
  predicate AllDistinct<T>(items: seq<T>, key: Key<T>) {
    forall i, j :: 0 <= i < j < |items| && key(items[i]).Some? ==> key(items[i]) != key(items[j])
  }

  lemma DistinctHead<T>(items: seq<T>, key: Key<T>)
    requires items != []
    ensures AllDistinct(items, key) <==>
            && AllDistinct(items[1..], key)
            && (key(items[0]).Some? ==> forall x :: x in items[1..] ==> key(x) != key(items[0]))
  {
    if AllDistinct(items, key) {
      forall i, j | 0 <= i < j < |items[1..]| && key(items[1..][i]).Some? ensures key(items[1..][i]) != key(items[1..][j]) {
        assert key(items[i + 1]) != key(items[j + 1]);
      }
    }
    if AllDistinct(items[1..], key) && (key(items[0]).Some? ==> forall x :: x in items[1..] ==> key(x) != key(items[0])) {
      forall i, j | 0 <= i < j < |items| && key(items[i]).Some? ensures key(items[i]) != key(items[j]) {
        assert items[j] == items[1..][j - 1];
        assert i > 0 ==> items[i] == items[1..][i - 1];
      }
    }
  }

  lemma {:induction false} DistinctPermutes<T>(a: seq<T>, b: seq<T>, key: Key<T>)
    requires multiset(a) == multiset(b) && AllDistinct(a, key)
    ensures AllDistinct(b, key)
  {
    if a == [] {
      NoneLeft(a, b);
    } else {
      var k := HeadFound(a, b);
      var rest := b[..k] + b[k + 1..];
      DistinctHead(a, key);
      DistinctPermutes(a[1..], rest, key);
      forall x | x in rest && key(a[0]).Some? ensures key(x) != key(a[0]) {
        assert x in multiset(a[1..]);
      }
      DistinctWith(b, k, key);
    }
  }

  /** Putting back an item whose key is its own keeps a list distinct. */
  lemma DistinctWith<T>(items: seq<T>, k: nat, key: Key<T>)
    requires k < |items| && AllDistinct(items[..k] + items[k + 1..], key)
    requires key(items[k]).Some? ==> forall x :: x in items[..k] + items[k + 1..] ==> key(x) != key(items[k])
    ensures AllDistinct(items, key)
  {
    var rest := items[..k] + items[k + 1..];
    forall i, j | 0 <= i < j < |items| && key(items[i]).Some? ensures key(items[i]) != key(items[j]) {
      var i', j' := if i < k then i else i - 1, if j < k then j else j - 1;
      assert i != k ==> rest[i'] == items[i];
      assert j != k ==> rest[j'] == items[j];
    }
  }
}
