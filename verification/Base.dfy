/** Shared value types. */
module Base {
  datatype Option<+T> = None | Some(value: T)

  datatype Result<+T, +E> = Ok(value: T) | Err(error: E)

  function Max(a: int, b: int): int {
    if a < b then b else a
  }

  function Min(a: int, b: int): int {
    if a < b then a else b
  }

  function MaxReal(a: real, b: real): real {
    if a < b then b else a
  }

  function MinReal(a: real, b: real): real {
    if a < b then a else b
  }

  /** The largest integer the language counts exactly. */
  const MAX_SAFE := 0x1F_FFFF_FFFF_FFFF

  /** An amount of money, in whole cents. */
  predicate Cents(n: int) {
    0 <= n <= MAX_SAFE
  }

  lemma CentsIff(n: int)
    ensures Cents(n) <==> 0 <= n <= 9_007_199_254_740_991
  {
  }

  /** The last place in a list where a test holds. */
  function FindLast<T>(items: seq<T>, test: T -> bool): (r: Option<nat>)
    ensures r.Some? ==> r.value < |items| && test(items[r.value])
    ensures r.None? ==> forall i :: 0 <= i < |items| ==> !test(items[i])
  {
    if items == [] then None
    else if test(items[|items| - 1]) then Some(|items| - 1)
    else FindLast(items[..|items| - 1], test)
  }
}
