/** Small vocabulary shared by every module. */
module Basics {

  datatype Option<+T> = None | Some(value: T)

  /** The result of an operation that ends the caller when it fails: the `?` of the source. */
  datatype Outcome = Pass | Fail {
    predicate IsFailure() {
      Fail?
    }

    function PropagateFailure(): Outcome
      requires Fail?
    {
      Fail
    }
  }

  type Id = string

  /** Instants and durations, in nanoseconds. */
  type Instant = int

  const MILLISECOND: int := 1_000_000

  /** `a` can be obtained from `b` by deleting elements. */
  ghost predicate Subsequence<T>(a: seq<T>, b: seq<T>)
  {
    if a == [] then true
    else if b == [] then false
    else (a[0] == b[0] && Subsequence(a[1..], b[1..])) || Subsequence(a, b[1..])
  }

  /** `s` enumerates the elements of `keys`, each exactly once, in some order. */
  ghost predicate Enumerates<T(!new)>(s: seq<T>, keys: set<T>)
  {
    && (forall k :: k in keys <==> k in s)
    && (forall i, j :: 0 <= i < j < |s| ==> s[i] != s[j])
  }

  /** The order in which a hash map happens to be visited. */
  method Visit<T(==,!new)>(keys: set<T>) returns (order: seq<T>)
    ensures Enumerates(order, keys)
  {
    order := [];
    var rest := keys;
    while rest != {}
      invariant rest <= keys
      invariant forall k :: k in keys <==> k in rest || k in order
      invariant forall k :: k in order ==> k !in rest
      invariant forall i, j :: 0 <= i < j < |order| ==> order[i] != order[j]
    {
      var k :| k in rest;
      rest := rest - {k};
      order := order + [k];
    }
  }

  lemma {:induction false} Enumeration<T(!new)>(keys: set<T>) returns (order: seq<T>)
    ensures Enumerates(order, keys)
    decreases |keys|
  {
    if keys == {} {
      order := [];
    } else {
      var k :| k in keys;
      var rest := Enumeration(keys - {k});
      order := [k] + rest;
      assert forall x :: x in order <==> x == k || x in rest;
    }
  }
}
