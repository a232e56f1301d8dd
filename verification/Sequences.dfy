/** Sequence facts shared by the other modules: distinctness, removal, reversal and insertion. */
module Sequences {

  datatype Option<+T> = None | Some(value: T)

  ghost predicate Distinct<T>(xs: seq<T>) {
    forall i, j :: 0 <= i < j < |xs| ==> xs[i] != xs[j]
  }

  function Reverse<T>(xs: seq<T>): (r: seq<T>)
    ensures |r| == |xs|
  {
    if xs == [] then [] else Reverse(xs[1..]) + [xs[0]]
  }

  /** Everything but the first occurrence of `x`. */
  function Without<T(==)>(xs: seq<T>, x: T): seq<T> {
    if xs == [] then []
    else if xs[0] == x then xs[1..]
    else [xs[0]] + Without(xs[1..], x)
  }

  function InsertAt<T>(xs: seq<T>, pos: nat, x: T): seq<T>
    requires pos <= |xs|
  {
    xs[..pos] + [x] + xs[pos..]
  }

  /** In a distinct sequence removal takes out exactly one element, at its only index. */
  lemma {:induction false} WithoutDistinct<T>(xs: seq<T>, x: T)
    requires Distinct(xs) && x in xs
    ensures Distinct(Without(xs, x))
    ensures forall y :: y in Without(xs, x) <==> y in xs && y != x
    ensures |Without(xs, x)| == |xs| - 1
  {
    if xs[0] != x {
      WithoutDistinct(xs[1..], x);
      var rest := Without(xs[1..], x);
      assert xs[0] !in rest;
      assert forall y :: y in xs <==> y == xs[0] || y in xs[1..];
    } else {
      assert forall y :: y in xs <==> y == xs[0] || y in xs[1..];
    }
  }

  lemma InsertDistinct<T>(xs: seq<T>, pos: nat, x: T)
    requires pos <= |xs| && Distinct(xs) && x !in xs
    ensures Distinct(InsertAt(xs, pos, x))
    ensures forall y :: y in InsertAt(xs, pos, x) <==> y in xs || y == x
  {
    var ys := InsertAt(xs, pos, x);
    forall y ensures y in ys <==> y in xs || y == x {
      assert xs == xs[..pos] + xs[pos..];
    }
  }
}
