/** Definitions the modules share. */
module Basics {

  datatype Option<+T> = None | Some(value: T)

  // ---------------------------------------------------------------- sequences

  predicate Distinct(xs: seq<int>) {
    forall i, j :: 0 <= i < j < |xs| ==> xs[i] != xs[j]
  }

  /** Removes the first occurrence. */
  function Erase(xs: seq<int>, x: int): seq<int> {
    if xs == [] then [] else if xs[0] == x then xs[1..] else [xs[0]] + Erase(xs[1..], x)
  }

  function Concat<T>(chunks: seq<seq<T>>): seq<T> {
    if chunks == [] then [] else Concat(chunks[..|chunks| - 1]) + chunks[|chunks| - 1]
  }

  lemma DistinctCons(x: int, xs: seq<int>)
    requires Distinct(xs) && x !in xs
    ensures Distinct([x] + xs)
  {
  }

  lemma DistinctSnoc(xs: seq<int>, x: int)
    requires Distinct(xs) && x !in xs
    ensures Distinct(xs + [x])
  {
  }

  lemma {:induction false} EraseMembers(xs: seq<int>, c: int)
    requires Distinct(xs)
    ensures Distinct(Erase(xs, c))
    ensures forall x :: x in Erase(xs, c) <==> x in xs && x != c
  {
    if xs != [] && xs[0] != c {
      EraseMembers(xs[1..], c);
      DistinctCons(xs[0], Erase(xs[1..], c));
      assert forall x :: x in xs <==> x == xs[0] || x in xs[1..];
    } else if xs != [] {
      assert forall x :: x in xs <==> x == xs[0] || x in xs[1..];
    }
  }

  // ---------------------------------------------------------------- numbers

  /** `static_cast<int>` of a value in 64-bit arithmetic. */
  function ToInt32(n: int): (r: int)
    ensures -0x8000_0000 <= r < 0x8000_0000
    ensures -0x8000_0000 <= n < 0x8000_0000 ==> r == n
  {
    var low := n % 0x1_0000_0000;
    if low < 0x8000_0000 then low else low - 0x1_0000_0000
  }
}
