/**
 The list operations the exchange relies on: the first-occurrence search and
 the first-occurrence removal performed by a .NET `List<T>.Remove`, stated on
 immutable sequences.
 */
module Sequences {

  /** The index of the first occurrence of `x` in `xs`. */
  function FirstIndex<T(==)>(xs: seq<T>, x: T): (i: nat)
    requires x in xs
    ensures i < |xs| && xs[i] == x
    ensures x !in xs[..i]
  {
    if xs[0] == x then 0 else 1 + FirstIndex(xs[1..], x)
  }

  /**
   Removes the first occurrence of `x`, keeping every other element in its
   place; a sequence that does not contain `x` is returned as is.
   */
  function RemoveFirst<T(==)>(xs: seq<T>, x: T): (r: seq<T>)
    ensures x !in xs ==> r == xs
    ensures x in xs ==> |r| == |xs| - 1
  {
    if xs == [] then []
    else
      assert xs == [xs[0]] + xs[1..];
      if xs[0] == x then xs[1..]
      else [xs[0]] + RemoveFirst(xs[1..], x)
  }

  /**
   The removal is exactly the splice that cuts out the element at the first
   index of `x`: the prefix before it and the suffix after it, both in their
   original order.
   */
  lemma {:induction false} RemoveFirstIsSplice<T>(xs: seq<T>, x: T)
    requires x in xs
    ensures RemoveFirst(xs, x) == xs[..FirstIndex(xs, x)] + xs[FirstIndex(xs, x) + 1..]
  {
    if xs[0] != x {
      var tail := xs[1..];
      assert x in tail by { assert xs == [xs[0]] + tail; }
      RemoveFirstIsSplice(tail, x);
      var j := FirstIndex(tail, x);
      calc {
        RemoveFirst(xs, x);
        [xs[0]] + RemoveFirst(tail, x);
        [xs[0]] + (tail[..j] + tail[j + 1..]);
        ([xs[0]] + tail[..j]) + tail[j + 1..];
        { assert [xs[0]] + tail[..j] == xs[..j + 1]; assert tail[j + 1..] == xs[j + 2..]; }
        xs[..j + 1] + xs[j + 2..];
      }
    }
  }

  /**
   Removal takes away exactly one copy of `x` when there is one and keeps
   every other element with its multiplicity.
   */
  lemma {:induction false} RemoveFirstMultiset<T>(xs: seq<T>, x: T)
    ensures multiset(RemoveFirst(xs, x)) == multiset(xs) - multiset{x}
  {
    if xs != [] {
      assert xs == [xs[0]] + xs[1..];
      if xs[0] != x {
        RemoveFirstMultiset(xs[1..], x);
      }
    }
  }

  /** Appending `x` to a sequence free of `x` and then removing `x` gives the sequence back. */
  lemma {:induction false} RemoveFirstOfFreshAppend<T>(xs: seq<T>, x: T)
    requires x !in xs
    ensures RemoveFirst(xs + [x], x) == xs
  {
    if xs != [] {
      assert (xs + [x])[1..] == xs[1..] + [x];
      RemoveFirstOfFreshAppend(xs[1..], x);
    }
  }

  /**
   When `x` already occurs in `xs`, removal picks that earlier occurrence and
   leaves an appended element at the end.
   */
  lemma {:induction false} RemoveFirstBeforeAppend<T>(xs: seq<T>, x: T, y: T)
    requires x in xs
    ensures RemoveFirst(xs + [y], x) == RemoveFirst(xs, x) + [y]
  {
    if xs[0] != x {
      assert (xs + [y])[1..] == xs[1..] + [y];
      RemoveFirstBeforeAppend(xs[1..], x, y);
    }
  }
}
