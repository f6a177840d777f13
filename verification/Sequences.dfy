/** Laws of concatenation that the verifier should not search for. */
module Sequences {

  lemma Associative<T>(a: seq<T>, b: seq<T>, c: seq<T>)
    ensures a + (b + c) == (a + b) + c
  {
  }

  lemma RightUnit<T>(a: seq<T>)
    ensures a + [] == a
  {
  }

  /** The last step of a loop that consumes a sequence from the left. */
  lemma Whole<T>(a: seq<T>)
    ensures a[..|a|] == a
  {
  }

  lemma Prefix<T>(a: seq<T>, n: nat)
    requires n < |a|
    ensures a[..n + 1] == a[..n] + [a[n]]
    ensures a[..n + 1][..n] == a[..n]
  {
  }
}
