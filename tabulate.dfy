/**
 * Sequences built element by element, in the order a counting loop appends
 * them. An element is described only when it is indexed, which keeps the
 * specifications that use these cheap to reason about.
 */
module Tabulation {
  /** [f(base), f(base + 1), ..., f(base + k - 1)] */
  function Tabulate<T>(f: nat -> T, base: nat, k: nat): (s: seq<T>)
    ensures |s| == k
    ensures forall i :: 0 <= i < k ==> s[i] == f(base + i)
  {
    seq(k, i requires 0 <= i < k => f(base + i))
  }

  /** One more loop iteration appends the next element. */
  lemma TabulateSnoc<T>(f: nat -> T, base: nat, k: nat)
    ensures Tabulate(f, base, k + 1) == Tabulate(f, base, k) + [f(base + k)]
  {
    assert Tabulate(f, base, k + 1)[..k] == Tabulate(f, base, k);
  }

  /** [f(xs[0], 0), ..., f(xs[k - 1], k - 1)] */
  function MapIndexed<A, B>(f: (A, nat) -> B, xs: seq<A>, k: nat): (s: seq<B>)
    requires k <= |xs|
    ensures |s| == k
    ensures forall i :: 0 <= i < k ==> s[i] == f(xs[i], i)
  {
    seq(k, i requires 0 <= i < k => f(xs[i], i))
  }

  lemma MapIndexedSnoc<A, B>(f: (A, nat) -> B, xs: seq<A>, k: nat)
    requires k < |xs|
    ensures MapIndexed(f, xs, k + 1) == MapIndexed(f, xs, k) + [f(xs[k], k)]
  {
    assert MapIndexed(f, xs, k + 1)[..k] == MapIndexed(f, xs, k);
  }
}
