/** Sequences without repeats, and the sizes of sets. */
module Distinctness {
  ghost predicate Distinct(ks: seq<nat>) {
    forall i, j :: 0 <= i < j < |ks| ==> ks[i] != ks[j]
  }

  function Elements(ks: seq<nat>): (r: set<nat>)
    ensures forall k :: k in r <==> k in ks
    ensures |r| <= |ks|
  {
    if ks == [] then {} else {ks[0]} + Elements(ks[1..])
  }

  lemma {:induction false} DistinctSize(ks: seq<nat>)
    requires Distinct(ks)
    ensures |Elements(ks)| == |ks|
  {
    if ks != [] {
      DistinctSize(ks[1..]);
      assert ks[0] !in ks[1..];
    }
  }

  lemma SubsetSize(a: set<nat>, b: set<nat>)
    requires a <= b
    ensures |a| <= |b|
  {
    assert b == a + (b - a);
  }
}
