/** Generic sequence operations the grouper is built from: dropping the `null`
    results of a `map` (`filter(Boolean)`), and the distinct elements of a
    sequence in order of first appearance (the key order of an insertion-ordered
    `Map`). */
module Seqs {
  import opened Basics

  /** The values of the present entries, in order. */
  function Somes<T>(xs: seq<Option<T>>): seq<T> {
    if xs == [] then []
    else Somes(xs[..|xs| - 1]) + (if xs[|xs| - 1].Some? then [xs[|xs| - 1].value] else [])
  }

  /** The positions of the present entries: exactly those, in increasing order. */
  function SomePositions<T>(xs: seq<Option<T>>): (ps: seq<nat>)
    ensures forall j :: 0 <= j < |ps| ==> ps[j] < |xs| && xs[ps[j]].Some?
    ensures forall j, k :: 0 <= j < k < |ps| ==> ps[j] < ps[k]
    ensures forall p :: 0 <= p < |xs| && xs[p].Some? ==> p in ps
  {
    if xs == [] then []
    else SomePositions(xs[..|xs| - 1]) + (if xs[|xs| - 1].Some? then [|xs| - 1] else [])
  }

  /** The j-th kept value is the value at the j-th present position. */
  lemma {:induction false} SomesAtPositions<T>(xs: seq<Option<T>>)
    ensures |Somes(xs)| == |SomePositions(xs)|
    ensures forall j :: 0 <= j < |Somes(xs)| ==> Somes(xs)[j] == xs[SomePositions(xs)[j]].value
  {
    if xs != [] {
      SomesAtPositions(xs[..|xs| - 1]);
    }
  }

  /** The distinct elements of `xs`, each at its first appearance. */
  function Dedup(xs: seq<string>): (d: seq<string>)
    ensures forall x :: x in d <==> x in xs
    ensures forall i, j :: 0 <= i < j < |d| ==> d[i] != d[j]
  {
    if xs == [] then []
    else
      var d := Dedup(xs[..|xs| - 1]);
      var x := xs[|xs| - 1];
      assert forall y :: y in xs <==> y in xs[..|xs| - 1] || y == x;
      if x in d then d else d + [x]
  }

  /** The position of the first occurrence of `x`. */
  function FirstIndex(xs: seq<string>, x: string): (p: nat)
    requires x in xs
    ensures p < |xs| && xs[p] == x
    ensures forall q :: 0 <= q < p ==> xs[q] != x
  {
    var init := xs[..|xs| - 1];
    if x in init then FirstIndex(init, x) else |xs| - 1
  }

  /** `Dedup` lists the elements in the order of their first appearances. */
  lemma {:induction false} DedupFirstSeen(xs: seq<string>)
    ensures forall i, j :: 0 <= i < j < |Dedup(xs)| ==>
      FirstIndex(xs, Dedup(xs)[i]) < FirstIndex(xs, Dedup(xs)[j])
  {
    if xs != [] {
      var init := xs[..|xs| - 1];
      DedupFirstSeen(init);
      var d, d0 := Dedup(xs), Dedup(init);
      forall i, j | 0 <= i < j < |d|
        ensures FirstIndex(xs, d[i]) < FirstIndex(xs, d[j])
      {
        assert d[i] in init;
        if j < |d0| {
          assert d[i] == d0[i] && d[j] == d0[j];
        }
      }
    }
  }
}
