/** The shape side of numpy's `moveaxis`, for the case the library's
    doc-comments use: both axis lists are full permutations of the axes
    0..k-1 of a rank-k array. Axis `source[i]` of the input becomes axis
    `destination[i]` of the output. */
module Axes {

  /** No axis is listed twice. */
  predicate Distinct(p: seq<nat>) {
    forall i, j :: 0 <= i < j < |p| ==> p[i] != p[j]
  }

  /** `p` lists each of the axes 0..k-1 exactly once. */
  predicate Permutation(p: seq<nat>, k: nat) {
    && |p| == k
    && (forall i :: 0 <= i < |p| ==> p[i] < k)
    && Distinct(p)
  }

  /** The axes 0..k-1 as a set. */
  function Range(k: nat): (s: set<nat>)
    ensures forall j: nat :: j in s <==> j < k
  {
    if k == 0 then {} else Range(k - 1) + {k - 1}
  }

  lemma {:induction false} RangeSize(k: nat)
    ensures |Range(k)| == k
  {
    if k > 0 {
      RangeSize(k - 1);
    }
  }

  /** A list without repetitions drawn from `s` is no longer than `s`. */
  lemma {:induction false} DistinctBound(p: seq<nat>, s: set<nat>)
    requires Distinct(p)
    requires forall i :: 0 <= i < |p| ==> p[i] in s
    ensures |p| <= |s|
    decreases |p|
  {
    if |p| > 0 {
      var rest := p[1..];
      forall i | 0 <= i < |rest|
        ensures rest[i] in s - {p[0]}
      {
        assert rest[i] == p[i + 1] && p[i + 1] != p[0];
      }
      DistinctBound(rest, s - {p[0]});
    }
  }

  /** Pigeonhole: a permutation of 0..k-1 names every axis below k. */
  lemma PermutationCovers(p: seq<nat>, k: nat, j: nat)
    requires Permutation(p, k) && j < k
    ensures j in p
  {
    if j !in p {
      RangeSize(k);
      assert |Range(k) - {j}| == k - 1;
      DistinctBound(p, Range(k) - {j});
    }
  }

  /** The position at which `v` appears in `p`. */
  function IndexOf(p: seq<nat>, v: nat): (i: nat)
    requires v in p
    ensures i < |p| && p[i] == v
  {
    if p[0] == v then 0 else 1 + IndexOf(p[1..], v)
  }

  lemma IndexOfDistinct(p: seq<nat>, i: nat)
    requires Distinct(p) && i < |p|
    ensures IndexOf(p, p[i]) == i
  {
  }

  /** `np.moveaxis(a, source, destination).shape` for full permutations:
      output axis `j` is input axis `source[i]` where `destination[i] == j`. */
  function MoveAxes(shape: seq<nat>, source: seq<nat>, destination: seq<nat>): (r: seq<nat>)
    requires Permutation(source, |shape|) && Permutation(destination, |shape|)
    ensures |r| == |shape|
    ensures forall i :: 0 <= i < |shape| ==> r[destination[i]] == shape[source[i]]
  {
    var k := |shape|;
    var r := seq(k, j requires 0 <= j < k =>
      PermutationCovers(destination, k, j);
      shape[source[IndexOf(destination, j)]]);
    assert forall i :: 0 <= i < k ==> r[destination[i]] == shape[source[i]] by {
      forall i | 0 <= i < k
        ensures r[destination[i]] == shape[source[i]]
      {
        IndexOfDistinct(destination, i);
      }
    }
    r
  }

  /** The position that input axis `a` takes in the output. */
  function MovedAxis(k: nat, source: seq<nat>, destination: seq<nat>, a: nat): (j: nat)
    requires Permutation(source, k) && Permutation(destination, k) && a < k
    ensures j < k
    ensures forall shape: seq<nat> {:trigger MoveAxes(shape, source, destination)} ::
      |shape| == k ==> MoveAxes(shape, source, destination)[j] == shape[a]
  {
    PermutationCovers(source, k, a);
    destination[IndexOf(source, a)]
  }

  /** The output shape is determined by the axis lists: any shape that puts
      `shape[source[i]]` at `destination[i]` for every `i` is the result. */
  lemma MoveAxesUnique(shape: seq<nat>, source: seq<nat>, destination: seq<nat>, r: seq<nat>)
    requires Permutation(source, |shape|) && Permutation(destination, |shape|)
    requires |r| == |shape|
    requires forall i :: 0 <= i < |shape| ==> r[destination[i]] == shape[source[i]]
    ensures r == MoveAxes(shape, source, destination)
  {
    var m := MoveAxes(shape, source, destination);
    forall j | 0 <= j < |r|
      ensures r[j] == m[j]
    {
      PermutationCovers(destination, |shape|, j);
      var i := IndexOf(destination, j);
      assert r[destination[i]] == shape[source[i]];
    }
  }

  /** Moving the axes back undoes the move. */
  lemma MoveAxesInverse(shape: seq<nat>, source: seq<nat>, destination: seq<nat>)
    requires Permutation(source, |shape|) && Permutation(destination, |shape|)
    ensures MoveAxes(MoveAxes(shape, source, destination), destination, source) == shape
  {
    var m := MoveAxes(shape, source, destination);
    MoveAxesUnique(m, destination, source, shape);
  }

  /** Moving every axis to where it already is changes nothing. */
  lemma MoveAxesIdentity(shape: seq<nat>, axes: seq<nat>)
    requires Permutation(axes, |shape|)
    ensures MoveAxes(shape, axes, axes) == shape
  {
    MoveAxesUnique(shape, axes, axes, shape);
  }

  /** The example of `hermite_functions`: `(6, 2, 5, 4)` with
      `([0, 1, 2, 3], [1, 3, 2, 0])` becomes `(4, 6, 5, 2)`. */
  lemma MoveAxesExample()
    ensures Permutation([0, 1, 2, 3], 4) && Permutation([1, 3, 2, 0], 4)
    ensures MoveAxes([6, 2, 5, 4], [0, 1, 2, 3], [1, 3, 2, 0]) == [4, 6, 5, 2]
  {
    MoveAxesUnique([6, 2, 5, 4], [0, 1, 2, 3], [1, 3, 2, 0], [4, 6, 5, 2]);
  }

  /** The example of the legacy `Hermite_functions`: `(11, 2, 3, 4)` with
      `([0, 1, 2, 3], [3, 0, 1, 2])` becomes `(2, 3, 4, 11)`. */
  lemma MoveAxesLegacyExample()
    ensures Permutation([0, 1, 2, 3], 4) && Permutation([3, 0, 1, 2], 4)
    ensures MoveAxes([11, 2, 3, 4], [0, 1, 2, 3], [3, 0, 1, 2]) == [2, 3, 4, 11]
  {
    MoveAxesUnique([11, 2, 3, 4], [0, 1, 2, 3], [3, 0, 1, 2], [2, 3, 4, 11]);
  }
}
