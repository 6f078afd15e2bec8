/** The path-invariance operator P_Gamma (src/operators/pfadinvarianz.rs): the average of
    a vector over a hand-picked subset of coordinate permutations. The subset is not
    closed under composition, so the average is not a projection: applying it twice
    differs from applying it once (IdempotenceFails). */
module Pfad {
  import opened Vectors

  // ---------------------------------------------------------------------------
  // The permutation subset

  function Identity(d: nat): (p: seq<nat>)
    ensures |p| == d && forall i :: 0 <= i < d ==> p[i] == i
  {
    seq(d, i requires 0 <= i < d => i)
  }

  /** The cyclic shift i |-> (i + s) % d. */
  function Shift(d: nat, s: nat): (p: seq<nat>)
    requires d > 0
    ensures |p| == d && forall i :: 0 <= i < d ==> p[i] == (i + s) % d
  {
    seq(d, i requires 0 <= i < d => (i + s) % d)
  }

  /** `(0..d).rev()` */
  function Reversal(d: nat): (p: seq<nat>)
    ensures |p| == d && forall i :: 0 <= i < d ==> p[i] == d - 1 - i
  {
    seq(d, i requires 0 <= i < d => d - 1 - i)
  }

  /** The identity with entries k and k + 1 exchanged. */
  function AdjacentSwap(d: nat, k: nat): (p: seq<nat>)
    requires k + 1 < d
    ensures |p| == d && p[k] == k + 1 && p[k + 1] == k
    ensures forall i :: 0 <= i < d && i != k && i != k + 1 ==> p[i] == i
  {
    Identity(d)[k := k + 1][k + 1 := k]
  }

  /** The identity with its first three entries rotated to 1, 2, 0. */
  function Cycle3(d: nat): (p: seq<nat>)
    requires d >= 3
    ensures |p| == d && p[0] == 1 && p[1] == 2 && p[2] == 0
    ensures forall i :: 3 <= i < d ==> p[i] == i
  {
    Identity(d)[0 := 1][1 := 2][2 := 0]
  }

  function Shifts(d: nat): (ps: seq<seq<nat>>)
    requires d > 0
    ensures |ps| == d - 1 && forall s :: 0 <= s < d - 1 ==> ps[s] == Shift(d, s + 1)
  {
    seq(d - 1, s requires 0 <= s < d - 1 => Shift(d, s + 1))
  }

  function Swaps(d: nat): (ps: seq<seq<nat>>)
    requires d > 0
    ensures |ps| == d - 1 && forall k :: 0 <= k < d - 1 ==> ps[k] == AdjacentSwap(d, k)
  {
    seq(d - 1, k requires 0 <= k < d - 1 => AdjacentSwap(d, k))
  }

  /** `generate_permutations(d)`: nothing for d = 0; otherwise the identity, the d - 1
      non-trivial shifts, the reversal, the d - 1 adjacent swaps and, from d = 3 on, the
      3-cycle. */
  function PermutationSubset(d: nat): (ps: seq<seq<nat>>)
    ensures d == 0 ==> ps == []
    ensures 0 < d < 3 ==> |ps| == 2 * d
    ensures d >= 3 ==> |ps| == 2 * d + 1
  {
    if d == 0 then []
    else [Identity(d)] + Shifts(d) + [Reversal(d)] + Swaps(d) + (if d >= 3 then [Cycle3(d)] else [])
  }

  /** p is a bijection of {0, ..., d - 1}, given as the list of its values. */
  predicate IsPermutation(p: seq<nat>, d: nat)
  {
    && |p| == d
    && (forall i :: 0 <= i < d ==> p[i] < d)
    && (forall i, j :: 0 <= i < j < d ==> p[i] != p[j])
  }

  /** Every member of the subset is a bijection on 0..d-1: injective, and onto. */
  lemma SubsetArePermutations(d: nat)
    ensures forall p :: p in PermutationSubset(d) ==> IsPermutation(p, d)
    ensures forall p, k :: p in PermutationSubset(d) && 0 <= k < d ==> k in p
  {
    forall p | p in PermutationSubset(d)
      ensures IsPermutation(p, d) && forall k :: 0 <= k < d ==> k in p
    {
      var ps := PermutationSubset(d);
      var n :| 0 <= n < |ps| && ps[n] == p;
      MemberIsPermutation(d, n);
    }
  }

  /** The n-th generated list is a bijection on 0..d-1. */
  lemma MemberIsPermutation(d: nat, n: nat)
    requires n < |PermutationSubset(d)|
    ensures IsPermutation(PermutationSubset(d)[n], d)
    ensures forall k :: 0 <= k < d ==> k in PermutationSubset(d)[n]
  {
    var ps := PermutationSubset(d);
    var head := [Identity(d)] + Shifts(d);
    var middle := head + [Reversal(d)];
    var body := middle + Swaps(d);
    assert |head| == d && |middle| == d + 1 && |body| == 2 * d;
    assert ps == body + (if d >= 3 then [Cycle3(d)] else []);
    if n == 0 {
      assert ps[n] == Identity(d) by {
        assert ps[n] == body[n] == middle[n] == head[n];
      }
      IdentityIsOnto(d);
    } else if n < d {
      assert ps[n] == Shift(d, n) by {
        assert ps[n] == body[n] == middle[n] == head[n] == Shifts(d)[n - 1];
      }
      ShiftIsPermutation(d, n);
    } else if n == d {
      assert ps[n] == Reversal(d) by {
        assert ps[n] == body[n] == middle[n];
      }
      ReversalIsOnto(d);
    } else if n < 2 * d {
      assert ps[n] == AdjacentSwap(d, n - d - 1) by {
        assert ps[n] == body[n] == Swaps(d)[n - d - 1];
      }
      SwapIsOnto(d, n - d - 1);
    } else {
      assert ps[n] == Cycle3(d);
      Cycle3IsOnto(d);
    }
  }

  lemma IdentityIsOnto(d: nat)
    ensures IsPermutation(Identity(d), d)
    ensures forall k :: 0 <= k < d ==> k in Identity(d)
  {
    var p := Identity(d);
    forall k | 0 <= k < d
      ensures k in p
    {
      assert p[k] == k;
    }
  }

  lemma ReversalIsOnto(d: nat)
    ensures IsPermutation(Reversal(d), d)
    ensures forall k :: 0 <= k < d ==> k in Reversal(d)
  {
    var p := Reversal(d);
    forall k | 0 <= k < d
      ensures k in p
    {
      assert p[d - 1 - k] == k;
    }
  }

  lemma ModBelowTwice(x: nat, d: nat)
    requires 0 < d && x < 2 * d
    ensures x % d == if x < d then x else x - d
  {
    if x < d {
      assert x == 0 * d + x;
    } else {
      assert x == 1 * d + (x - d);
    }
  }

  lemma ShiftIsPermutation(d: nat, s: nat)
    requires 0 < s < d
    ensures IsPermutation(Shift(d, s), d)
    ensures forall k :: 0 <= k < d ==> k in Shift(d, s)
  {
    var p := Shift(d, s);
    forall i | 0 <= i < d
      ensures p[i] == if i + s < d then i + s else i + s - d
    {
      ModBelowTwice(i + s, d);
    }
    forall k | 0 <= k < d
      ensures k in p
    {
      if k >= s {
        assert p[k - s] == k;
      } else {
        assert p[k + d - s] == k;
      }
    }
  }

  lemma SwapIsOnto(d: nat, k: nat)
    requires k + 1 < d
    ensures IsPermutation(AdjacentSwap(d, k), d)
    ensures forall j :: 0 <= j < d ==> j in AdjacentSwap(d, k)
  {
    var p := AdjacentSwap(d, k);
    forall j | 0 <= j < d
      ensures j in p
    {
      if j == k {
        assert p[k + 1] == j;
      } else if j == k + 1 {
        assert p[k] == j;
      } else {
        assert p[j] == j;
      }
    }
  }

  lemma Cycle3IsOnto(d: nat)
    requires d >= 3
    ensures IsPermutation(Cycle3(d), d)
    ensures forall j :: 0 <= j < d ==> j in Cycle3(d)
  {
    var p := Cycle3(d);
    forall j | 0 <= j < d
      ensures j in p
    {
      if j == 0 {
        assert p[2] == j;
      } else if j == 1 {
        assert p[0] == j;
      } else if j == 2 {
        assert p[1] == j;
      } else {
        assert p[j] == j;
      }
    }
  }

  // ---------------------------------------------------------------------------
  // Applying permutations

  /** Entry i of `apply_permutation(v, perm)`: v[perm[i]] when both indices are in range,
      otherwise 0. */
  function PermutedAt(v: Vector, perm: seq<nat>, i: nat): real
  {
    if i < |perm| && perm[i] < |v| then v[perm[i]] else 0.0
  }

  function PermutedVector(v: Vector, perm: seq<nat>): (r: Vector)
    ensures |r| == |v|
    ensures forall i :: 0 <= i < |v| ==> r[i] == PermutedAt(v, perm, i)
  {
    seq(|v|, i requires 0 <= i < |v| => PermutedAt(v, perm, i))
  }

  /** Sum of entry i over the first n permuted copies, in list order. */
  function ComponentSum(perms: seq<seq<nat>>, v: Vector, i: nat, n: nat): real
    requires n <= |perms|
  {
    if n == 0 then 0.0 else ComponentSum(perms, v, i, n - 1) + PermutedAt(v, perms[n - 1], i)
  }

  /** The running sum after the first n permuted copies. */
  function PartialSum(perms: seq<seq<nat>>, v: Vector, n: nat): (s: Vector)
    requires n <= |perms|
    ensures |s| == |v|
  {
    seq(|v|, i requires 0 <= i < |v| => ComponentSum(perms, v, i, n))
  }

  /** `apply`: v itself for an empty subset, else the mean of the permuted copies. */
  function Projected(perms: seq<seq<nat>>, v: Vector): (r: Vector)
    ensures |r| == |v|
    ensures perms == [] ==> r == v
  {
    if perms == [] then v else DivBy(PartialSum(perms, v, |perms|), |perms| as real)
  }

  /** Each entry of the projection lies between the bounds of the input: the average of
      permuted copies does not leave the range of v. */
  lemma ProjectedWithinBounds(perms: seq<seq<nat>>, v: Vector, lo: real, hi: real)
    requires forall k :: 0 <= k < |perms| ==> IsPermutation(perms[k], |v|)
    requires forall j :: 0 <= j < |v| ==> lo <= v[j] <= hi
    ensures forall i :: 0 <= i < |v| ==> lo <= Projected(perms, v)[i] <= hi
  {
    if perms != [] {
      forall i | 0 <= i < |v|
        ensures lo <= Projected(perms, v)[i] <= hi
      {
        ComponentSumBounds(perms, v, i, |perms|, lo, hi);
        QuotientBounds(ComponentSum(perms, v, i, |perms|), |perms| as real, lo, hi);
      }
    }
  }

  lemma QuotientBounds(s: real, n: real, lo: real, hi: real)
    requires n > 0.0 && n * lo <= s <= n * hi
    ensures lo <= s / n <= hi
  {
    assert lo == (n * lo) / n && hi == (n * hi) / n;
  }

  lemma {:induction false} ComponentSumBounds(perms: seq<seq<nat>>, v: Vector, i: nat, n: nat, lo: real, hi: real)
    requires n <= |perms| && i < |v|
    requires forall k :: 0 <= k < |perms| ==> IsPermutation(perms[k], |v|)
    requires forall j :: 0 <= j < |v| ==> lo <= v[j] <= hi
    ensures n as real * lo <= ComponentSum(perms, v, i, n) <= n as real * hi
  {
    if n > 0 {
      ComponentSumBounds(perms, v, i, n - 1, lo, hi);
      assert IsPermutation(perms[n - 1], |v|);
    }
  }

  /** The operator for dimension d preserves the range of every input of length d. */
  lemma SubsetProjectionWithinBounds(d: nat, v: Vector, lo: real, hi: real)
    requires |v| == d
    requires forall j :: 0 <= j < d ==> lo <= v[j] <= hi
    ensures forall i :: 0 <= i < d ==> lo <= Projected(PermutationSubset(d), v)[i] <= hi
  {
    var ps := PermutationSubset(d);
    SubsetArePermutations(d);
    assert forall k :: 0 <= k < |ps| ==> ps[k] in ps;
    ProjectedWithinBounds(ps, v, lo, hi);
  }

  // ---------------------------------------------------------------------------
  // The default operator (d = 5) and its failure to be idempotent

  const DefaultDimension: nat := 5

  /** The eleven permutations of the default operator, written out. */
  const DefaultSubset: seq<seq<nat>> := [
    [0, 1, 2, 3, 4], [1, 2, 3, 4, 0], [2, 3, 4, 0, 1], [3, 4, 0, 1, 2], [4, 0, 1, 2, 3],
    [4, 3, 2, 1, 0],
    [1, 0, 2, 3, 4], [0, 2, 1, 3, 4], [0, 1, 3, 2, 4], [0, 1, 2, 4, 3],
    [1, 2, 0, 3, 4]]

  lemma DefaultSubsetListed()
    ensures PermutationSubset(DefaultDimension) == DefaultSubset
  {
    var d := DefaultDimension;
    assert Identity(d) == DefaultSubset[0];
    assert Shift(d, 1) == DefaultSubset[1] && Shift(d, 2) == DefaultSubset[2];
    assert Shift(d, 3) == DefaultSubset[3] && Shift(d, 4) == DefaultSubset[4];
    assert Shifts(d) == DefaultSubset[1..5];
    assert Reversal(d) == DefaultSubset[5];
    assert AdjacentSwap(d, 0) == DefaultSubset[6] && AdjacentSwap(d, 1) == DefaultSubset[7];
    assert AdjacentSwap(d, 2) == DefaultSubset[8] && AdjacentSwap(d, 3) == DefaultSubset[9];
    assert Swaps(d) == DefaultSubset[6..10];
    assert Cycle3(d) == DefaultSubset[10];
  }

  /** For d = 5 the operator is a fixed linear map with denominators 11. */
  lemma DefaultClosedForm(v: Vector)
    requires |v| == 5
    ensures Projected(DefaultSubset, v) == [
      (4.0 * v[0] + 3.0 * v[1] + v[2] + v[3] + 2.0 * v[4]) / 11.0,
      (2.0 * v[0] + 3.0 * v[1] + 3.0 * v[2] + 2.0 * v[3] + v[4]) / 11.0,
      (2.0 * v[0] + 2.0 * v[1] + 4.0 * v[2] + 2.0 * v[3] + v[4]) / 11.0,
      (v[0] + 2.0 * v[1] + 2.0 * v[2] + 4.0 * v[3] + 2.0 * v[4]) / 11.0,
      (2.0 * v[0] + v[1] + v[2] + 2.0 * v[3] + 5.0 * v[4]) / 11.0]
  {
    var ps := DefaultSubset;
    var s := PartialSum(ps, v, 11);
    var p := Projected(ps, v);
    assert p == DivBy(s, 11.0);
    var e := [
      (4.0 * v[0] + 3.0 * v[1] + v[2] + v[3] + 2.0 * v[4]) / 11.0,
      (2.0 * v[0] + 3.0 * v[1] + 3.0 * v[2] + 2.0 * v[3] + v[4]) / 11.0,
      (2.0 * v[0] + 2.0 * v[1] + 4.0 * v[2] + 2.0 * v[3] + v[4]) / 11.0,
      (v[0] + 2.0 * v[1] + 2.0 * v[2] + 4.0 * v[3] + 2.0 * v[4]) / 11.0,
      (2.0 * v[0] + v[1] + v[2] + 2.0 * v[3] + 5.0 * v[4]) / 11.0];
    assert p[0] == e[0] by {
      DefaultEntrySum0(ps, v);
      assert s[0] == ComponentSum(ps, v, 0, 11);
    }
    assert p[1] == e[1] by {
      DefaultEntrySum1(ps, v);
      assert s[1] == ComponentSum(ps, v, 1, 11);
    }
    assert p[2] == e[2] by {
      DefaultEntrySum2(ps, v);
      assert s[2] == ComponentSum(ps, v, 2, 11);
    }
    assert p[3] == e[3] by {
      DefaultEntrySum3(ps, v);
      assert s[3] == ComponentSum(ps, v, 3, 11);
    }
    assert p[4] == e[4] by {
      DefaultEntrySum4(ps, v);
      assert s[4] == ComponentSum(ps, v, 4, 11);
    }
    assert p == e;
  }

  /** Adding the n-th permuted copy, which maps entry i to component j, adds v[j]. */
  lemma ComponentSumStep(perms: seq<seq<nat>>, v: Vector, i: nat, n: nat, j: nat)
    requires n < |perms| && i < |perms[n]| && perms[n][i] == j && j < |v|
    ensures ComponentSum(perms, v, i, n + 1) == ComponentSum(perms, v, i, n) + v[j]
  {
  }

  /** Sum of v over the first n components listed in col. */
  function ColumnSum(v: Vector, col: seq<nat>, n: nat): real
    requires n <= |col| && forall k :: 0 <= k < |col| ==> col[k] < |v|
  {
    if n == 0 then 0.0 else ColumnSum(v, col, n - 1) + v[col[n - 1]]
  }

  /** When col lists where each permutation sends entry i, the running sum of entry i is
      the sum of v over col. */
  lemma {:induction false} ComponentSumByColumn(perms: seq<seq<nat>>, v: Vector, i: nat, col: seq<nat>, n: nat)
    requires n <= |col| <= |perms|
    requires forall k :: 0 <= k < |col| ==> i < |perms[k]| && perms[k][i] == col[k] && col[k] < |v|
    ensures ComponentSum(perms, v, i, n) == ColumnSum(v, col, n)
  {
    if n > 0 {
      ComponentSumByColumn(perms, v, i, col, n - 1);
      ComponentSumStep(perms, v, i, n - 1, col[n - 1]);
    }
  }

  /** Entry 0 sums v[0], v[1], v[2], v[3], v[4], v[4], v[1], v[0], v[0], v[0], v[1]. */
  lemma DefaultEntrySum0(perms: seq<seq<nat>>, v: Vector)
    requires perms == DefaultSubset && |v| == 5
    ensures ComponentSum(perms, v, 0, 11) == 4.0 * v[0] + 3.0 * v[1] + v[2] + v[3] + 2.0 * v[4]
  {
    var col: seq<nat> := [0, 1, 2, 3, 4, 4, 1, 0, 0, 0, 1];
    ComponentSumByColumn(perms, v, 0, col, 11);
    DefaultColumnSum0(v, col);
  }

  lemma DefaultColumnSum0(v: Vector, col: seq<nat>)
    requires |v| == 5 && col == [0, 1, 2, 3, 4, 4, 1, 0, 0, 0, 1]
    ensures ColumnSum(v, col, 11) == 4.0 * v[0] + 3.0 * v[1] + v[2] + v[3] + 2.0 * v[4]
  {
    assert ColumnSum(v, col, 1) == v[0];
    assert ColumnSum(v, col, 2) == v[0] + v[1];
    assert ColumnSum(v, col, 3) == v[0] + v[1] + v[2];
    assert ColumnSum(v, col, 4) == v[0] + v[1] + v[2] + v[3];
    assert ColumnSum(v, col, 5) == v[0] + v[1] + v[2] + v[3] + v[4];
    assert ColumnSum(v, col, 6) == v[0] + v[1] + v[2] + v[3] + 2.0 * v[4];
    assert ColumnSum(v, col, 7) == v[0] + 2.0 * v[1] + v[2] + v[3] + 2.0 * v[4];
    assert ColumnSum(v, col, 8) == 2.0 * v[0] + 2.0 * v[1] + v[2] + v[3] + 2.0 * v[4];
    assert ColumnSum(v, col, 9) == 3.0 * v[0] + 2.0 * v[1] + v[2] + v[3] + 2.0 * v[4];
    assert ColumnSum(v, col, 10) == 4.0 * v[0] + 2.0 * v[1] + v[2] + v[3] + 2.0 * v[4];
  }

  /** Entry 1 sums v[1], v[2], v[3], v[4], v[0], v[3], v[0], v[2], v[1], v[1], v[2]. */
  lemma DefaultEntrySum1(perms: seq<seq<nat>>, v: Vector)
    requires perms == DefaultSubset && |v| == 5
    ensures ComponentSum(perms, v, 1, 11) == 2.0 * v[0] + 3.0 * v[1] + 3.0 * v[2] + 2.0 * v[3] + v[4]
  {
    var col: seq<nat> := [1, 2, 3, 4, 0, 3, 0, 2, 1, 1, 2];
    ComponentSumByColumn(perms, v, 1, col, 11);
    DefaultColumnSum1(v, col);
  }

  lemma DefaultColumnSum1(v: Vector, col: seq<nat>)
    requires |v| == 5 && col == [1, 2, 3, 4, 0, 3, 0, 2, 1, 1, 2]
    ensures ColumnSum(v, col, 11) == 2.0 * v[0] + 3.0 * v[1] + 3.0 * v[2] + 2.0 * v[3] + v[4]
  {
    assert ColumnSum(v, col, 1) == v[1];
    assert ColumnSum(v, col, 2) == v[1] + v[2];
    assert ColumnSum(v, col, 3) == v[1] + v[2] + v[3];
    assert ColumnSum(v, col, 4) == v[1] + v[2] + v[3] + v[4];
    assert ColumnSum(v, col, 5) == v[0] + v[1] + v[2] + v[3] + v[4];
    assert ColumnSum(v, col, 6) == v[0] + v[1] + v[2] + 2.0 * v[3] + v[4];
    assert ColumnSum(v, col, 7) == 2.0 * v[0] + v[1] + v[2] + 2.0 * v[3] + v[4];
    assert ColumnSum(v, col, 8) == 2.0 * v[0] + v[1] + 2.0 * v[2] + 2.0 * v[3] + v[4];
    assert ColumnSum(v, col, 9) == 2.0 * v[0] + 2.0 * v[1] + 2.0 * v[2] + 2.0 * v[3] + v[4];
    assert ColumnSum(v, col, 10) == 2.0 * v[0] + 3.0 * v[1] + 2.0 * v[2] + 2.0 * v[3] + v[4];
  }

  /** Entry 2 sums v[2], v[3], v[4], v[0], v[1], v[2], v[2], v[1], v[3], v[2], v[0]. */
  lemma DefaultEntrySum2(perms: seq<seq<nat>>, v: Vector)
    requires perms == DefaultSubset && |v| == 5
    ensures ComponentSum(perms, v, 2, 11) == 2.0 * v[0] + 2.0 * v[1] + 4.0 * v[2] + 2.0 * v[3] + v[4]
  {
    var col: seq<nat> := [2, 3, 4, 0, 1, 2, 2, 1, 3, 2, 0];
    ComponentSumByColumn(perms, v, 2, col, 11);
    DefaultColumnSum2(v, col);
  }

  lemma DefaultColumnSum2(v: Vector, col: seq<nat>)
    requires |v| == 5 && col == [2, 3, 4, 0, 1, 2, 2, 1, 3, 2, 0]
    ensures ColumnSum(v, col, 11) == 2.0 * v[0] + 2.0 * v[1] + 4.0 * v[2] + 2.0 * v[3] + v[4]
  {
    assert ColumnSum(v, col, 1) == v[2];
    assert ColumnSum(v, col, 2) == v[2] + v[3];
    assert ColumnSum(v, col, 3) == v[2] + v[3] + v[4];
    assert ColumnSum(v, col, 4) == v[0] + v[2] + v[3] + v[4];
    assert ColumnSum(v, col, 5) == v[0] + v[1] + v[2] + v[3] + v[4];
    assert ColumnSum(v, col, 6) == v[0] + v[1] + 2.0 * v[2] + v[3] + v[4];
    assert ColumnSum(v, col, 7) == v[0] + v[1] + 3.0 * v[2] + v[3] + v[4];
    assert ColumnSum(v, col, 8) == v[0] + 2.0 * v[1] + 3.0 * v[2] + v[3] + v[4];
    assert ColumnSum(v, col, 9) == v[0] + 2.0 * v[1] + 3.0 * v[2] + 2.0 * v[3] + v[4];
    assert ColumnSum(v, col, 10) == v[0] + 2.0 * v[1] + 4.0 * v[2] + 2.0 * v[3] + v[4];
  }

  /** Entry 3 sums v[3], v[4], v[0], v[1], v[2], v[1], v[3], v[3], v[2], v[4], v[3]. */
  lemma DefaultEntrySum3(perms: seq<seq<nat>>, v: Vector)
    requires perms == DefaultSubset && |v| == 5
    ensures ComponentSum(perms, v, 3, 11) == v[0] + 2.0 * v[1] + 2.0 * v[2] + 4.0 * v[3] + 2.0 * v[4]
  {
    var col: seq<nat> := [3, 4, 0, 1, 2, 1, 3, 3, 2, 4, 3];
    ComponentSumByColumn(perms, v, 3, col, 11);
    DefaultColumnSum3(v, col);
  }

  lemma DefaultColumnSum3(v: Vector, col: seq<nat>)
    requires |v| == 5 && col == [3, 4, 0, 1, 2, 1, 3, 3, 2, 4, 3]
    ensures ColumnSum(v, col, 11) == v[0] + 2.0 * v[1] + 2.0 * v[2] + 4.0 * v[3] + 2.0 * v[4]
  {
    assert ColumnSum(v, col, 1) == v[3];
    assert ColumnSum(v, col, 2) == v[3] + v[4];
    assert ColumnSum(v, col, 3) == v[0] + v[3] + v[4];
    assert ColumnSum(v, col, 4) == v[0] + v[1] + v[3] + v[4];
    assert ColumnSum(v, col, 5) == v[0] + v[1] + v[2] + v[3] + v[4];
    assert ColumnSum(v, col, 6) == v[0] + 2.0 * v[1] + v[2] + v[3] + v[4];
    assert ColumnSum(v, col, 7) == v[0] + 2.0 * v[1] + v[2] + 2.0 * v[3] + v[4];
    assert ColumnSum(v, col, 8) == v[0] + 2.0 * v[1] + v[2] + 3.0 * v[3] + v[4];
    assert ColumnSum(v, col, 9) == v[0] + 2.0 * v[1] + 2.0 * v[2] + 3.0 * v[3] + v[4];
    assert ColumnSum(v, col, 10) == v[0] + 2.0 * v[1] + 2.0 * v[2] + 3.0 * v[3] + 2.0 * v[4];
  }

  /** Entry 4 sums v[4], v[0], v[1], v[2], v[3], v[0], v[4], v[4], v[4], v[3], v[4]. */
  lemma DefaultEntrySum4(perms: seq<seq<nat>>, v: Vector)
    requires perms == DefaultSubset && |v| == 5
    ensures ComponentSum(perms, v, 4, 11) == 2.0 * v[0] + v[1] + v[2] + 2.0 * v[3] + 5.0 * v[4]
  {
    var col: seq<nat> := [4, 0, 1, 2, 3, 0, 4, 4, 4, 3, 4];
    ComponentSumByColumn(perms, v, 4, col, 11);
    DefaultColumnSum4(v, col);
  }

  lemma DefaultColumnSum4(v: Vector, col: seq<nat>)
    requires |v| == 5 && col == [4, 0, 1, 2, 3, 0, 4, 4, 4, 3, 4]
    ensures ColumnSum(v, col, 11) == 2.0 * v[0] + v[1] + v[2] + 2.0 * v[3] + 5.0 * v[4]
  {
    assert ColumnSum(v, col, 1) == v[4];
    assert ColumnSum(v, col, 2) == v[0] + v[4];
    assert ColumnSum(v, col, 3) == v[0] + v[1] + v[4];
    assert ColumnSum(v, col, 4) == v[0] + v[1] + v[2] + v[4];
    assert ColumnSum(v, col, 5) == v[0] + v[1] + v[2] + v[3] + v[4];
    assert ColumnSum(v, col, 6) == 2.0 * v[0] + v[1] + v[2] + v[3] + v[4];
    assert ColumnSum(v, col, 7) == 2.0 * v[0] + v[1] + v[2] + v[3] + 2.0 * v[4];
    assert ColumnSum(v, col, 8) == 2.0 * v[0] + v[1] + v[2] + v[3] + 3.0 * v[4];
    assert ColumnSum(v, col, 9) == 2.0 * v[0] + v[1] + v[2] + v[3] + 4.0 * v[4];
    assert ColumnSum(v, col, 10) == 2.0 * v[0] + v[1] + v[2] + 2.0 * v[3] + 4.0 * v[4];
  }

  /** The idempotence P(P(v)) == P(v) claimed for the operator fails: for v = [1, 2, 3, 4, 5]
      the first entry is 27/11 after one application and 346/121 after two. */
  lemma IdempotenceFails()
    ensures var v := [1.0, 2.0, 3.0, 4.0, 5.0];
            var once := Projected(PermutationSubset(DefaultDimension), v);
            var twice := Projected(PermutationSubset(DefaultDimension), once);
            once[0] == 27.0 / 11.0 && twice[0] == 346.0 / 121.0 && twice != once
  {
    DefaultSubsetListed();
    var v := [1.0, 2.0, 3.0, 4.0, 5.0];
    DefaultClosedForm(v);
    var once := Projected(DefaultSubset, v);
    assert once == [27.0 / 11.0, 30.0 / 11.0, 31.0 / 11.0, 37.0 / 11.0, 40.0 / 11.0];
    DefaultClosedForm(once);
    assert Projected(DefaultSubset, once)[0] == 346.0 / 121.0;
  }

  // ---------------------------------------------------------------------------
  // The idempotent alternative: averaging over all d cyclic shifts

  /** The d cyclic shifts, the identity (shift 0) included. Unlike the generated subset
      this set is closed under composition (ShiftsCompose), and the average over it is a
      projection (CyclicProjectionIdempotent). */
  function CyclicShifts(d: nat): (ps: seq<seq<nat>>)
    ensures |ps| == d && forall s :: 0 <= s < d ==> ps[s] == Shift(d, s)
  {
    seq(d, s requires 0 <= s < d => Shift(d, s))
  }

  /** Shifting by b and then by a is shifting by (a + b) mod d. */
  lemma ShiftsCompose(d: nat, a: nat, b: nat)
    requires a < d && b < d
    ensures forall i :: 0 <= i < d ==> Shift(d, a)[Shift(d, b)[i]] == Shift(d, (a + b) % d)[i]
  {
    forall i | 0 <= i < d
      ensures Shift(d, a)[Shift(d, b)[i]] == Shift(d, (a + b) % d)[i]
    {
      ModBelowTwice(i + b, d);
      ModBelowTwice((i + b) % d + a, d);
      ModBelowTwice(a + b, d);
      ModBelowTwice(i + (a + b) % d, d);
    }
  }

  /** v read cyclically from position i. */
  function Rotation(v: Vector, i: nat): (r: Vector)
    requires i <= |v|
    ensures |r| == |v|
  {
    v[i..] + v[..i]
  }

  lemma RotationAt(v: Vector, i: nat, s: nat)
    requires i < |v| && s < |v|
    ensures Rotation(v, i)[s] == v[(i + s) % |v|]
  {
    ModBelowTwice(i + s, |v|);
  }

  lemma {:induction false} SumConcat(a: seq<real>, b: seq<real>)
    ensures Sum(a + b) == Sum(a) + Sum(b)
  {
    if b == [] {
      assert a + b == a;
    } else {
      SumConcat(a, b[..|b| - 1]);
      assert (a + b)[..|a + b| - 1] == a + b[..|b| - 1];
    }
  }

  /** Entry i of the running sum over the first n shifts reads v cyclically from i. */
  lemma {:induction false} CyclicComponentSum(v: Vector, i: nat, n: nat)
    requires i < |v| && n <= |v|
    ensures ComponentSum(CyclicShifts(|v|), v, i, n) == Sum(Rotation(v, i)[..n])
  {
    if n > 0 {
      CyclicComponentSum(v, i, n - 1);
      RotationAt(v, i, n - 1);
      var r := Rotation(v, i);
      assert r[..n][..n - 1] == r[..n - 1];
    }
  }

  /** Over all d shifts, every entry sums the whole of v. */
  lemma CyclicEntrySum(v: Vector, i: nat)
    requires i < |v|
    ensures ComponentSum(CyclicShifts(|v|), v, i, |v|) == Sum(v)
  {
    CyclicComponentSum(v, i, |v|);
    assert Rotation(v, i)[..|v|] == Rotation(v, i);
    SumConcat(v[i..], v[..i]);
    SumConcat(v[..i], v[i..]);
    assert v[..i] + v[i..] == v;
  }

  /** The cyclic average replaces every entry by the mean of v. */
  lemma CyclicProjectionIsMean(v: Vector)
    ensures forall i :: 0 <= i < |v| ==> Projected(CyclicShifts(|v|), v)[i] == Mean(v)
  {
    forall i | 0 <= i < |v|
      ensures Projected(CyclicShifts(|v|), v)[i] == Mean(v)
    {
      CyclicEntrySum(v, i);
    }
  }

  /** The idempotence the generated subset lacks holds for the cyclic group: applying
      the average twice is applying it once. */
  lemma CyclicProjectionIdempotent(v: Vector)
    ensures var p := Projected(CyclicShifts(|v|), v);
            Projected(CyclicShifts(|v|), p) == p
  {
    var p := Projected(CyclicShifts(|v|), v);
    if |v| > 0 {
      CyclicProjectionIsMean(v);
      CyclicProjectionIsMean(p);
      MeanConstant(p, Mean(v));
    }
  }

  // ---------------------------------------------------------------------------
  // Implementation

  datatype Pfadinvarianz = Pfadinvarianz(permutations: seq<seq<nat>>)
  {
    /** `Pfadinvarianz::new(dimension)` */
    static method New(dimension: nat) returns (p: Pfadinvarianz)
      ensures p.permutations == PermutationSubset(dimension)
      ensures forall q :: q in p.permutations ==> IsPermutation(q, dimension)
    {
      var perms := GeneratePermutations(dimension);
      p := Pfadinvarianz(perms);
      SubsetArePermutations(dimension);
    }

    /** The trait `apply`: never fails. */
    method Apply(v: Vector) returns (r: Vector)
      ensures r == Projected(permutations, v)
    {
      if |permutations| == 0 {
        return v;
      }
      var sum := Zeros(|v|);
      for k := 0 to |permutations|
        invariant sum == PartialSum(permutations, v, k)
      {
        var permuted := ApplyPermutation(v, permutations[k]);
        sum := Add(sum, permuted);
      }
      r := DivBy(sum, |permutations| as real);
    }
  }

  /** `apply_permutation`: fills a zero vector entry by entry. */
  method ApplyPermutation(v: Vector, perm: seq<nat>) returns (r: Vector)
    ensures r == PermutedVector(v, perm)
  {
    var result := new real[|v|](_ => 0.0);
    for i := 0 to |perm|
      invariant forall j :: 0 <= j < |v| ==> result[j] == if j < i then PermutedAt(v, perm, j) else 0.0
    {
      if perm[i] < |v| && i < result.Length {
        result[i] := v[perm[i]];
      }
    }
    r := result[..];
  }

  /** `generate_permutations`, building the lists with loops. */
  method GeneratePermutations(d: nat) returns (perms: seq<seq<nat>>)
    ensures perms == PermutationSubset(d)
  {
    if d == 0 {
      return [];
    }
    perms := [Identity(d)];
    for shift := 1 to d
      invariant perms == [Identity(d)] + Shifts(d)[..shift - 1]
    {
      var perm: seq<nat> := [];
      for i := 0 to d
        invariant perm == Shift(d, shift)[..i]
      {
        perm := perm + [(i + shift) % d];
      }
      assert perm == Shifts(d)[shift - 1];
      assert Shifts(d)[..shift] == Shifts(d)[..shift - 1] + [perm];
      perms := perms + [perm];
    }
    assert perms == [Identity(d)] + Shifts(d) by {
      assert Shifts(d)[..d - 1] == Shifts(d);
    }
    perms := perms + [Reversal(d)];
    ghost var prefix := perms;
    for i := 0 to d - 1
      invariant perms == prefix + Swaps(d)[..i]
    {
      var perm := Identity(d);
      perm := perm[i := perm[i + 1]][i + 1 := perm[i]];
      assert Swaps(d)[..i + 1] == Swaps(d)[..i] + [perm] by {
        assert perm == AdjacentSwap(d, i);
      }
      perms := perms + [perm];
    }
    assert perms == [Identity(d)] + Shifts(d) + [Reversal(d)] + Swaps(d) by {
      assert Swaps(d)[..d - 1] == Swaps(d);
    }
    if d >= 3 {
      var perm := Identity(d);
      perm := perm[0 := 1][1 := 2][2 := 0];
      perms := perms + [perm];
    }
  }
}
