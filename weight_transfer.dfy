/** The weight-transfer operator W_gamma (src/operators/weight_transfer.rs): per scale
    level a weight that moves toward a target by an exponential moving average, and a
    weighted sum of three filtered copies of the input (detail, structure, trend). */
module WeightTransferOp {
  import opened Types
  import opened Vectors

  // ---------------------------------------------------------------------------
  // Weight maps

  /** The order in which the model visits the levels of a weight map. */
  const AllLevels: seq<ScaleLevel> := [Micro, Meso, Macro]

  /** The position of a level in AllLevels. */
  function LevelIndex(l: ScaleLevel): (k: nat)
    ensures k < |AllLevels| && AllLevels[k] == l
  {
    match l
    case Micro => 0
    case Meso => 1
    case Macro => 2
  }

  /** The map built by inserting the pairs in order; a later pair for the same level
      overwrites an earlier one. */
  function PairsToMap(pairs: seq<(ScaleLevel, real)>): (m: map<ScaleLevel, real>)
    ensures forall l :: l in m <==> exists k :: 0 <= k < |pairs| && pairs[k].0 == l
    ensures pairs != [] ==> m[pairs[|pairs| - 1].0] == pairs[|pairs| - 1].1
  {
    if pairs == [] then map[]
    else
      var last := pairs[|pairs| - 1];
      var m := PairsToMap(pairs[..|pairs| - 1])[last.0 := last.1];
      assert forall k :: 0 <= k < |pairs| - 1 ==> pairs[..|pairs| - 1][k] == pairs[k];
      m
  }

  /** `target_weights.get(level).copied().unwrap_or(0.0)` */
  function WeightOf(w: map<ScaleLevel, real>, l: ScaleLevel): real
  {
    if l in w then w[l] else 0.0
  }

  /** `update_weights`: every level present moves to (1 - gamma) w + gamma target. */
  function Updated(w: map<ScaleLevel, real>, t: map<ScaleLevel, real>, gamma: real): (u: map<ScaleLevel, real>)
    ensures u.Keys == w.Keys
  {
    map l | l in w :: Blend(w[l], WeightOf(t, l), gamma)
  }

  /** One moving-average step from weight a toward target b. */
  function Blend(a: real, b: real, gamma: real): real
  {
    (1.0 - gamma) * a + gamma * b
  }

  /** The weights after the update loop has visited the first k levels of AllLevels. */
  function UpdatedBelow(w: map<ScaleLevel, real>, t: map<ScaleLevel, real>, gamma: real, k: nat): (u: map<ScaleLevel, real>)
    ensures u.Keys == w.Keys
  {
    map l | l in w :: if LevelIndex(l) < k then Blend(w[l], WeightOf(t, l), gamma) else w[l]
  }

  /** Visiting level k updates that one level, if present, and nothing else. */
  lemma UpdatedBelowStep(w: map<ScaleLevel, real>, t: map<ScaleLevel, real>, gamma: real, k: nat)
    requires k < |AllLevels|
    ensures var l := AllLevels[k];
      && (l in w ==> UpdatedBelow(w, t, gamma, k + 1)
                     == UpdatedBelow(w, t, gamma, k)[l := Blend(UpdatedBelow(w, t, gamma, k)[l], WeightOf(t, l), gamma)])
      && (l !in w ==> UpdatedBelow(w, t, gamma, k + 1) == UpdatedBelow(w, t, gamma, k))
  {
    var l := AllLevels[k];
    assert LevelIndex(l) == k;
    if l in w {
      var before, after := UpdatedBelow(w, t, gamma, k), UpdatedBelow(w, t, gamma, k + 1);
      assert before[l] == w[l];
      forall m | m in w
        ensures after[m] == before[l := Blend(w[l], WeightOf(t, l), gamma)][m]
      {
        if m == l {
        } else {
          assert LevelIndex(m) != k;
        }
      }
    } else {
      forall m | m in w
        ensures UpdatedBelow(w, t, gamma, k + 1)[m] == UpdatedBelow(w, t, gamma, k)[m]
      {
        assert m != l;
        assert LevelIndex(m) != k;
      }
    }
  }

  /** After all three levels the loop has produced Updated. */
  lemma UpdatedBelowAll(w: map<ScaleLevel, real>, t: map<ScaleLevel, real>, gamma: real)
    ensures UpdatedBelow(w, t, gamma, |AllLevels|) == Updated(w, t, gamma)
  {
  }

  /** The sum of the weights of a map. */
  function Total(w: map<ScaleLevel, real>): real
  {
    WeightOf(w, Micro) + WeightOf(w, Meso) + WeightOf(w, Macro)
  }

  /** With gamma in [0, 1] each weight ends between its old value and its target, and
      with gamma > 0 it moves whenever it differs from its target. */
  lemma UpdatedBetween(w: map<ScaleLevel, real>, t: map<ScaleLevel, real>, gamma: real, l: ScaleLevel)
    requires 0.0 <= gamma <= 1.0 && l in w
    ensures w[l] <= WeightOf(t, l) ==> w[l] <= Updated(w, t, gamma)[l] <= WeightOf(t, l)
    ensures WeightOf(t, l) <= w[l] ==> WeightOf(t, l) <= Updated(w, t, gamma)[l] <= w[l]
    ensures gamma > 0.0 && WeightOf(t, l) != w[l] ==> Updated(w, t, gamma)[l] != w[l]
  {
    MovesToward(w[l], WeightOf(t, l), gamma);
  }

  /** The moving-average step (1 - gamma) a + gamma b, for gamma in [0, 1]. */
  lemma MovesToward(a: real, b: real, gamma: real)
    requires 0.0 <= gamma <= 1.0
    ensures a <= b ==> a <= Blend(a, b, gamma) <= b
    ensures b <= a ==> b <= Blend(a, b, gamma) <= a
    ensures gamma > 0.0 && a != b ==> Blend(a, b, gamma) != a
  {
    var d := b - a;
    var p := gamma * d;
    assert (1.0 - gamma) * a + gamma * b == a + p;
    if d >= 0.0 {
      assert d - p == (1.0 - gamma) * d;
      NonNegProduct(1.0 - gamma, d);
      NonNegProduct(gamma, d);
      if gamma > 0.0 && d > 0.0 {
        PosProduct(gamma, d);
      }
      if d == 0.0 {
        assert p == gamma * 0.0;
      }
    } else {
      assert p - d == (1.0 - gamma) * (-d);
      NonNegProduct(1.0 - gamma, -d);
      NonNegProduct(gamma, -d);
      assert p == -(gamma * (-d));
      if gamma > 0.0 {
        PosProduct(gamma, -d);
      }
    }
  }

  /** Updating toward a target map with no extra levels mixes the two totals. */
  lemma UpdatedTotal(w: map<ScaleLevel, real>, t: map<ScaleLevel, real>, gamma: real)
    requires t.Keys <= w.Keys
    ensures Total(Updated(w, t, gamma)) == Blend(Total(w), Total(t), gamma)
  {
    var tu, tw, tt := Total(Updated(w, t, gamma)), Total(w), Total(t);
    var a1, a2, a3 := WeightOf(w, Micro), WeightOf(w, Meso), WeightOf(w, Macro);
    var b1, b2, b3 := WeightOf(t, Micro), WeightOf(t, Meso), WeightOf(t, Macro);
    assert tu == Blend(a1, b1, gamma) + Blend(a2, b2, gamma) + Blend(a3, b3, gamma) by {
      TotalOfUpdated(w, t, gamma);
    }
    assert tu == Blend(tw, tt, gamma) by {
      MixedTotals(tu, tw, tt, a1, a2, a3, b1, b2, b3, gamma);
    }
  }

  /** In particular unit totals stay at 1, so the weights remain a convex combination. */
  lemma UpdatedTotalOne(w: map<ScaleLevel, real>, t: map<ScaleLevel, real>, gamma: real)
    requires t.Keys <= w.Keys && Total(w) == 1.0 && Total(t) == 1.0
    ensures Total(Updated(w, t, gamma)) == 1.0
  {
    var tu := Total(Updated(w, t, gamma));
    var a1, a2, a3 := WeightOf(w, Micro), WeightOf(w, Meso), WeightOf(w, Macro);
    var b1, b2, b3 := WeightOf(t, Micro), WeightOf(t, Meso), WeightOf(t, Macro);
    assert tu == Blend(a1, b1, gamma) + Blend(a2, b2, gamma) + Blend(a3, b3, gamma) by {
      TotalOfUpdated(w, t, gamma);
    }
    assert tu == 1.0 by {
      MixedTotals(tu, 1.0, 1.0, a1, a2, a3, b1, b2, b3, gamma);
    }
  }

  /** The total of the updated map is the sum of the three blended weights. */
  lemma TotalOfUpdated(w: map<ScaleLevel, real>, t: map<ScaleLevel, real>, gamma: real)
    requires t.Keys <= w.Keys
    ensures Total(Updated(w, t, gamma))
         == Blend(WeightOf(w, Micro), WeightOf(t, Micro), gamma)
          + Blend(WeightOf(w, Meso), WeightOf(t, Meso), gamma)
          + Blend(WeightOf(w, Macro), WeightOf(t, Macro), gamma)
  {
    UpdatedWeightOf(w, t, gamma, Micro);
    UpdatedWeightOf(w, t, gamma, Meso);
    UpdatedWeightOf(w, t, gamma, Macro);
  }

  /** The totals relation, over the nine scalars alone. */
  lemma MixedTotals(tu: real, tw: real, tt: real, a1: real, a2: real, a3: real, b1: real, b2: real, b3: real, gamma: real)
    requires tu == Blend(a1, b1, gamma) + Blend(a2, b2, gamma) + Blend(a3, b3, gamma)
    requires tw == a1 + a2 + a3 && tt == b1 + b2 + b3
    ensures tu == Blend(tw, tt, gamma)
    ensures tw == 1.0 && tt == 1.0 ==> tu == 1.0
  {
    assert tu == Blend(a1 + a2 + a3, b1 + b2 + b3, gamma) by {
      BlendTotal(a1, a2, a3, b1, b2, b3, gamma);
    }
    assert tw == 1.0 && tt == 1.0 ==> tu == 1.0 by {
      BlendTotal(a1, a2, a3, b1, b2, b3, gamma);
    }
  }

  /** Blending is linear: the blend of the totals is the total of the blends. */
  lemma BlendTotal(a1: real, a2: real, a3: real, b1: real, b2: real, b3: real, gamma: real)
    ensures Blend(a1, b1, gamma) + Blend(a2, b2, gamma) + Blend(a3, b3, gamma)
         == Blend(a1 + a2 + a3, b1 + b2 + b3, gamma)
    ensures a1 + a2 + a3 == 1.0 && b1 + b2 + b3 == 1.0 ==>
      Blend(a1, b1, gamma) + Blend(a2, b2, gamma) + Blend(a3, b3, gamma) == 1.0
  {
  }

  lemma UpdatedWeightOf(w: map<ScaleLevel, real>, t: map<ScaleLevel, real>, gamma: real, l: ScaleLevel)
    requires t.Keys <= w.Keys
    ensures WeightOf(Updated(w, t, gamma), l) == Blend(WeightOf(w, l), WeightOf(t, l), gamma)
  {
    if l !in w {
      assert l !in t;
    }
  }

  /** While the target is the weight map itself (as after construction), updating
      changes nothing. */
  lemma UpdatedAtTarget(w: map<ScaleLevel, real>, gamma: real)
    ensures Updated(w, w, gamma) == w
  {
    var u := Updated(w, w, gamma);
    forall l | l in w
      ensures u[l] == w[l]
    {
      assert u[l] == Blend(w[l], w[l], gamma);
    }
  }

  /** The default level list gives the map Micro 0.2, Meso 0.5, Macro 0.3. */
  lemma DefaultWeights()
    ensures PairsToMap(DefaultWeightTransferParams().levels) == map[Micro := 0.2, Meso := 0.5, Macro := 0.3]
  {
    var pairs := DefaultWeightTransferParams().levels;
    assert pairs[..1][..0] == [];
    assert PairsToMap(pairs[..1]) == map[Micro := 0.2];
    assert pairs[..2][..1] == pairs[..1];
    assert PairsToMap(pairs[..2]) == map[Micro := 0.2, Meso := 0.5];
    assert pairs[..3][..2] == pairs[..2];
    assert pairs[..3] == pairs;
  }

  /** The default weights total 1. */
  lemma DefaultWeightsTotalOne()
    ensures Total(PairsToMap(DefaultWeightTransferParams().levels)) == 1.0
  {
    DefaultWeights();
  }

  // ---------------------------------------------------------------------------
  // Filters

  /** The clipped window of radius 1 around i: from `i.saturating_sub(1)` to
      `(i + 1).min(len - 1)`, both included. */
  function WindowStart(i: nat): nat
  {
    if i >= 1 then i - 1 else 0
  }

  function WindowEnd(i: nat, len: nat): nat
    requires i < len
  {
    if i + 1 <= len - 1 then i + 1 else len - 1
  }

  /** `lowpass_filter`: entry i is the mean of v over its window. */
  function Smoothed(v: Vector): (r: Vector)
    ensures |r| == |v|
  {
    seq(|v|, i requires 0 <= i < |v| => Mean(v[WindowStart(i)..WindowEnd(i, |v|) + 1]))
  }

  /** Extending a slice by one element adds that element to its sum. */
  lemma SliceSumStep(v: Vector, lo: nat, j: nat)
    requires lo <= j < |v|
    ensures Sum(v[lo..j + 1]) == Sum(v[lo..j]) + v[j]
  {
    assert v[lo..j + 1][..j - lo] == v[lo..j];
  }

  /** Entry i of the smoothed vector is the window sum over the window length. */
  lemma SmoothedAt(v: Vector, i: nat, sum: real, count: nat)
    requires i < |v|
    requires sum == Sum(v[WindowStart(i)..WindowEnd(i, |v|) + 1])
    requires count == WindowEnd(i, |v|) + 1 - WindowStart(i)
    ensures count > 0 && Smoothed(v)[i] == sum / count as real
  {
  }

  /** `highpass_filter` = v - lowpass. */
  function Highpass(v: Vector): (r: Vector)
    ensures |r| == |v|
  {
    Sub(v, Smoothed(v))
  }

  /** `bandpass_filter` = (lowpass + highpass) * 0.5. */
  function Bandpass(v: Vector): (r: Vector)
    ensures |r| == |v|
  {
    Scale(Add(Smoothed(v), Highpass(v)), 0.5)
  }

  /** The three projections of one input: detail (highpass), structure (bandpass) and
      trend (lowpass). */
  datatype Bands = Bands(detail: Vector, structure: Vector, trend: Vector)

  function BandsOf(v: Vector): (b: Bands)
    ensures |b.detail| == |v| && |b.structure| == |v| && |b.trend| == |v|
  {
    Bands(Highpass(v), Bandpass(v), Smoothed(v))
  }

  /** The band a level selects. */
  function Band(b: Bands, level: ScaleLevel): Vector
  {
    match level
    case Micro => b.detail
    case Meso => b.structure
    case Macro => b.trend
  }

  /** `project_to_scale`: Micro keeps the detail, Meso the structure, Macro the trend. */
  function Projection(level: ScaleLevel, v: Vector): (r: Vector)
    ensures |r| == |v|
  {
    Band(BandsOf(v), level)
  }

  /** The bandpass is exactly half the input: lowpass and highpass cancel. */
  lemma BandpassIsHalf(v: Vector)
    ensures Bandpass(v) == Scale(v, 0.5)
  {
    var b := Bandpass(v);
    forall i | 0 <= i < |v|
      ensures b[i] == 0.5 * v[i]
    {
      var low := Smoothed(v)[i];
      assert Highpass(v)[i] == v[i] - low;
      assert b[i] == 0.5 * (low + (v[i] - low));
    }
  }

  /** Each smoothed entry is a window mean, so it stays within the bounds of v; a
      constant vector is left unchanged. */
  lemma SmoothedWithinBounds(v: Vector, lo: real, hi: real)
    requires forall j :: 0 <= j < |v| ==> lo <= v[j] <= hi
    ensures forall i :: 0 <= i < |v| ==> lo <= Smoothed(v)[i] <= hi
  {
    forall i | 0 <= i < |v|
      ensures lo <= Smoothed(v)[i] <= hi
    {
      var window := v[WindowStart(i)..WindowEnd(i, |v|) + 1];
      MeanBounds(window, lo, hi);
    }
  }

  lemma SmoothedConstant(v: Vector, c: real)
    requires forall j :: 0 <= j < |v| ==> v[j] == c
    ensures Smoothed(v) == v
    ensures Highpass(v) == Zeros(|v|)
  {
    forall i | 0 <= i < |v|
      ensures Smoothed(v)[i] == v[i]
    {
      var window := v[WindowStart(i)..WindowEnd(i, |v|) + 1];
      MeanConstant(window, c);
    }
  }

  /** A one-entry vector is its own window. */
  lemma SmoothedSingleton(x: real)
    ensures Smoothed([x]) == [x]
  {
    assert [x][0..1] == [x];
    assert [x][..0] == [];
    assert Sum([x]) == x;
    assert WindowStart(0) == 0 && WindowEnd(0, 1) == 0;
    assert Smoothed([x])[0] == Mean([x]);
  }

  // ---------------------------------------------------------------------------
  // The weighted combination

  /** One accumulation step: add the projection p weighted by level l, or nothing if
      l has no weight. */
  function Step(acc: Vector, w: map<ScaleLevel, real>, l: ScaleLevel, p: Vector): (r: Vector)
    requires |p| == |acc|
    ensures |r| == |acc|
  {
    if l in w then Add(acc, Scale(p, w[l])) else acc
  }

  /** The weighted sum of the bands of the first k levels, n entries long, accumulated
      left to right. */
  function CombinedUpTo(w: map<ScaleLevel, real>, b: Bands, n: nat, k: nat): (r: Vector)
    requires |b.detail| == n && |b.structure| == n && |b.trend| == n
    requires k <= |AllLevels|
    ensures |r| == n
  {
    if k == 0 then Zeros(n)
    else Step(CombinedUpTo(w, b, n, k - 1), w, AllLevels[k - 1], Band(b, AllLevels[k - 1]))
  }

  /** The output of `transform` for the weights in force. */
  function Combined(w: map<ScaleLevel, real>, v: Vector): (r: Vector)
    ensures |r| == |v|
  {
    CombinedUpTo(w, BandsOf(v), |v|, 3)
  }

  /** Entry i of the output is the weighted sum of entry i of the three projections,
      a level absent from the map weighing 0. */
  lemma CombinedAt(w: map<ScaleLevel, real>, v: Vector, i: nat)
    requires i < |v|
    ensures Combined(w, v)[i]
         == WeightOf(w, Micro) * BandsOf(v).detail[i] + WeightOf(w, Meso) * BandsOf(v).structure[i]
          + WeightOf(w, Macro) * BandsOf(v).trend[i]
  {
    WeightedSumAt(w, BandsOf(v), |v|, i);
  }

  /** The same for any bands, n entries long. */
  lemma WeightedSumAt(w: map<ScaleLevel, real>, b: Bands, n: nat, i: nat)
    requires |b.detail| == n && |b.structure| == n && |b.trend| == n
    requires i < n
    ensures CombinedUpTo(w, b, n, 3)[i]
         == WeightOf(w, Micro) * b.detail[i] + WeightOf(w, Meso) * b.structure[i] + WeightOf(w, Macro) * b.trend[i]
  {
    var c2 := CombinedUpTo(w, b, n, 2);
    assert CombinedUpTo(w, b, n, 3) == Step(c2, w, Macro, b.trend) by {
      assert AllLevels[2] == Macro;
    }
    assert c2[i] == WeightOf(w, Micro) * b.detail[i] + WeightOf(w, Meso) * b.structure[i] by {
      TwoLevelsAt(w, b, n, i);
    }
    assert CombinedUpTo(w, b, n, 3)[i] == c2[i] + WeightOf(w, Macro) * b.trend[i] by {
      StepAt(c2, w, Macro, b.trend, i);
    }
  }

  /** Entry i after the Micro and Meso levels. */
  lemma TwoLevelsAt(w: map<ScaleLevel, real>, b: Bands, n: nat, i: nat)
    requires |b.detail| == n && |b.structure| == n && |b.trend| == n
    requires i < n
    ensures CombinedUpTo(w, b, n, 2)[i] == WeightOf(w, Micro) * b.detail[i] + WeightOf(w, Meso) * b.structure[i]
  {
    var c0, c1 := CombinedUpTo(w, b, n, 0), CombinedUpTo(w, b, n, 1);
    assert c1 == Step(c0, w, Micro, b.detail) by {
      assert AllLevels[0] == Micro;
    }
    assert CombinedUpTo(w, b, n, 2) == Step(c1, w, Meso, b.structure) by {
      assert AllLevels[1] == Meso;
    }
    assert c1[i] == WeightOf(w, Micro) * b.detail[i] by {
      assert c0[i] == 0.0;
      StepAt(c0, w, Micro, b.detail, i);
    }
    assert CombinedUpTo(w, b, n, 2)[i] == c1[i] + WeightOf(w, Meso) * b.structure[i] by {
      StepAt(c1, w, Meso, b.structure, i);
    }
  }

  /** Entry i after a step: the old entry plus the level's weight times the projection's
      entry, the weight of an absent level being 0. */
  lemma StepAt(acc: Vector, w: map<ScaleLevel, real>, l: ScaleLevel, p: Vector, i: nat)
    requires |p| == |acc| && i < |acc|
    ensures Step(acc, w, l, p)[i] == acc[i] + WeightOf(w, l) * p[i]
  {
    if l !in w {
      assert WeightOf(w, l) * p[i] == 0.0;
    }
  }

  /** The bands of v relate as the filters make them: detail = v - trend, and (by
      BandpassIsHalf) structure = v / 2. */
  lemma BandsAt(v: Vector, i: nat)
    requires i < |v|
    ensures BandsOf(v).detail[i] == v[i] - BandsOf(v).trend[i]
    ensures BandsOf(v).structure[i] == 0.5 * v[i]
    ensures BandsOf(v).trend[i] == Smoothed(v)[i]
  {
    BandpassIsHalf(v);
  }

  /** For bands related as BandsAt states, the output collapses to
      (w_micro + w_meso / 2) x + (w_macro - w_micro) trend: only two of the three
      filters matter. */
  lemma BandsClosedForm(w: map<ScaleLevel, real>, b: Bands, x: Vector, i: nat)
    requires |b.detail| == |x| && |b.structure| == |x| && |b.trend| == |x|
    requires i < |x|
    requires b.detail[i] == x[i] - b.trend[i] && b.structure[i] == 0.5 * x[i]
    ensures CombinedUpTo(w, b, |x|, 3)[i]
         == (WeightOf(w, Micro) + 0.5 * WeightOf(w, Meso)) * x[i]
          + (WeightOf(w, Macro) - WeightOf(w, Micro)) * b.trend[i]
  {
    WeightedSumAt(w, b, |x|, i);
    BandsRegrouped(w, b, x, i, CombinedUpTo(w, b, |x|, 3)[i]);
  }

  /** The weighted sum of bands related as the filters make them, regrouped over v and
      the trend. */
  lemma BandsRegrouped(w: map<ScaleLevel, real>, b: Bands, x: Vector, i: nat, total: real)
    requires |b.detail| == |x| && |b.structure| == |x| && |b.trend| == |x|
    requires i < |x|
    requires b.detail[i] == x[i] - b.trend[i] && b.structure[i] == 0.5 * x[i]
    requires total == WeightOf(w, Micro) * b.detail[i] + WeightOf(w, Meso) * b.structure[i] + WeightOf(w, Macro) * b.trend[i]
    ensures total
         == (WeightOf(w, Micro) + 0.5 * WeightOf(w, Meso)) * x[i]
          + (WeightOf(w, Macro) - WeightOf(w, Micro)) * b.trend[i]
  {
    Regroup(WeightOf(w, Micro), WeightOf(w, Meso), WeightOf(w, Macro), total, x[i], b.detail[i], b.structure[i], b.trend[i]);
  }

  lemma Regroup(w1: real, w2: real, w3: real, total: real, x: real, high: real, band: real, low: real)
    requires high == x - low && band == 0.5 * x
    requires total == w1 * high + w2 * band + w3 * low
    ensures total == (w1 + 0.5 * w2) * x + (w3 - w1) * low
  {
  }

  /** With the default weights, the output for [1, 2, 3, 4, 5] starts with
      0.2 * (-0.5) + 0.5 * 0.5 + 0.3 * 1.5 = 0.6, so it is not the zero vector. */
  lemma DefaultOutputNonZero()
    ensures Combined(PairsToMap(DefaultWeightTransferParams().levels), [1.0, 2.0, 3.0, 4.0, 5.0])[0] == 0.6
  {
    var w := PairsToMap(DefaultWeightTransferParams().levels);
    var v := [1.0, 2.0, 3.0, 4.0, 5.0];
    assert WeightOf(w, Micro) == 0.2 && WeightOf(w, Meso) == 0.5 && WeightOf(w, Macro) == 0.3 by {
      DefaultWeights();
    }
    assert Smoothed(v)[0] == 1.5 by {
      assert v[0..2] == [1.0, 2.0];
      assert [1.0, 2.0][..1] == [1.0] && [1.0][..0] == [];
    }
    assert BandsOf(v).detail[0] == -0.5 && BandsOf(v).structure[0] == 0.5 && BandsOf(v).trend[0] == 1.5 by {
      BandsAt(v, 0);
    }
    CombinedAt(w, v, 0);
  }

  // ---------------------------------------------------------------------------
  // The operator

  class WeightTransfer {
    const gamma: real
    var weights: map<ScaleLevel, real>
    var targetWeights: map<ScaleLevel, real>

    /** `WeightTransfer::new(gamma, weights)`: the target starts equal to the weights. */
    constructor(gamma: real, levels: seq<(ScaleLevel, real)>)
      ensures this.gamma == gamma
      ensures weights == PairsToMap(levels) && targetWeights == weights
    {
      this.gamma := gamma;
      var weightMap := BuildMap(levels);
      weights := weightMap;
      targetWeights := weightMap;
    }

    /** A copy with the same fields, as `clone()` makes. */
    constructor Clone(other: WeightTransfer)
      ensures gamma == other.gamma
      ensures weights == other.weights && targetWeights == other.targetWeights
    {
      gamma := other.gamma;
      weights := other.weights;
      targetWeights := other.targetWeights;
    }

    /** `update_weights` */
    method UpdateWeights()
      modifies this
      ensures weights == Updated(old(weights), targetWeights, gamma)
      ensures targetWeights == old(targetWeights)
    {
      ghost var w0 := weights;
      for k := 0 to |AllLevels|
        invariant targetWeights == old(targetWeights)
        invariant weights == UpdatedBelow(w0, targetWeights, gamma, k)
      {
        var level := AllLevels[k];
        UpdatedBelowStep(w0, targetWeights, gamma, k);
        if level in weights {
          var target := if level in targetWeights then targetWeights[level] else 0.0;
          assert target == WeightOf(targetWeights, level);
          weights := weights[level := Blend(weights[level], target, gamma)];
        }
      }
      UpdatedBelowAll(w0, targetWeights, gamma);
    }

    /** `transform`: update the weights, then sum the weighted projections. */
    method Transform(v: Vector) returns (r: Vector)
      modifies this
      ensures weights == Updated(old(weights), old(targetWeights), gamma)
      ensures targetWeights == old(targetWeights)
      ensures r == Combined(weights, v)
    {
      UpdateWeights();
      ghost var updated, targets := weights, targetWeights;
      var result := Zeros(|v|);
      ghost var bands := BandsOf(v);
      for k := 0 to |AllLevels|
        invariant weights == updated && targetWeights == targets
        invariant result == CombinedUpTo(weights, bands, |v|, k)
      {
        var level := AllLevels[k];
        if level in weights {
          var projection := ProjectToScale(v, level);
          result := Add(result, Scale(projection, weights[level]));
        }
      }
      r := result;
    }

    /** `set_target_weights`: the target map is rebuilt from the pairs; the current
        weights are untouched. */
    method SetTargetWeights(targets: seq<(ScaleLevel, real)>)
      modifies this
      ensures targetWeights == PairsToMap(targets)
      ensures weights == old(weights)
    {
      var m := BuildMap(targets);
      targetWeights := m;
    }

    /** The trait `apply`: transform a clone, leaving this operator as it was. */
    method Apply(v: Vector) returns (r: Result<Vector>)
      ensures r == Ok(Combined(Updated(weights, targetWeights, gamma), v))
    {
      var wt := new WeightTransfer.Clone(this);
      var out := wt.Transform(v);
      r := Ok(out);
    }
  }

  /** Clear and insert, pair by pair. */
  method BuildMap(pairs: seq<(ScaleLevel, real)>) returns (m: map<ScaleLevel, real>)
    ensures m == PairsToMap(pairs)
  {
    m := map[];
    for k := 0 to |pairs|
      invariant m == PairsToMap(pairs[..k])
    {
      assert pairs[..k + 1][..k] == pairs[..k];
      m := m[pairs[k].0 := pairs[k].1];
    }
    assert pairs[..|pairs|] == pairs;
  }

  /** `lowpass_filter`, with the nested summing loop. */
  method LowpassFilter(v: Vector) returns (r: Vector)
    ensures r == Smoothed(v)
  {
    var result := new real[|v|](_ => 0.0);
    for i := 0 to |v|
      invariant forall k :: 0 <= k < i ==> result[k] == Smoothed(v)[k]
    {
      var lo, hi := WindowStart(i), WindowEnd(i, |v|);
      var sum := 0.0;
      var count := 0;
      for j := lo to hi + 1
        invariant sum == Sum(v[lo..j]) && count == j - lo
        modifies {}
      {
        SliceSumStep(v, lo, j);
        sum := sum + v[j];
        count := count + 1;
      }
      SmoothedAt(v, i, sum, count);
      result[i] := sum / count as real;
    }
    r := result[..];
  }

  method HighpassFilter(v: Vector) returns (r: Vector)
    ensures r == Highpass(v)
  {
    var lowpass := LowpassFilter(v);
    r := Sub(v, lowpass);
  }

  method BandpassFilter(v: Vector) returns (r: Vector)
    ensures r == Bandpass(v)
  {
    var lowpass := LowpassFilter(v);
    var highpass := HighpassFilter(v);
    r := Scale(Add(lowpass, highpass), 0.5);
  }

  /** `project_to_scale` */
  method ProjectToScale(v: Vector, level: ScaleLevel) returns (r: Vector)
    ensures r == Projection(level, v)
  {
    match level {
      case Micro => r := HighpassFilter(v);
      case Meso => r := BandpassFilter(v);
      case Macro => r := LowpassFilter(v);
    }
  }
}
