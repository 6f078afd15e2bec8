/** The sweep operator S_tau (src/operators/sweep.rs): a clock `t`, a threshold that
    follows a schedule in `t`, and a sigmoid gate on the mean of the input that scales the
    whole vector. */
module SweepOp {
  import opened Platform
  import opened Types
  import opened Vectors

  // ---------------------------------------------------------------------------
  // Specification

  /** `x % y` on f64 for y > 0: the remainder of truncating division, with the sign of x. */
  function FloatRem(x: real, y: real): (r: real)
    requires y > 0.0
    ensures x >= 0.0 ==> 0.0 <= r < y
    ensures x < 0.0 ==> -y < r <= 0.0
  {
    if x >= 0.0 then NonNegRem(x, y) else -NonNegRem(-x, y)
  }

  function NonNegRem(x: real, y: real): (r: real)
    requires x >= 0.0 && y > 0.0
    ensures 0.0 <= r < y
  {
    var q := (x / y).Floor as real;
    FloorBounds(x, y, q);
    x - q * y
  }

  /** For q = floor(x / y): 0 <= x - q * y < y. */
  lemma FloorBounds(x: real, y: real, q: real)
    requires y > 0.0 && q <= x / y < q + 1.0
    ensures 0.0 <= x - q * y
    ensures x - q * y < y
  {
    var z := x / y;
    var d := z - q;
    assert 0.0 <= d * y < y by {
      NonNegProduct(d, y);
      MulRightStrict(d, 1.0, y);
    }
    assert x - q * y == d * y by {
      DivTimes(x, y);
    }
  }

  lemma DivTimes(x: real, y: real)
    requires y != 0.0
    ensures (x / y) * y == x
  {
  }

  /** `compute_threshold(t)`: cosine and linear schedules over a period, and the base
      threshold for any other schedule name. */
  function Threshold(schedule: string, tau0: real, period: real, deltaTau: real, t: real, lib: Primitives): real
    requires period > 0.0
  {
    if schedule == "cosine" then
      var phase := Pi * t / period;
      tau0 + 0.5 * (1.0 + lib.cos(phase)) * deltaTau
    else if schedule == "linear" then
      var cycle := FloatRem(t, period) / period;
      tau0 + cycle * deltaTau
    else
      tau0
  }

  /** `sigmoid_gate(x, tau)` = 1 / (1 + exp(-(x - tau) / beta)). */
  function Gate(x: real, tau: real, beta: real, lib: Primitives): (g: real)
    requires beta != 0.0
    ensures 0.0 < g < 1.0
  {
    var z := (x - tau) / beta;
    var e := lib.exp(-z);
    ReciprocalBelowOne(e);
    1.0 / (1.0 + e)
  }

  lemma ReciprocalBelowOne(e: real)
    requires e > 0.0
    ensures 0.0 < 1.0 / (1.0 + e) < 1.0
  {
  }

  // ---------------------------------------------------------------------------
  // Properties of the schedule and the gate

  /** A schedule name other than "cosine" and "linear" silently falls back to tau0. */
  lemma UnknownScheduleIsBase(schedule: string, tau0: real, period: real, deltaTau: real, t: real, lib: Primitives)
    requires period > 0.0 && schedule != "cosine" && schedule != "linear"
    ensures Threshold(schedule, tau0, period, deltaTau, t, lib) == tau0
  {
  }

  /** From t >= 0 the linear schedule stays in [tau0, tau0 + deltaTau). */
  lemma LinearRange(tau0: real, period: real, deltaTau: real, t: real, lib: Primitives)
    requires period > 0.0 && deltaTau > 0.0 && t >= 0.0
    ensures tau0 <= Threshold("linear", tau0, period, deltaTau, t, lib) < tau0 + deltaTau
  {
    var cycle := FloatRem(t, period) / period;
    QuotientBelowOne(FloatRem(t, period), period);
    NonNegProduct(cycle, deltaTau);
    MulRightStrict(cycle, 1.0, deltaTau);
  }

  /** The cosine schedule stays in [tau0, tau0 + deltaTau] and starts at the top. */
  lemma CosineRange(tau0: real, period: real, deltaTau: real, t: real, lib: Primitives)
    requires lib.Valid() && period > 0.0 && deltaTau >= 0.0
    ensures tau0 <= Threshold("cosine", tau0, period, deltaTau, t, lib) <= tau0 + deltaTau
    ensures Threshold("cosine", tau0, period, deltaTau, 0.0, lib) == tau0 + deltaTau
  {
    var h := 0.5 * (1.0 + lib.cos(Pi * t / period));
    assert 0.0 <= h * deltaTau <= deltaTau by {
      NonNegProduct(h, deltaTau);
      MulRight(h, 1.0, deltaTau);
    }
    assert Threshold("cosine", tau0, period, deltaTau, t, lib) == tau0 + h * deltaTau;
    assert lib.cos(Pi * 0.0 / period) == 1.0 by {
      assert Pi * 0.0 / period == 0.0;
    }
    assert Threshold("cosine", tau0, period, deltaTau, 0.0, lib) == tau0 + 0.5 * (1.0 + 1.0) * deltaTau;
  }

  /** Halfway through the period the cosine threshold lies strictly below its start, so
      50 steps of the default sweep change the threshold. */
  lemma CosineMovesAfterHalfPeriod(tau0: real, deltaTau: real, lib: Primitives)
    requires lib.Valid() && deltaTau > 0.0
    ensures Threshold("cosine", tau0, 100.0, deltaTau, 50.0, lib)
         < Threshold("cosine", tau0, 100.0, deltaTau, 0.0, lib)
  {
    CosineRange(tau0, 100.0, deltaTau, 0.0, lib);
    var phase := Pi * 50.0 / 100.0;
    assert 0.0 < phase < 2.0 * Pi;
    var h := 0.5 * (1.0 + lib.cos(phase));
    assert h < 1.0;
    MulRightStrict(h, 1.0, deltaTau);
  }

  /** Scaling by a gate in [0, 1] never increases the magnitude of a component. */
  lemma GatedBound(v: Vector, g: real)
    requires 0.0 <= g <= 1.0
    ensures forall i :: 0 <= i < |v| ==> Abs(Scale(v, g)[i]) <= Abs(v[i])
  {
    forall i | 0 <= i < |v|
      ensures Abs(Scale(v, g)[i]) <= Abs(v[i])
    {
      ScaledMagnitude(v[i], g);
    }
  }

  lemma ScaledMagnitude(x: real, g: real)
    requires 0.0 <= g <= 1.0
    ensures Abs(g * x) <= Abs(x)
  {
    if x >= 0.0 {
      assert 0.0 <= g * x by {
        NonNegProduct(g, x);
      }
      assert g * x <= x by {
        MulRight(g, 1.0, x);
        assert 1.0 * x == x;
      }
    } else {
      var y := -x;
      assert 0.0 <= g * y by {
        NonNegProduct(g, y);
      }
      assert g * y <= y by {
        MulRight(g, 1.0, y);
        assert 1.0 * y == y;
      }
      assert g * x == -(g * y);
      assert Abs(x) == y;
    }
  }

  /** The sum of a scaled vector is the scaled sum. */
  lemma {:induction false} SumScale(v: Vector, g: real)
    ensures Sum(Scale(v, g)) == g * Sum(v)
  {
    if v != [] {
      var n := |v| - 1;
      assert forall k :: 0 <= k < n ==> Scale(v, g)[..n][k] == Scale(v[..n], g)[k];
      assert Scale(v, g)[..n] == Scale(v[..n], g);
      SumScale(v[..n], g);
      assert g * Sum(v) == g * Sum(v[..n]) + g * v[n];
    }
  }

  /** With a gate strictly inside (0, 1), a vector with positive sum keeps a positive
      sum and loses some of it. */
  lemma GatedSum(v: Vector, g: real)
    requires 0.0 < g < 1.0 && Sum(v) > 0.0
    ensures 0.0 < Sum(Scale(v, g)) < Sum(v)
  {
    SumScale(v, g);
    PosProduct(g, Sum(v));
    MulRightStrict(g, 1.0, Sum(v));
  }

  // ---------------------------------------------------------------------------
  // The operator

  class Sweep {
    const tau0: real
    const beta: real
    const schedule: string
    const period: real
    const deltaTau: real
    var t: nat

    /** The gate width is non-zero and the period and variation are the fixed values
        `new` sets. */
    predicate Valid()
    {
      beta != 0.0 && period == 100.0 && deltaTau == 0.2
    }

    /** `Sweep::new`: the clock starts at 0, with period 100 and variation 0.2. */
    constructor(tau0: real, beta: real, schedule: string)
      requires beta != 0.0
      ensures Valid()
      ensures this.tau0 == tau0 && this.beta == beta && this.schedule == schedule
      ensures t == 0
    {
      this.tau0 := tau0;
      this.beta := beta;
      this.schedule := schedule;
      t := 0;
      period := 100.0;
      deltaTau := 0.2;
    }

    /** `Sweep::default()` */
    constructor Default()
      ensures Valid()
      ensures tau0 == 0.5 && beta == 0.1 && schedule == "cosine" && t == 0
    {
      tau0 := 0.5;
      beta := 0.1;
      schedule := "cosine";
      t := 0;
      period := 100.0;
      deltaTau := 0.2;
    }

    /** A copy with the same fields, as `clone()` makes. */
    constructor Clone(other: Sweep)
      requires other.Valid()
      ensures Valid()
      ensures tau0 == other.tau0 && beta == other.beta && schedule == other.schedule && t == other.t
    {
      tau0 := other.tau0;
      beta := other.beta;
      schedule := other.schedule;
      t := other.t;
      period := other.period;
      deltaTau := other.deltaTau;
    }

    /** The threshold of this sweep at time t. */
    function ThresholdAt(time: nat, lib: Primitives): real
      requires Valid()
    {
      Threshold(schedule, tau0, period, deltaTau, time as real, lib)
    }

    /** `transform`: gate on the mean and the threshold at the current time, then advance
        the clock by one; the output is gate * v with the gate strictly inside (0, 1). */
    method Transform(v: Vector, lib: Primitives) returns (r: Vector)
      requires Valid()
      modifies this
      ensures t == old(t) + 1
      ensures r == Scale(v, Gate(Mean(v), ThresholdAt(old(t), lib), beta, lib))
      ensures |r| == |v| && forall i :: 0 <= i < |v| ==> Abs(r[i]) <= Abs(v[i])
    {
      var mu := Mean(v);
      var tau := Threshold(schedule, tau0, period, deltaTau, t as real, lib);
      var gate := Gate(mu, tau, beta, lib);
      t := t + 1;
      r := Scale(v, gate);
      GatedBound(v, gate);
    }

    /** `current_threshold`: the threshold at the current time; nothing changes. */
    method CurrentThreshold(lib: Primitives) returns (tau: real)
      requires Valid()
      ensures tau == ThresholdAt(t, lib)
    {
      tau := Threshold(schedule, tau0, period, deltaTau, t as real, lib);
    }

    /** `reset`: the clock returns to 0. */
    method Reset()
      modifies this
      ensures t == 0
    {
      t := 0;
    }

    /** The trait `apply`: transform a clone, so this sweep's clock does not advance. */
    method Apply(v: Vector, lib: Primitives) returns (r: Result<Vector>)
      requires Valid()
      ensures r == Ok(Scale(v, Gate(Mean(v), ThresholdAt(t, lib), beta, lib)))
    {
      var sweep := new Sweep.Clone(this);
      var out := sweep.Transform(v, lib);
      r := Ok(out);
    }
  }

  /** The default sweep's threshold changes between time 0 and time 50. */
  lemma DefaultThresholdChanges(lib: Primitives)
    requires lib.Valid()
    ensures Threshold("cosine", 0.5, 100.0, 0.2, 50.0, lib) != Threshold("cosine", 0.5, 100.0, 0.2, 0.0, lib)
  {
    CosineMovesAfterHalfPeriod(0.5, 0.2, lib);
  }
}
