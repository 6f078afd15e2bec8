/** The resonance operator R_omega (src/operators/resonance.rs): the dominant frequency of
    a vector is the index of its strongest non-DC Fourier bin, scaled to [0, 2 pi); the
    operator passes a vector through when that frequency is within epsilon of omega and
    zeroes it otherwise. The FFT itself is the foreign `fftMagnitudes`. */
module Resonance {
  import opened Platform
  import opened Types
  import opened Vectors

  // ---------------------------------------------------------------------------
  // The peak bin

  /** Index of the strongest bin among 1 .. n-1, as the scan finds it: a bin replaces the
      current best only when strictly larger, and the scan starts from magnitude 0 at
      index 0. */
  function Scan(m: seq<Magnitude>, n: nat): (k: nat)
    requires n <= |m|
    ensures k < n || k == 0
  {
    if n <= 1 then 0
    else
      var k := Scan(m, n - 1);
      if m[n - 1] > BestSoFar(m, k) then n - 1 else k
  }

  /** The magnitude the scan holds for index k: 0 before any bin has won. */
  function BestSoFar(m: seq<Magnitude>, k: nat): real
    requires k < |m| || k == 0
  {
    if k == 0 then 0.0 else m[k]
  }

  /** The bin `compute_dominant_frequency` picks: the scan over all bins. */
  function PeakIndex(m: seq<Magnitude>): (k: nat)
    ensures IsPeak(m, k)
  {
    ScanIsPeak(m, |m|);
    assert m[..|m|] == m;
    Scan(m, |m|)
  }

  /** The peak, stated without the scan: index 0 when no non-DC bin is positive, else the
      first non-DC bin whose magnitude is maximal and positive. */
  predicate IsPeak(m: seq<Magnitude>, k: nat)
  {
    if k == 0 then
      forall j :: 1 <= j < |m| ==> m[j] <= 0.0
    else
      && k < |m|
      && m[k] > 0.0
      && (forall j :: 1 <= j < |m| ==> m[j] <= m[k])
      && (forall j :: 1 <= j < k ==> m[j] < m[k])
  }

  /** The scan over the first n bins finds the peak of those bins. */
  lemma {:induction false} ScanIsPeak(m: seq<Magnitude>, n: nat)
    requires n <= |m|
    ensures IsPeak(m[..n], Scan(m, n))
  {
    if n > 1 {
      ScanIsPeak(m, n - 1);
      var k := Scan(m, n - 1);
      assert forall j :: 0 <= j < n - 1 ==> m[..n - 1][j] == m[..n][j];
    }
  }

  /** The peak is unique. */
  lemma PeakUnique(m: seq<Magnitude>, k1: nat, k2: nat)
    requires IsPeak(m, k1) && IsPeak(m, k2)
    ensures k1 == k2
  {
  }

  /** PeakIndex is exactly the index satisfying IsPeak. */
  lemma PeakIndexCharacterised(m: seq<Magnitude>, k: nat)
    ensures IsPeak(m, k) <==> k == PeakIndex(m)
  {
    if IsPeak(m, k) {
      PeakUnique(m, k, PeakIndex(m));
    }
  }

  // ---------------------------------------------------------------------------
  // Frequency and filtering

  /** `compute_dominant_frequency`: 0 for the empty vector, else 2 pi * peak / len. */
  function DominantFrequency(v: Vector, lib: Primitives): real
  {
    if |v| == 0 then 0.0
    else (PeakIndex(lib.fftMagnitudes(v)) as real / |v| as real) * 2.0 * Pi
  }

  /** The frequency is 2 pi k / len for a bin k below len, so it lies in [0, 2 pi). */
  lemma FrequencyRange(v: Vector, lib: Primitives)
    requires lib.Valid()
    ensures 0.0 <= DominantFrequency(v, lib) < 2.0 * Pi
  {
    if |v| > 0 {
      var k := PeakIndex(lib.fftMagnitudes(v));
      assert k < |v|;
      var q := k as real / |v| as real;
      assert 0.0 <= q < 1.0 by {
        QuotientBelowOne(k as real, |v| as real);
      }
      assert 0.0 <= q * (2.0 * Pi) < 2.0 * Pi by {
        NonNegProduct(q, 2.0 * Pi);
        MulRightStrict(q, 1.0, 2.0 * Pi);
      }
      assert DominantFrequency(v, lib) == q * (2.0 * Pi);
    }
  }

  /** A five-sample vector never has dominant frequency exactly 1: the grid
      0, 2 pi / 5, ..., 8 pi / 5 misses it. */
  lemma FiveSamplesMissOne(v: Vector, lib: Primitives)
    requires lib.Valid() && |v| == 5
    ensures DominantFrequency(v, lib) != 1.0
  {
    FrequencyRange(v, lib);
    var k := PeakIndex(lib.fftMagnitudes(v));
    assert k < 5;
    assert DominantFrequency(v, lib) == (k as real / 5.0) * 2.0 * Pi;
  }

  datatype ResonanceOperator = ResonanceOperator(omega: real, epsilon: real)
  {
    /** `is_resonant`: the dominant frequency lies strictly within epsilon of omega. */
    predicate Resonant(v: Vector, lib: Primitives)
    {
      Abs(DominantFrequency(v, lib) - omega) < epsilon
    }

    /** `apply`: the vector itself when resonant, else zeros of the same length. */
    function Filtered(v: Vector, lib: Primitives): (r: Vector)
      ensures |r| == |v|
      ensures Resonant(v, lib) ==> r == v
      ensures !Resonant(v, lib) ==> forall i :: 0 <= i < |v| ==> r[i] == 0.0
    {
      if Resonant(v, lib) then v else Zeros(|v|)
    }

    /** `compute_dominant_frequency`, with the scan as a loop over the FFT magnitudes. */
    method ComputeDominantFrequency(v: Vector, lib: Primitives) returns (freq: real)
      requires lib.Valid()
      ensures freq == DominantFrequency(v, lib)
      ensures 0.0 <= freq < 2.0 * Pi
    {
      FrequencyRange(v, lib);
      var len := |v|;
      if len == 0 {
        return 0.0;
      }
      var m := lib.fftMagnitudes(v);
      var maxMagnitude := 0.0;
      var maxIndex := 0;
      for i := 1 to len
        invariant maxIndex == Scan(m, i)
        invariant maxMagnitude == BestSoFar(m, maxIndex)
      {
        var magnitude := m[i];
        if magnitude > maxMagnitude {
          maxMagnitude := magnitude;
          maxIndex := i;
        }
      }
      freq := (maxIndex as real / len as real) * 2.0 * Pi;
    }

    method IsResonant(v: Vector, lib: Primitives) returns (b: bool)
      requires lib.Valid()
      ensures b <==> Resonant(v, lib)
    {
      var dominantFreq := ComputeDominantFrequency(v, lib);
      b := Abs(dominantFreq - omega) < epsilon;
    }

    method Apply(v: Vector, lib: Primitives) returns (r: Vector)
      requires lib.Valid()
      ensures r == Filtered(v, lib)
    {
      var dominantFreq := ComputeDominantFrequency(v, lib);
      if Abs(dominantFreq - omega) < epsilon {
        r := v;
      } else {
        r := Zeros(|v|);
      }
    }

    /** The trait `apply`: never fails. */
    method ApplyOp(v: Vector, lib: Primitives) returns (r: Result<Vector>)
      requires lib.Valid()
      ensures r == Ok(Filtered(v, lib))
    {
      var out := Apply(v, lib);
      r := Ok(out);
    }
  }

  /** `ResonanceOperator::new`: bandwidth 0.1. */
  function New(omega: real): (op: ResonanceOperator)
    ensures op.omega == omega && op.epsilon == 0.1
  {
    ResonanceOperator(omega, 0.1)
  }

  /** `ResonanceOperator::with_epsilon` */
  function WithEpsilon(omega: real, epsilon: real): (op: ResonanceOperator)
    ensures op.omega == omega && op.epsilon == epsilon
  {
    ResonanceOperator(omega, epsilon)
  }

  /** The filter is non-expansive: each output component is the input component or 0. */
  lemma FilteredNonExpansive(op: ResonanceOperator, v: Vector, lib: Primitives)
    ensures forall i :: 0 <= i < |v| ==> Abs(op.Filtered(v, lib)[i]) <= Abs(v[i])
  {
  }

  /** A non-positive bandwidth rejects every vector. */
  lemma NoBandwidthRejects(op: ResonanceOperator, v: Vector, lib: Primitives)
    requires op.epsilon <= 0.0
    ensures !op.Resonant(v, lib)
  {
  }

  /** With bandwidth 0.01 around omega = 1, no five-sample vector resonates: the nearest
      grid frequency, 2 pi / 5, is about 1.26. */
  lemma NarrowBandRejectsFiveSamples(v: Vector, lib: Primitives)
    requires lib.Valid() && |v| == 5
    ensures !WithEpsilon(1.0, 0.01).Resonant(v, lib)
  {
    var k := PeakIndex(lib.fftMagnitudes(v));
    assert k < 5;
    assert DominantFrequency(v, lib) == (k as real / 5.0) * 2.0 * Pi;
    assert k == 0 || k >= 1;
  }
}
