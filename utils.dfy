/** Conversions between byte messages and 5-dimensional vectors, and the zero-crossing
    frequency estimate (src/utils.rs). */
module Utils {
  import opened Platform
  import opened Types
  import opened Vectors

  /** The fixed vector dimension. */
  const Dimension: nat := 5

  // ---------------------------------------------------------------------------
  // vectorize

  /** Byte b normalised as (b - 128) / 128. */
  function Component(b: byte): (x: real)
    ensures -1.0 <= x <= 127.0 / 128.0
  {
    ((b as int) as real - 128.0) / 128.0
  }

  /** The padded length: the message length rounded up to a multiple of 5. */
  function PaddedLength(n: nat): (t: nat)
    ensures t % Dimension == 0 && n <= t < n + Dimension
  {
    ((n + 4) / 5) * 5
  }

  /** Byte i of the zero-padded message. */
  function PaddedAt(data: seq<byte>, i: nat): byte
  {
    if i < |data| then data[i] else 0
  }

  /** The vector of a non-empty message: component i is byte i of the padded message,
      normalised; bytes after the fifth are not represented. */
  function VectorOf(data: seq<byte>): (v: Vector)
    ensures |v| == Dimension
    ensures forall i :: 0 <= i < Dimension ==> -1.0 <= v[i] <= 127.0 / 128.0
  {
    seq(Dimension, i requires 0 <= i < Dimension => Component(PaddedAt(data, i)))
  }

  /** `vectorize`: fails exactly on the empty message. */
  method Vectorize(data: seq<byte>) returns (r: Result<Vector>)
    ensures r.Err? <==> data == []
    ensures r.Err? ==> r.error == VectorizationError("Cannot vectorize empty data")
    ensures r.Ok? ==> r.value == VectorOf(data)
  {
    if |data| == 0 {
      return Err(VectorizationError("Cannot vectorize empty data"));
    }
    var targetLen := ((|data| + 4) / 5) * 5;
    var padded := data + ZeroBytes(targetLen - |data|);
    var vec := new real[Dimension](_ => 0.0);
    var n := if 5 < |padded| then 5 else |padded|;
    for i := 0 to n
      invariant forall j :: 0 <= j < i ==> vec[j] == Component(PaddedAt(data, j))
    {
      vec[i] := ((padded[i] as int) as real - 128.0) / 128.0;
    }
    assert n == Dimension;
    r := Ok(vec[..]);
  }

  // ---------------------------------------------------------------------------
  // devectorize

  function Clamp(x: real, lo: real, hi: real): (c: real)
    requires lo <= hi
    ensures lo <= c <= hi
    ensures lo <= x <= hi ==> c == x
  {
    if x < lo then lo else if x > hi then hi else x
  }

  /** `((x * 128.0) + 128.0).max(0.0).min(255.0) as u8`: clamp, then truncate toward
      zero (not round). */
  function ByteOf(x: real): (b: byte)
    ensures var c := Clamp(x * 128.0 + 128.0, 0.0, 255.0);
            (b as int) as real <= c < (b as int + 1) as real
  {
    var k := Clamp(x * 128.0 + 128.0, 0.0, 255.0).Floor;
    ByteFromInt(k)
  }

  /** The byte with value k, for k in 0..255, counted up from 0 (a direct `k as byte`
      costs the solver far more). */
  function ByteFromInt(k: int): (b: byte)
    requires 0 <= k < 256
    ensures b as int == k
    decreases k
  {
    if k == 0 then 0 else ByteFromInt(k - 1) + 1
  }

  function BytesOf(v: Vector): (bytes: seq<byte>)
    ensures |bytes| == |v|
    ensures forall i :: 0 <= i < |v| ==> bytes[i] == ByteOf(v[i])
  {
    seq(|v|, i requires 0 <= i < |v| => ByteOf(v[i]))
  }

  /** `devectorize`: one byte per component; it never fails. */
  method Devectorize(v: Vector) returns (r: Result<seq<byte>>)
    ensures r.Ok?
    ensures r.value == BytesOf(v)
  {
    var bytes: seq<byte> := [];
    for i := 0 to |v|
      invariant bytes == BytesOf(v[..i])
    {
      var c := Clamp(v[i] * 128.0 + 128.0, 0.0, 255.0);
      bytes := bytes + [ByteFromInt(c.Floor)];
    }
    assert v[..|v|] == v;
    r := Ok(bytes);
  }

  /** Devectorizing a normalised byte gives the byte back. */
  lemma ByteOfComponent(b: byte)
    ensures ByteOf(Component(b)) == b
  {
    var n := b as int;
    var x := Component(b);
    assert x * 128.0 + 128.0 == n as real;
    assert Clamp(x * 128.0 + 128.0, 0.0, 255.0).Floor == n;
    ByteFromIntOfByte(b);
  }

  lemma ByteFromIntOfByte(b: byte)
    ensures ByteFromInt(b as int) == b
  {
  }

  /** Round trip: the first min(5, |data|) bytes survive and the rest of the five bytes
      are zero. */
  lemma DevectorizeVectorize(data: seq<byte>)
    ensures BytesOf(VectorOf(data)) == seq(Dimension, i requires 0 <= i < Dimension => PaddedAt(data, i))
  {
    var v := VectorOf(data);
    forall i | 0 <= i < Dimension
      ensures BytesOf(v)[i] == PaddedAt(data, i)
    {
      ByteOfComponent(PaddedAt(data, i));
    }
  }

  // ---------------------------------------------------------------------------
  // compute_dominant_frequency (zero crossings)

  /** A sign change between neighbours, zero counting as non-negative. */
  predicate SignChange(prev: real, cur: real)
  {
    (cur >= 0.0 && prev < 0.0) || (cur < 0.0 && prev >= 0.0)
  }

  /** Number of sign changes among the first n components. */
  function Crossings(v: Vector, n: nat): (c: nat)
    requires n <= |v|
    ensures n >= 1 ==> c <= n - 1
  {
    if n <= 1 then 0
    else Crossings(v, n - 1) + (if SignChange(v[n - 2], v[n - 1]) then 1 else 0)
  }

  /** The estimate: 0 below two samples, else crossings / length * pi. */
  function ZeroCrossingFrequency(v: Vector): real
  {
    if |v| < 2 then 0.0 else (Crossings(v, |v|) as real / |v| as real) * Pi
  }

  method ComputeDominantFrequency(v: Vector) returns (freq: real)
    ensures freq == ZeroCrossingFrequency(v)
    ensures 0.0 <= freq
    ensures |v| >= 2 ==> freq <= Pi * (|v| - 1) as real / |v| as real
  {
    if |v| < 2 {
      return 0.0;
    }
    var zeroCrossings := 0;
    for i := 1 to |v|
      invariant zeroCrossings == Crossings(v, i)
    {
      if (v[i] >= 0.0 && v[i - 1] < 0.0) || (v[i] < 0.0 && v[i - 1] >= 0.0) {
        zeroCrossings := zeroCrossings + 1;
      }
    }
    freq := (zeroCrossings as real / |v| as real) * Pi;
    FrequencyBound(v);
  }

  lemma FrequencyBound(v: Vector)
    requires |v| >= 2
    ensures 0.0 <= ZeroCrossingFrequency(v) <= Pi * (|v| - 1) as real / |v| as real
  {
    var c, n := Crossings(v, |v|) as real, |v| as real;
    assert c <= n - 1.0;
    assert c / n <= (n - 1.0) / n by {
      MulRight(c, n - 1.0, 1.0 / n);
      assert c / n == c * (1.0 / n) && (n - 1.0) / n == (n - 1.0) * (1.0 / n);
    }
    assert (c / n) * Pi <= ((n - 1.0) / n) * Pi by {
      MulRight(c / n, (n - 1.0) / n, Pi);
    }
    assert ((n - 1.0) / n) * Pi == Pi * (|v| - 1) as real / |v| as real;
  }

  /** Crossings never decrease as more samples are considered. */
  lemma {:induction false} CrossingsMonotone(v: Vector, m: nat, n: nat)
    requires m <= n <= |v|
    ensures Crossings(v, m) <= Crossings(v, n)
  {
    if m < n {
      CrossingsMonotone(v, m, n - 1);
    }
  }

  /** One sign change anywhere makes the estimate strictly positive; in particular the
      alternating vector [1, -1, 1, -1, 1] gets a positive frequency. */
  lemma SignChangeGivesPositiveFrequency(v: Vector, k: nat)
    requires 1 <= k < |v| && SignChange(v[k - 1], v[k])
    ensures ZeroCrossingFrequency(v) > 0.0
  {
    CrossingsMonotone(v, k + 1, |v|);
    assert Crossings(v, k + 1) >= 1;
  }

  lemma AlternatingIsPositive()
    ensures ZeroCrossingFrequency([1.0, -1.0, 1.0, -1.0, 1.0]) > 0.0
  {
    SignChangeGivesPositiveFrequency([1.0, -1.0, 1.0, -1.0, 1.0], 1);
  }
}
