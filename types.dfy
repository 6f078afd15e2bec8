/** Core types of the protocol (src/types.rs): errors, parameter records with their
    defaults, scale levels, and the derivation of ephemeral masking parameters from a
    frequency and an epoch. */
module Types {
  import opened Platform

  datatype OmegaError =
    | VectorizationError(msg: string)
    | MaskingError(msg: string)
    | ResonanceError(msg: string)
    | NetworkError(msg: string)
    | ParameterError(msg: string)
    | IoError(msg: string)

  datatype Result<T> = Ok(value: T) | Err(error: OmegaError)

  datatype Option<T> = None | Some(value: T)

  /** `theta` is the phase angle, `sigma` the 256-bit permutation seed. */
  datatype MaskingParams = MaskingParams(theta: real, sigma: Bytes32)

  datatype ResonanceParams = ResonanceParams(omega: real, epsilon: real)

  datatype SweepParams = SweepParams(tau0: real, beta: real, schedule: string)

  datatype PfadinvarianzParams = PfadinvarianzParams(permutationCount: nat)

  datatype ScaleLevel = Micro | Meso | Macro

  datatype WeightTransferParams = WeightTransferParams(gamma: real, levels: seq<(ScaleLevel, real)>)

  datatype DoubleKickParams = DoubleKickParams(alpha1: real, alpha2: real)

  datatype OmegaParams = OmegaParams(
    masking: MaskingParams,
    resonance: ResonanceParams,
    sweep: SweepParams,
    pfadinvarianz: PfadinvarianzParams,
    weightTransfer: WeightTransferParams,
    doubleKick: DoubleKickParams)

  datatype NodeConfig = NodeConfig(omega: real, params: OmegaParams)

  const U64Max: int := 0xFFFF_FFFF_FFFF_FFFF

  // ---------------------------------------------------------------------------
  // Ephemeral key derivation

  /** The low byte of a word, `x as u8`. */
  function LowByte(x: bv64): byte
  {
    (x & 0xFF) as byte
  }

  /** `x.to_le_bytes()` */
  function LittleEndian(x: bv64): (b: seq<byte>)
    ensures |b| == 8
  {
    [LowByte(x), LowByte(x >> 8), LowByte(x >> 16), LowByte(x >> 24),
     LowByte(x >> 32), LowByte(x >> 40), LowByte(x >> 48), LowByte(x >> 56)]
  }

  /** `u64::from_le_bytes(b)` as a number. */
  function FromLittleEndian(b: seq<byte>): nat
  {
    if b == [] then 0 else b[0] as nat + 256 * FromLittleEndian(b[1..])
  }

  function Pow256(n: nat): nat
  {
    if n == 0 then 1 else 256 * Pow256(n - 1)
  }

  /** What the hasher is fed: the bit pattern of omega, then the epoch, both little-endian. */
  function HashInput(omegaBits: bv64, epoch: bv64): (h: seq<byte>)
    ensures |h| == 16
    ensures h[..8] == LittleEndian(omegaBits) && h[8..] == LittleEndian(epoch)
  {
    LittleEndian(omegaBits) + LittleEndian(epoch)
  }

  /** theta = LE-u64(digest[0..8]) / u64::MAX * 2 * pi */
  function ThetaFromDigest(digest: Bytes32): real
  {
    (FromLittleEndian(digest[..8]) as real / U64Max as real) * 2.0 * Pi
  }

  /** `MaskingParams::ephemeral_from_frequency(omega, epoch)` */
  function EphemeralFromFrequency(omega: real, epoch: bv64, lib: Primitives): (p: MaskingParams)
    ensures p.sigma == lib.sha256(HashInput(lib.f64Bits(omega), epoch))
    ensures 0.0 <= p.theta <= 2.0 * Pi
  {
    var digest := lib.sha256(HashInput(lib.f64Bits(omega), epoch));
    ThetaRange(digest);
    MaskingParams(ThetaFromDigest(digest), digest)
  }

  /** An n-byte little-endian number is below 256^n. */
  lemma {:induction false} FromLittleEndianBound(b: seq<byte>)
    ensures FromLittleEndian(b) < Pow256(|b|)
  {
    if b != [] {
      FromLittleEndianBound(b[1..]);
    }
  }

  /** theta lies in [0, 2 pi]: the upper end is closed, see ThetaReachesTwoPi. */
  lemma ThetaRange(digest: Bytes32)
    ensures 0.0 <= ThetaFromDigest(digest) <= 2.0 * Pi
  {
    FromLittleEndianBound(digest[..8]);
    assert Pow256(8) == U64Max + 1;
    var n := FromLittleEndian(digest[..8]) as real;
    assert 0.0 <= n <= U64Max as real;
    assert 0.0 <= n / U64Max as real <= 1.0;
  }

  /** A digest whose first eight bytes are all 0xFF gives theta = 2 pi exactly, so the
      half-open range [0, 2 pi) promised for `theta` does not hold. */
  lemma ThetaReachesTwoPi(digest: Bytes32)
    requires forall k :: 0 <= k < 8 ==> digest[k] == 0xFF
    ensures ThetaFromDigest(digest) == 2.0 * Pi
  {
    AllOnesFromLittleEndian(digest[..8]);
    assert Pow256(8) == U64Max + 1;
  }

  /** The range [0, 2 pi) documented for `theta` holds when the prefix is divided by 2^64,
      one more than its largest value, instead of by u64::MAX. */
  function ThetaHalfOpen(digest: Bytes32): real
  {
    (FromLittleEndian(digest[..8]) as real / Pow256(8) as real) * 2.0 * Pi
  }

  lemma ThetaHalfOpenRange(digest: Bytes32)
    ensures 0.0 <= ThetaHalfOpen(digest) < 2.0 * Pi
  {
    FromLittleEndianBound(digest[..8]);
    assert Pow256(8) == U64Max + 1;
    var n := FromLittleEndian(digest[..8]) as real;
    assert 0.0 <= n / Pow256(8) as real < 1.0;
  }

  lemma {:induction false} AllOnesFromLittleEndian(b: seq<byte>)
    requires forall k :: 0 <= k < |b| ==> b[k] == 0xFF
    ensures FromLittleEndian(b) == Pow256(|b|) - 1
  {
    if b != [] {
      AllOnesFromLittleEndian(b[1..]);
    }
  }

  /** Equal frequency bit patterns and equal epochs give equal parameters. */
  lemma EphemeralDeterministic(omega1: real, omega2: real, epoch1: bv64, epoch2: bv64, lib: Primitives)
    requires lib.f64Bits(omega1) == lib.f64Bits(omega2) && epoch1 == epoch2
    ensures EphemeralFromFrequency(omega1, epoch1, lib) == EphemeralFromFrequency(omega2, epoch2, lib)
  {
  }

  /** `to_le_bytes` is injective. */
  lemma LittleEndianInjective(x: bv64, y: bv64)
    requires LittleEndian(x) == LittleEndian(y)
    ensures x == y
  {
    var lx, ly := LittleEndian(x), LittleEndian(y);
    assert lx[0] == ly[0] && lx[1] == ly[1] && lx[2] == ly[2] && lx[3] == ly[3];
    assert lx[4] == ly[4] && lx[5] == ly[5] && lx[6] == ly[6] && lx[7] == ly[7];
    LowByteInjective(x, y);
    LowByteInjective(x >> 8, y >> 8);
    LowByteInjective(x >> 16, y >> 16);
    LowByteInjective(x >> 24, y >> 24);
    LowByteInjective(x >> 32, y >> 32);
    LowByteInjective(x >> 40, y >> 40);
    LowByteInjective(x >> 48, y >> 48);
    LowByteInjective(x >> 56, y >> 56);
    BytesDetermineWord(x, y);
  }

  lemma LowByteInjective(a: bv64, b: bv64)
    requires LowByte(a) == LowByte(b)
    ensures a & 0xFF == b & 0xFF
  {
  }

  lemma BytesDetermineWord(x: bv64, y: bv64)
    requires x & 0xFF == y & 0xFF && (x >> 8) & 0xFF == (y >> 8) & 0xFF
    requires (x >> 16) & 0xFF == (y >> 16) & 0xFF && (x >> 24) & 0xFF == (y >> 24) & 0xFF
    requires (x >> 32) & 0xFF == (y >> 32) & 0xFF && (x >> 40) & 0xFF == (y >> 40) & 0xFF
    requires (x >> 48) & 0xFF == (y >> 48) & 0xFF && (x >> 56) & 0xFF == (y >> 56) & 0xFF
    ensures x == y
  {
  }

  /** The hash input determines both the frequency bit pattern and the epoch. Together
      with the collision resistance of SHA-256 (an assumption about the foreign hash,
      not proved here) this is why a different epoch gives a different `sigma`. */
  lemma HashInputInjective(bits1: bv64, epoch1: bv64, bits2: bv64, epoch2: bv64)
    requires HashInput(bits1, epoch1) == HashInput(bits2, epoch2)
    ensures bits1 == bits2 && epoch1 == epoch2
  {
    var h1, h2 := HashInput(bits1, epoch1), HashInput(bits2, epoch2);
    assert h1[..8] == h2[..8] && h1[8..] == h2[8..];
    LittleEndianInjective(bits1, bits2);
    LittleEndianInjective(epoch1, epoch2);
  }

  // ---------------------------------------------------------------------------
  // Defaults

  function DefaultResonanceParams(): (p: ResonanceParams)
    ensures p.epsilon > 0.0
  {
    ResonanceParams(1.0, 0.1)
  }

  function DefaultSweepParams(): (p: SweepParams)
    ensures p.beta != 0.0 && p.schedule == "cosine"
  {
    SweepParams(0.5, 0.1, "cosine")
  }

  function DefaultPfadinvarianzParams(): PfadinvarianzParams
  {
    PfadinvarianzParams(24)
  }

  function DefaultWeightTransferParams(): WeightTransferParams
  {
    WeightTransferParams(0.3, [(Micro, 0.2), (Meso, 0.5), (Macro, 0.3)])
  }

  function DefaultDoubleKickParams(): DoubleKickParams
  {
    DoubleKickParams(0.05, -0.03)
  }

  function DefaultOmegaParams(): (p: OmegaParams)
    ensures p.resonance.epsilon > 0.0
    ensures p.sweep.beta != 0.0
    ensures 0.0 <= p.weightTransfer.gamma <= 1.0
  {
    OmegaParams(
      MaskingParams(0.0, ZeroBytes(32)),
      DefaultResonanceParams(),
      DefaultSweepParams(),
      DefaultPfadinvarianzParams(),
      DefaultWeightTransferParams(),
      DefaultDoubleKickParams())
  }

  function DefaultNodeConfig(): (c: NodeConfig)
    ensures c.omega > 0.0
    ensures c.params.resonance.epsilon > 0.0
  {
    NodeConfig(1.0, DefaultOmegaParams())
  }

  /** Sum of the weights in a list of (level, weight) pairs. */
  function LevelsTotal(levels: seq<(ScaleLevel, real)>): real
  {
    if levels == [] then 0.0 else LevelsTotal(levels[..|levels| - 1]) + levels[|levels| - 1].1
  }

  /** The default level weights 0.2 + 0.5 + 0.3 form a convex combination. */
  lemma DefaultLevelsSumToOne()
    ensures LevelsTotal(DefaultWeightTransferParams().levels) == 1.0
  {
    var levels := DefaultWeightTransferParams().levels;
    assert levels[..1][..0] == [];
    assert LevelsTotal(levels[..1]) == 0.2;
    assert levels[..2][..1] == levels[..1];
    assert LevelsTotal(levels[..2]) == 0.7;
    assert levels[..3][..2] == levels[..2];
  }
}
