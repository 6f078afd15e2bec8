/** The masking operator M_{theta,sigma} (src/operators/masking.rs): XOR every byte with
    the key `sigma` (cyclically), then with a byte stream seeded from theta's bit pattern.
    Both steps are XORs with a value fixed by the position and the parameters, so the
    operator is its own inverse. */
module Masking {
  import opened Platform
  import opened Types

  // ---------------------------------------------------------------------------
  // Specification

  /** Byte i of the rotation seed: `((theta_bits >> (i % 8)) & 0xFF) as u8`, that is,
      bits (i mod 8) .. (i mod 8) + 7 of theta's bit pattern. */
  function SeedByte(thetaBits: bv64, i: nat): byte
  {
    ShiftedByte(thetaBits, i % 8)
  }

  /** `((bits >> k) & 0xFF) as u8` for a shift k below 8, one case per shift amount. */
  function ShiftedByte(bits: bv64, k: nat): byte
    requires k < 8
  {
    LowByte(match k
      case 0 => bits
      case 1 => bits >> 1
      case 2 => bits >> 2
      case 3 => bits >> 3
      case 4 => bits >> 4
      case 5 => bits >> 5
      case 6 => bits >> 6
      case _ => bits >> 7)
  }

  function RotationSeed(thetaBits: bv64): Bytes32
  {
    seq(32, i requires 0 <= i < 32 => SeedByte(thetaBits, i))
  }

  /** The i-th byte XORed in by the rotation step. */
  function Keystream(theta: real, lib: Primitives, i: nat): byte
  {
    lib.stdRng(RotationSeed(lib.f64Bits(theta)))(i)
  }

  /** The permutation step U_sigma applied to a whole message. */
  function Permuted(data: seq<byte>, sigma: Bytes32): (r: seq<byte>)
    ensures |r| == |data|
    ensures forall i :: 0 <= i < |data| ==> r[i] == data[i] ^ sigma[i % 32]
  {
    seq(|data|, i requires 0 <= i < |data| => data[i] ^ sigma[i % 32])
  }

  /** The rotation step R_theta applied to a whole message. */
  function Rotated(data: seq<byte>, theta: real, lib: Primitives): (r: seq<byte>)
    ensures |r| == |data|
    ensures forall i :: 0 <= i < |data| ==> r[i] == data[i] ^ Keystream(theta, lib, i)
  {
    seq(|data|, i requires 0 <= i < |data| => data[i] ^ Keystream(theta, lib, i))
  }

  /** mask = rotate after permute. */
  function Masked(message: seq<byte>, p: MaskingParams, lib: Primitives): (r: seq<byte>)
    ensures |r| == |message|
  {
    Rotated(Permuted(message, p.sigma), p.theta, lib)
  }

  // ---------------------------------------------------------------------------
  // Properties

  lemma PermuteInvolution(data: seq<byte>, sigma: Bytes32)
    ensures Permuted(Permuted(data, sigma), sigma) == data
  {
    var once := Permuted(data, sigma);
    forall i | 0 <= i < |data|
      ensures Permuted(once, sigma)[i] == data[i]
    {
      XorTwice(data[i], sigma[i % 32]);
    }
  }

  lemma RotateInvolution(data: seq<byte>, theta: real, lib: Primitives)
    ensures Rotated(Rotated(data, theta, lib), theta, lib) == data
  {
    var once := Rotated(data, theta, lib);
    forall i | 0 <= i < |data|
      ensures Rotated(once, theta, lib)[i] == data[i]
    {
      XorTwice(data[i], Keystream(theta, lib, i));
    }
  }

  lemma XorTwice(x: byte, k: byte)
    ensures x ^ k ^ k == x
  {
  }

  /** Byte i of the masked message is byte i of the message XOR sigma[i mod 32] XOR the
      i-th stream byte: nothing from any other position enters it. */
  lemma MaskedAt(message: seq<byte>, p: MaskingParams, lib: Primitives, i: nat)
    requires i < |message|
    ensures Masked(message, p, lib)[i] == message[i] ^ p.sigma[i % 32] ^ Keystream(p.theta, lib, i)
  {
  }

  /** No cross-byte mixing: two messages that agree at position i are masked to bytes
      that agree at position i. */
  lemma MaskIsPositionwise(m1: seq<byte>, m2: seq<byte>, p: MaskingParams, lib: Primitives, i: nat)
    requires i < |m1| && i < |m2| && m1[i] == m2[i]
    ensures Masked(m1, p, lib)[i] == Masked(m2, p, lib)[i]
  {
    MaskedAt(m1, p, lib, i);
    MaskedAt(m2, p, lib, i);
  }

  /** The involution M o M = I, for every message and every parameter pair. */
  lemma MaskInvolution(message: seq<byte>, p: MaskingParams, lib: Primitives)
    ensures Masked(Masked(message, p, lib), p, lib) == message
  {
    var once := Masked(message, p, lib);
    var twice := Masked(once, p, lib);
    forall i | 0 <= i < |message|
      ensures twice[i] == message[i]
    {
      var s, k := p.sigma[i % 32], Keystream(p.theta, lib, i);
      MaskedAt(message, p, lib, i);
      MaskedAt(once, p, lib, i);
      XorCancel(message[i], s, k);
    }
  }

  lemma XorCancel(x: byte, s: byte, k: byte)
    ensures x ^ s ^ k ^ s ^ k == x
  {
  }

  /** The seed repeats with period 8. */
  lemma SeedPeriodic(thetaBits: bv64, i: nat)
    requires i + 8 < 32
    ensures RotationSeed(thetaBits)[i + 8] == RotationSeed(thetaBits)[i]
  {
    assert (i + 8) % 8 == i % 8;
    assert SeedByte(thetaBits, i + 8) == ShiftedByte(thetaBits, i % 8);
  }

  /** The seed depends only on bits 0..14 of theta's bit pattern. */
  lemma SeedUsesLowBitsOnly(bits1: bv64, bits2: bv64)
    requires bits1 & 0x7FFF == bits2 & 0x7FFF
    ensures RotationSeed(bits1) == RotationSeed(bits2)
  {
    forall i | 0 <= i < 32
      ensures SeedByte(bits1, i) == SeedByte(bits2, i)
    {
      ShiftedLowByte(bits1, bits2, i % 8);
    }
    assert RotationSeed(bits1) == RotationSeed(bits2);
  }

  lemma ShiftedLowByte(bits1: bv64, bits2: bv64, k: nat)
    requires k < 8
    requires bits1 & 0x7FFF == bits2 & 0x7FFF
    ensures ShiftedByte(bits1, k) == ShiftedByte(bits2, k)
  {
  }

  // ---------------------------------------------------------------------------
  // Implementation (in place on a byte buffer, as the source does)

  /** `permute`: XOR byte i with sigma[i % 32], in place. */
  method Permute(data: array<byte>, sigma: Bytes32)
    modifies data
    ensures data[..] == Permuted(old(data[..]), sigma)
  {
    if data.Length == 0 {
      return;
    }
    for i := 0 to data.Length
      invariant forall j :: 0 <= j < i ==> data[j] == old(data[j]) ^ sigma[j % 32]
      invariant forall j :: i <= j < data.Length ==> data[j] == old(data[j])
    {
      data[i] := data[i] ^ sigma[i % 32];
    }
  }

  /** The seed loop of `rotate`: `seed[i] = ((theta_bits >> (i % 8)) & 0xFF) as u8`. */
  method BuildSeed(thetaBits: bv64) returns (seed: Bytes32)
    ensures seed == RotationSeed(thetaBits)
  {
    var buffer := new byte[32];
    for i := 0 to 32
      invariant forall j :: 0 <= j < i ==> buffer[j] == SeedByte(thetaBits, j)
    {
      buffer[i] := ShiftedByte(thetaBits, i % 8);
    }
    seed := buffer[..];
  }

  /** `rotate`: seed a generator from theta's bits and XOR its stream over the buffer. */
  method Rotate(data: array<byte>, theta: real, lib: Primitives)
    modifies data
    ensures data[..] == Rotated(old(data[..]), theta, lib)
  {
    var seed := BuildSeed(lib.f64Bits(theta));
    var rng := lib.stdRng(seed);
    for i := 0 to data.Length
      invariant forall j :: 0 <= j < i ==> data[j] == old(data[j]) ^ Keystream(theta, lib, j)
      invariant forall j :: i <= j < data.Length ==> data[j] == old(data[j])
    {
      data[i] := data[i] ^ rng(i);
    }
  }

  /** `mask`: never fails, and yields the masked copy of the message. */
  method Mask(message: seq<byte>, params: MaskingParams, lib: Primitives) returns (r: Result<seq<byte>>)
    ensures r.Ok?
    ensures r.value == Masked(message, params, lib)
  {
    var buffer := new byte[|message|](i requires 0 <= i < |message| => message[i]);
    assert buffer[..] == message;
    Permute(buffer, params.sigma);
    Rotate(buffer, params.theta, lib);
    r := Ok(buffer[..]);
  }

  /** `unmask` is `mask`; by MaskInvolution it recovers what `mask` was given. */
  method Unmask(masked: seq<byte>, params: MaskingParams, lib: Primitives) returns (r: Result<seq<byte>>)
    ensures r.Ok?
    ensures r.value == Masked(masked, params, lib)
    ensures forall m :: masked == Masked(m, params, lib) ==> r.value == m
  {
    r := Mask(masked, params, lib);
    forall m | masked == Masked(m, params, lib)
      ensures r.value == m
    {
      MaskInvolution(m, params, lib);
    }
  }
}
