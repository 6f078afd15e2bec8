/** The code the protocol calls but does not contain: SHA-256, the bit pattern of an
    f64, the seeded byte stream of `StdRng`, the FFT, `exp`, `cos`, and the sinusoid
    injection of `utils::set_frequency`. Each is a total function handed to the model,
    constrained only by the range facts the protocol relies on. */
module Platform {

  type byte = bv8

  /** A fixed 32-byte block: a SHA-256 digest, the masking key `sigma`, an RNG seed. */
  type Bytes32 = s: seq<byte> | |s| == 32 witness ZeroBytes(32)

  type Positive = r: real | r > 0.0 witness 1.0

  type Magnitude = r: real | r >= 0.0

  function ZeroBytes(n: nat): (s: seq<byte>)
    ensures |s| == n
    ensures forall i :: 0 <= i < n ==> s[i] == 0
  {
    seq(n, _ => 0)
  }

  /** `std::f64::consts::PI`, written out as the exact value of that double. */
  const Pi: real := 3.141592653589793115997963468544185161590576171875

  datatype Primitives = Primitives(
    sha256: seq<byte> -> Bytes32,             // Sha256::digest
    f64Bits: real -> bv64,                    // f64::to_bits
    stdRng: Bytes32 -> nat -> byte,           // i-th `gen::<u8>()` of StdRng::from_seed(seed)
    fftMagnitudes: seq<real> -> seq<Magnitude>, // |X_k| of the forward FFT of a real signal
    exp: real -> Positive,                    // f64::exp
    cos: real -> real,                        // f64::cos
    injectFrequency: (seq<real>, real) -> seq<real>) // utils::set_frequency
  {
    /** The facts about the foreign code that the model uses, and nothing more. */
    ghost predicate Valid()
    {
      && (forall v :: |fftMagnitudes(v)| == |v|)
      && (forall v, omega :: |injectFrequency(v, omega)| == |v|)
      && (forall x :: -1.0 <= cos(x) <= 1.0)
      && cos(0.0) == 1.0
      && (forall x :: 0.0 < x < 2.0 * Pi ==> cos(x) < 1.0)
    }
  }
}
