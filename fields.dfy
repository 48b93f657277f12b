/**
 * Field elements of the BN254 scalar field (`Fr`) and 32-byte addresses,
 * with the fixed-width big-endian serialisation `toBuffer` that the kernel
 * prover feeds to the Pedersen hash.
 */
module Fields {

  type Byte = x: nat | x < 256

  /** Order of the BN254 scalar field. */
  const MODULUS: nat := 0x30644e72e131a029b85045b68181585d2833e84879b9709143e1f593f0000001

  /** Width of a serialised field element. */
  const FR_SIZE_IN_BYTES: nat := 32

  type Fr = x: nat | x < MODULUS

  type Buffer32 = s: seq<Byte> | |s| == 32 witness seq(32, _ => 0)

  /** An Aztec address is a 32-byte buffer; `toBuffer` hands the bytes out unchanged. */
  datatype AztecAddress = AztecAddress(buffer: Buffer32) {
    function ToBuffer(): (b: seq<Byte>)
      ensures |b| == 32
    {
      buffer
    }
  }

  function Pow256(k: nat): (r: nat)
    ensures r > 0
  {
    if k == 0 then 1 else 256 * Pow256(k - 1)
  }

  /** Big-endian encoding of `n` in exactly `k` bytes (higher digits beyond `k` are dropped). */
  function ToBytesBE(n: nat, k: nat): (s: seq<Byte>)
    ensures |s| == k
  {
    if k == 0 then [] else ToBytesBE(n / 256, k - 1) + [n % 256]
  }

  /** The number a big-endian byte string denotes. */
  function FromBytesBE(s: seq<Byte>): (n: nat)
    ensures n < Pow256(|s|)
  {
    if s == [] then 0 else FromBytesBE(s[..|s| - 1]) * 256 + s[|s| - 1]
  }

  /** Decoding undoes encoding for every number that fits in `k` bytes. */
  lemma {:induction false} BytesRoundTrip(n: nat, k: nat)
    requires n < Pow256(k)
    ensures FromBytesBE(ToBytesBE(n, k)) == n
  {
    if k > 0 {
      var s := ToBytesBE(n, k);
      assert s[..k - 1] == ToBytesBE(n / 256, k - 1);
      BytesRoundTrip(n / 256, k - 1);
    }
  }

  lemma {:induction false} Pow256Add(a: nat, b: nat)
    ensures Pow256(a + b) == Pow256(a) * Pow256(b)
  {
    if a > 0 {
      Pow256Add(a - 1, b);
      assert Pow256(a + b) == 256 * (Pow256(a - 1) * Pow256(b));
    }
  }

  /** Every field element fits in 32 bytes. */
  lemma ModulusFitsBuffer()
    ensures MODULUS <= Pow256(FR_SIZE_IN_BYTES)
  {
    assert Pow256(2) == 0x1_0000;
    Pow256Add(2, 2);
    Pow256Add(4, 4);
    Pow256Add(8, 8);
    Pow256Add(16, 16);
    assert Pow256(32) == 0x1_0000000000000000000000000000000000000000000000000000000000000000;
  }

  /** `Fr.toBuffer`: the 32-byte big-endian serialisation, which loses nothing. */
  function FrToBuffer(f: Fr): (b: seq<Byte>)
    ensures |b| == FR_SIZE_IN_BYTES
    ensures FromBytesBE(b) == f
  {
    ModulusFitsBuffer();
    BytesRoundTrip(f, FR_SIZE_IN_BYTES);
    ToBytesBE(f, FR_SIZE_IN_BYTES)
  }

  /** Two field elements have the same serialisation only when they are equal. */
  lemma FrToBufferInjective(f: Fr, g: Fr)
    ensures FrToBuffer(f) == FrToBuffer(g) <==> f == g
  {
  }
}
