/** The per-chunk random seed of `generate_features` (src/world/terrain_generation.rs:354-361):
    the chunk's x and z packed into one u64, multiplied by the world seed with wrap-around. */
module FeatureSeed {
  /** 2^32 and 2^64, the moduli of u32 and u64 arithmetic. */
  const TWO_32: int := 0x1_0000_0000
  const TWO_64: int := 0x1_0000_0000_0000_0000

  /** `u64`. */
  type U64 = x: int | 0 <= x < 0x1_0000_0000_0000_0000

  predicate IsI32(v: int) { -0x8000_0000 <= v < 0x8000_0000 }

  /** `v as u64` for a signed `v`: two's complement, that is, v modulo 2^64. */
  function AsU64(v: int): (u: nat) ensures u < TWO_64 { v % TWO_64 }
  /** `v as u32` for a signed `v`: v modulo 2^32. */
  function AsU32(v: int): (u: nat) ensures u < TWO_32 { v % TWO_32 }

  /** `u << 32` on a u64: the bits shifted past bit 63 are lost. */
  function Shl32(u: nat): nat requires u < TWO_64 { (u * 0x1_0000_0000) % 0x1_0000_0000_0000_0000 }

  /** Shifting left by 32 keeps exactly the low 32 bits of `u`, moved up. */
  lemma Shl32Keeps(u: nat)
    requires u < TWO_64
    ensures Shl32(u) == (u % 0x1_0000_0000) * 0x1_0000_0000
  {
    var q, r := u / 0x1_0000_0000, u % 0x1_0000_0000;
    assert u == q * 0x1_0000_0000 + r;
    assert u * 0x1_0000_0000 == q * 0x1_0000_0000_0000_0000 + r * 0x1_0000_0000;
  }

  /** The low 32 bits of `v as u64` are `v as u32`. */
  lemma LowBitsOfU64(v: int)
    ensures AsU64(v) % 0x1_0000_0000 == AsU32(v)
  {
    var a := v / 0x1_0000_0000_0000_0000;
    assert v == a * 0x1_0000_0000_0000_0000 + AsU64(v);
    assert v == (a * 0x1_0000_0000) * 0x1_0000_0000 + AsU64(v);
  }

  /** `(x as u64) << 32 | z as u32 as u64`. The shifted value has its low 32 bits clear and the
      other operand is below 2^32, so the bitwise or is written as an addition. */
  function Pack(x: int, z: int): (p: nat)
  {
    Shl32(AsU64(x)) + AsU32(z)
  }

  /** The top 32 bits of the packed value are x modulo 2^32, the low 32 bits z modulo 2^32. */
  lemma {:induction false} PackFields(x: int, z: int)
    ensures Pack(x, z) < TWO_64
    ensures Pack(x, z) / 0x1_0000_0000 == AsU32(x)
    ensures Pack(x, z) % 0x1_0000_0000 == AsU32(z)
  {
    Shl32Keeps(AsU64(x));
    LowBitsOfU64(x);
    var h := AsU32(x);
    assert Pack(x, z) == h * 0x1_0000_0000 + AsU32(z);
  }

  /** Distinct i32 positions pack to distinct values. */
  lemma PackInjective(x: int, z: int, x': int, z': int)
    requires IsI32(x) && IsI32(z) && IsI32(x') && IsI32(z')
    requires Pack(x, z) == Pack(x', z')
    ensures x == x' && z == z'
  {
    PackFields(x, z);
    PackFields(x', z');
  }

  /** The seed of chunk column (x, z): the packed position times the world seed, modulo 2^64
      (`overflowing_mul`). */
  function ChunkSeed(x: int, z: int, worldSeed: U64): (seed: nat)
    ensures seed < TWO_64
  {
    (Pack(x, z) * worldSeed) % 0x1_0000_0000_0000_0000
  }
}
