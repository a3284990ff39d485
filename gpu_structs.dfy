// src/render/vulkan/gpu_structs.hpp: the Vertex record and its std::hash
// specialisation, a fixed fold of eleven float hashes on size_t.
//
// A float is its 32-bit pattern and std::hash<float> is a parameter. Vertex
// equality is the datatype's structural equality, field by field. size_t
// arithmetic is written out on integers modulo 2^64, with exclusive or
// defined bit by bit.

module GpuStructs {
  import opened Common

  /** The bit pattern of a 32-bit float, read as an unsigned integer. */
  type Float = u32

  datatype Vec3 = Vec3(x: Float, y: Float, z: Float)

  datatype Vec2 = Vec2(x: Float, y: Float)

  datatype Vertex = Vertex(position: Vec3, color: Vec3, normal: Vec3, uv: Vec2)

  /** sizeof(Vertex): three vec3 and one vec2 of 4-byte floats, without padding. */
  const SizeOfVertex: nat := 44

  /** sizeof(Index), an std::uint32_t. */
  const SizeOfIndex: nat := 4

  /** The eleven floats of a vertex in the order the hash visits them. */
  function Components(v: Vertex): (fs: seq<Float>)
    ensures |fs| == 11
    ensures fs[0] == v.position.x && fs[3] == v.color.x && fs[6] == v.normal.x && fs[9] == v.uv.x
  {
    [v.position.x, v.position.y, v.position.z,
     v.color.x, v.color.y, v.color.z,
     v.normal.x, v.normal.y, v.normal.z,
     v.uv.x, v.uv.y]
  }

  /** Two vertices are equal exactly when their eleven floats are. */
  lemma ComponentsDetermineVertex(v: Vertex, w: Vertex)
    ensures Components(v) == Components(w) <==> v == w
  {
    if Components(v) == Components(w) {
      assert Components(v)[1] == Components(w)[1] && Components(v)[2] == Components(w)[2];
      assert Components(v)[4] == Components(w)[4] && Components(v)[5] == Components(w)[5];
      assert Components(v)[7] == Components(w)[7] && Components(v)[8] == Components(w)[8];
      assert Components(v)[10] == Components(w)[10];
    }
  }

  /** The pattern is a NaN: every exponent bit set and a non-zero fraction. */
  predicate IsNaN(f: Float)
  {
    f % 0x8000_0000 > 0x7F80_0000
  }

  /** The pattern is +0.0f or -0.0f. */
  predicate IsZero(f: Float)
  {
    f % 0x8000_0000 == 0
  }

  /** IEEE `==` on floats: a NaN equals nothing, the two zeros are equal, other values only themselves. */
  predicate FloatEq(a: Float, b: Float)
  {
    !IsNaN(a) && !IsNaN(b) && (a == b || (IsZero(a) && IsZero(b)))
  }

  /** The defaulted `Vertex::operator==`: memberwise IEEE `==` on the eleven floats. */
  predicate VertexEq(v: Vertex, w: Vertex)
  {
    forall i | 0 <= i < 11 :: FloatEq(Components(v)[i], Components(w)[i])
  }

  /** A float on which IEEE `==` and equality of patterns agree: neither a NaN nor -0.0f. */
  predicate Ordinary(f: Float)
  {
    !IsNaN(f) && f != 0x8000_0000
  }

  predicate OrdinaryVertex(v: Vertex)
  {
    forall i | 0 <= i < 11 :: Ordinary(Components(v)[i])
  }

  /** On ordinary floats IEEE `==` is equality of bit patterns. */
  lemma FloatEqIsBitwiseOnOrdinary(a: Float, b: Float)
    requires Ordinary(a) && Ordinary(b)
    ensures FloatEq(a, b) <==> a == b
  {
    if IsZero(a) && IsZero(b) {
      assert a == 0 && b == 0;
    }
  }

  /**
   * On vertices made of ordinary floats the defaulted `==` is the datatype's
   * structural equality, which the de-duplication model uses.
   */
  lemma VertexEqIsEqualityOnOrdinary(v: Vertex, w: Vertex)
    requires OrdinaryVertex(v) && OrdinaryVertex(w)
    ensures VertexEq(v, w) <==> v == w
  {
    ComponentsDetermineVertex(v, w);
    forall i | 0 <= i < 11
      ensures FloatEq(Components(v)[i], Components(w)[i]) <==> Components(v)[i] == Components(w)[i]
    {
      FloatEqIsBitwiseOnOrdinary(Components(v)[i], Components(w)[i]);
    }
    if VertexEq(v, w) {
      assert forall i | 0 <= i < 11 :: Components(v)[i] == Components(w)[i];
      assert Components(v) == Components(w);
    }
  }

  /**
   * +0.0f and -0.0f compare equal: a vertex without NaNs whose uv.y is +0.0f
   * is `==` to the one whose uv.y is -0.0f, although their patterns differ.
   */
  lemma SignedZerosCompareEqual(v: Vertex)
    requires v.uv.y == 0
    requires forall i | 0 <= i < 11 :: !IsNaN(Components(v)[i])
    ensures VertexEq(v, v.(uv := Vec2(v.uv.x, 0x8000_0000)))
    ensures v != v.(uv := Vec2(v.uv.x, 0x8000_0000))
  {
    var negated := v.(uv := Vec2(v.uv.x, 0x8000_0000));
    forall i | 0 <= i < 11
      ensures FloatEq(Components(v)[i], Components(negated)[i])
    {
      if i == 10 {
        assert IsZero(Components(v)[10]) && IsZero(Components(negated)[10]);
      }
    }
  }

  /** A vertex holding a NaN is not `==` to itself. */
  lemma NaNVertexUnequalToItself(v: Vertex, i: nat)
    requires i < 11 && IsNaN(Components(v)[i])
    ensures !VertexEq(v, v)
  {
    assert !FloatEq(Components(v)[i], Components(v)[i]);
  }

  /** The per-float hashes, in visiting order. */
  function ComponentHashes(v: Vertex, hasher: Float -> SizeT): (hs: seq<SizeT>)
    ensures |hs| == 11
    ensures forall i | 0 <= i < 11 :: hs[i] == hasher(Components(v)[i])
  {
    seq<SizeT>(11, i requires 0 <= i < 11 => hasher(Components(v)[i]))
  }

  function Pow2(n: nat): (p: nat)
    ensures p >= 1
  {
    if n == 0 then 1 else 2 * Pow2(n - 1)
  }

  lemma {:induction false} Pow2Add(a: nat, b: nat)
    ensures Pow2(a + b) == Pow2(a) * Pow2(b)
  {
    if a > 0 {
      Pow2Add(a - 1, b);
    }
  }

  lemma Pow2Is64Bit()
    ensures Pow2(64) == SizeModulus
  {
    assert Pow2(1) == 2;
    Pow2Add(1, 1);
    assert Pow2(2) == 4;
    Pow2Add(2, 2);
    assert Pow2(4) == 16;
    Pow2Add(4, 4);
    assert Pow2(8) == 0x100;
    Pow2Add(8, 8);
    assert Pow2(16) == 0x1_0000;
    Pow2Add(16, 16);
    assert Pow2(32) == 0x1_0000_0000;
    Pow2Add(32, 32);
  }

  /** Exclusive or of the lowest bits of `a` and `b`. */
  function LowBitXor(a: nat, b: nat): nat
  {
    if a % 2 == b % 2 then 0 else 1
  }

  /** Exclusive or of the `n` lowest bits of `a` and `b`. */
  function XorBits(a: nat, b: nat, n: nat): nat
  {
    if n == 0 then 0 else 2 * XorBits(a / 2, b / 2, n - 1) + LowBitXor(a, b)
  }

  lemma {:induction false} XorBitsBound(a: nat, b: nat, n: nat)
    ensures XorBits(a, b, n) < Pow2(n)
  {
    if n > 0 {
      XorBitsBound(a / 2, b / 2, n - 1);
    }
  }

  /** Exclusive or with the same value twice gives back the original `n`-bit value. */
  lemma {:induction false} XorBitsInvolution(s: nat, x: nat, n: nat)
    requires x < Pow2(n)
    ensures XorBits(s, XorBits(s, x, n), n) == x
  {
    if n > 0 {
      var y := XorBits(s, x, n);
      var q := XorBits(s / 2, x / 2, n - 1);
      assert y / 2 == q && y % 2 == LowBitXor(s, x);
      XorBitsInvolution(s / 2, x / 2, n - 1);
    }
  }

  /** `a ^ b` on size_t. */
  function Xor(a: SizeT, b: SizeT): SizeT
  {
    XorBitsBound(a, b, 64);
    Pow2Is64Bit();
    XorBits(a, b, 64)
  }

  /** The amount `hashCombine` adds to the incoming hash: `0x9e3779b9 + (seed << 6) + (seed >> 2)`. */
  function Increment(seed: SizeT): SizeT
  {
    (0x9e3779b9 + (seed * 64) % SizeModulus + seed / 4) % SizeModulus
  }

  /** `hashCombine`: `hash += Increment(seed); seed ^= hash`, wrapping on size_t. */
  function Combine(seed: SizeT, h: SizeT): SizeT
  {
    Xor(seed, (h + Increment(seed)) % SizeModulus)
  }

  /** `a + b` on size_t. */
  function WrapAdd(a: SizeT, b: SizeT): SizeT
  {
    (a + b) % SizeModulus
  }

  /** `x << n` on size_t: the bits shifted past bit 63 are lost. */
  function ShiftLeft(x: SizeT, n: nat): SizeT
  {
    (x * Pow2(n)) % SizeModulus
  }

  /** `x >> n` on size_t. */
  function ShiftRight(x: SizeT, n: nat): SizeT
    decreases n
  {
    if n == 0 then x else ShiftRight(x / 2, n - 1)
  }

  /**
   * The `hashCombine` lambda, statement by statement, on the seed it holds by
   * reference: `hash_ += 0x9e3779b9 + (seed_ << 6) + (seed_ >> 2)`, each
   * addition wrapping on size_t, then `seed_ ^= hash_`. The result is one
   * `Combine` step.
   */
  method HashCombine(seed: SizeT, h: SizeT) returns (updated: SizeT)
    ensures updated == Combine(seed, h)
  {
    var hash := h;
    var increment := WrapAdd(WrapAdd(0x9e3779b9, ShiftLeft(seed, 6)), ShiftRight(seed, 2));
    hash := WrapAdd(hash, increment);
    updated := Xor(seed, hash);
    IncrementByShifts(seed);
  }

  /** The two shifts and two wrapping additions of `hashCombine` compute `Increment`. */
  lemma IncrementByShifts(seed: SizeT)
    ensures WrapAdd(WrapAdd(0x9e3779b9, ShiftLeft(seed, 6)), ShiftRight(seed, 2)) == Increment(seed)
  {
    assert Pow2(2) == 4;
    assert Pow2(6) == 64 by {
      assert Pow2(3) == 8;
    }
    var l := (seed * 64) % SizeModulus;
    assert ShiftLeft(seed, 6) == l;
    assert ShiftRight(seed, 2) == seed / 4 by {
      assert ShiftRight(seed / 2, 1) == ShiftRight(seed / 2 / 2, 0);
    }
    WrapAddLeft(0x9e3779b9 + l, seed / 4);
  }

  /** Wrapping a partial sum first does not change a wrapped total. */
  lemma WrapAddLeft(x: nat, y: nat)
    ensures (x % SizeModulus + y) % SizeModulus == (x + y) % SizeModulus
  {
    var q := x / SizeModulus;
    assert x == q * SizeModulus + x % SizeModulus;
    assert x + y == q * SizeModulus + (x % SizeModulus + y);
  }

  /** Adding the same size_t amount with wrap-around never merges two different values. */
  lemma WrappingAddInjective(a: SizeT, b: SizeT, k: SizeT)
    requires (a + k) % SizeModulus == (b + k) % SizeModulus
    ensures a == b
  {
    var x := if a + k < SizeModulus then a + k else a + k - SizeModulus;
    var y := if b + k < SizeModulus then b + k else b + k - SizeModulus;
    assert (a + k) % SizeModulus == x;
    assert (b + k) % SizeModulus == y;
  }

  /** For a fixed seed, a combine step never merges two different hashes. */
  lemma CombineInjective(seed: SizeT, a: SizeT, b: SizeT)
    ensures Combine(seed, a) == Combine(seed, b) <==> a == b
  {
    if Combine(seed, a) == Combine(seed, b) {
      var k := Increment(seed);
      Pow2Is64Bit();
      XorBitsInvolution(seed, (a + k) % SizeModulus, 64);
      XorBitsInvolution(seed, (b + k) % SizeModulus, 64);
      WrappingAddInjective(a, b, k);
    }
  }

  /** Left fold of `Combine` over `hs`, starting from `seed`. */
  function Fold(seed: SizeT, hs: seq<SizeT>): SizeT
    decreases |hs|
  {
    if |hs| == 0 then seed else Fold(Combine(seed, hs[0]), hs[1..])
  }

  /** Folding a suffix from position `k` is one combine step followed by folding from `k + 1`. */
  lemma FoldStep(seed: SizeT, hs: seq<SizeT>, k: nat)
    requires k < |hs|
    ensures Fold(seed, hs[k..]) == Fold(Combine(seed, hs[k]), hs[k + 1..])
  {
    assert hs[k..][1..] == hs[k + 1..];
  }

  /** Folding one more hash is one more combine step on the folded seed. */
  lemma {:induction false} FoldAppend(seed: SizeT, hs: seq<SizeT>, h: SizeT)
    ensures Fold(seed, hs + [h]) == Combine(Fold(seed, hs), h)
    decreases |hs|
  {
    if |hs| == 0 {
      assert hs + [h] == [h];
      assert [h][1..] == [];
    } else {
      assert (hs + [h])[1..] == hs[1..] + [h];
      FoldAppend(Combine(seed, hs[0]), hs[1..], h);
    }
  }

  /**
   * The hash's last step keeps information: two sequences of component
   * hashes that agree except in the last position fold to different values.
   */
  lemma LastHashDistinguishes(hs: seq<SizeT>, a: SizeT, b: SizeT)
    requires a != b
    ensures Fold(0, hs + [a]) != Fold(0, hs + [b])
  {
    FoldAppend(0, hs, a);
    FoldAppend(0, hs, b);
    CombineInjective(Fold(0, hs), a, b);
  }

  /**
   * std::hash<Vertex>: starting from seed 0, combine the hashes of position
   * x, y, z, color x, y, z, normal x, y, z and uv x, y, in that order.
   */
  method HashVertex(v: Vertex, hasher: Float -> SizeT) returns (seed: SizeT)
    ensures seed == Fold(0, ComponentHashes(v, hasher))
  {
    ghost var hs := [hasher(v.position.x), hasher(v.position.y), hasher(v.position.z),
                     hasher(v.color.x), hasher(v.color.y), hasher(v.color.z),
                     hasher(v.normal.x), hasher(v.normal.y), hasher(v.normal.z),
                     hasher(v.uv.x), hasher(v.uv.y)];
    assert hs == ComponentHashes(v, hasher);
    seed := 0;
    assert hs[0..] == hs;
    FoldStep(seed, hs, 0);
    seed := HashCombine(seed, hasher(v.position.x));
    FoldStep(seed, hs, 1);
    seed := HashCombine(seed, hasher(v.position.y));
    FoldStep(seed, hs, 2);
    seed := HashCombine(seed, hasher(v.position.z));

    FoldStep(seed, hs, 3);
    seed := HashCombine(seed, hasher(v.color.x));
    FoldStep(seed, hs, 4);
    seed := HashCombine(seed, hasher(v.color.y));
    FoldStep(seed, hs, 5);
    seed := HashCombine(seed, hasher(v.color.z));

    FoldStep(seed, hs, 6);
    seed := HashCombine(seed, hasher(v.normal.x));
    FoldStep(seed, hs, 7);
    seed := HashCombine(seed, hasher(v.normal.y));
    FoldStep(seed, hs, 8);
    seed := HashCombine(seed, hasher(v.normal.z));

    FoldStep(seed, hs, 9);
    seed := HashCombine(seed, hasher(v.uv.x));
    FoldStep(seed, hs, 10);
    seed := HashCombine(seed, hasher(v.uv.y));
    assert hs[11..] == [];
  }

  /**
   * The hash is consistent with vertex equality, and two vertices that differ
   * only in the last uv coordinate (with distinguishable float hashes) get
   * different hashes.
   */
  lemma HashSeparatesLastUv(v: Vertex, w: Vertex, hasher: Float -> SizeT)
    requires v.position == w.position && v.color == w.color && v.normal == w.normal && v.uv.x == w.uv.x
    requires hasher(v.uv.y) != hasher(w.uv.y)
    ensures Fold(0, ComponentHashes(v, hasher)) != Fold(0, ComponentHashes(w, hasher))
  {
    var hv := ComponentHashes(v, hasher);
    var hw := ComponentHashes(w, hasher);
    assert hv[..10] == hw[..10];
    assert hv == hv[..10] + [hv[10]];
    assert hw == hw[..10] + [hw[10]];
    LastHashDistinguishes(hv[..10], hv[10], hw[10]);
  }
}
