// The 64-bit FNV-1a hash of the duplicate filter (draft-eastlake-fnv, section 2).
module Fnv {
  import opened LinkTypes

  const MODULUS: nat := 0x1_0000_0000_0000_0000
  const OFFSET_BASIS: nat := 14695981039346656037
  const PRIME: nat := 1099511628211
  // The multiplicative inverse of PRIME modulo 2^64.
  const PRIME_INVERSE: nat := 14886173955864302971

  // Exclusive or, bit by bit from the least significant end.
  function Xor(a: nat, b: nat): nat
    decreases a + b
  {
    if a == 0 && b == 0 then 0 else (a % 2 + b % 2) % 2 + 2 * Xor(a / 2, b / 2)
  }

  function Step(h: nat, b: Byte): (r: nat)
    ensures r < MODULUS
  {
    Xor(h, b) * PRIME % MODULUS
  }

  function Hash(h: nat, data: seq<Byte>): nat
    requires h < MODULUS
  {
    if data == [] then h else Step(Hash(h, data[..|data| - 1]), data[|data| - 1])
  }

  method Fnv1a64(data: seq<Byte>) returns (h: nat)
    ensures h == Hash(OFFSET_BASIS, data)
    ensures h < MODULUS
  {
    h := OFFSET_BASIS;
    for i := 0 to |data|
      invariant h == Hash(OFFSET_BASIS, data[..i]) && h < MODULUS
    {
      assert data[..i + 1][..i] == data[..i];
      h := Xor(h, data[i]);
      h := h * PRIME % MODULUS;
    }
    assert data[..|data|] == data;
  }

  // Unfolds one bit of an exclusive or whose left operand is given by its digits.
  lemma XorDigits(low: nat, high: nat, b: nat)
    requires low < 2
    ensures Xor(low + 2 * high, b) == (low + b % 2) % 2 + 2 * Xor(high, b / 2)
  {
    var a := low + 2 * high;
    assert a % 2 == low && a / 2 == high;
    if a == 0 && b == 0 {
      assert Xor(high, b / 2) == 0;
    }
  }

  lemma BitXorInvolutive(p: nat, q: nat)
    requires p < 2 && q < 2
    ensures ((p + q) % 2 + q) % 2 == p
  {
  }

  lemma {:induction false} XorInvolutive(a: nat, b: nat)
    ensures Xor(Xor(a, b), b) == a
    decreases a + b
  {
    if a != 0 || b != 0 {
      var low, high := (a % 2 + b % 2) % 2, Xor(a / 2, b / 2);
      assert Xor(a, b) == low + 2 * high;
      XorDigits(low, high, b);
      XorInvolutive(a / 2, b / 2);
      BitXorInvolutive(a % 2, b % 2);
      assert a == a % 2 + 2 * (a / 2);
    }
  }

  lemma {:induction false} XorCommutes(a: nat, b: nat)
    ensures Xor(a, b) == Xor(b, a)
    decreases a + b
  {
    if a != 0 || b != 0 {
      XorCommutes(a / 2, b / 2);
    }
  }

  function Pow2(k: nat): (r: nat)
    ensures r > 0
  {
    if k == 0 then 1 else 2 * Pow2(k - 1)
  }

  lemma {:induction false} XorStaysBelow(a: nat, b: nat, k: nat)
    requires a < Pow2(k) && b < Pow2(k)
    ensures Xor(a, b) < Pow2(k)
  {
    if (a != 0 || b != 0) && k > 0 {
      XorStaysBelow(a / 2, b / 2, k - 1);
    }
  }

  lemma XorFits(h: nat, b: Byte)
    requires h < MODULUS
    ensures Xor(h, b) < MODULUS
  {
    assert Pow2(64) == MODULUS by {
      assert Pow2(4) == 16;
      PowAdds(4, 4);
      PowAdds(8, 8);
      PowAdds(16, 16);
      PowAdds(32, 32);
    }
    XorStaysBelow(h, b, 64);
  }

  lemma {:induction false} PowAdds(j: nat, k: nat)
    ensures Pow2(j + k) == Pow2(j) * Pow2(k)
  {
    if j > 0 {
      PowAdds(j - 1, k);
    }
  }

  // Multiplying by the inverse undoes a multiplication by PRIME modulo 2^64.
  lemma MultiplicationUndone(x: nat)
    requires x < MODULUS
    ensures (x * PRIME % MODULUS) * PRIME_INVERSE % MODULUS == x
  {
    var q := x * PRIME / MODULUS;
    var r := x * PRIME % MODULUS;
    var c := PRIME * PRIME_INVERSE / MODULUS;
    assert PRIME * PRIME_INVERSE == c * MODULUS + 1;
    calc {
      r * PRIME_INVERSE;
      (x * PRIME - q * MODULUS) * PRIME_INVERSE;
      x * (PRIME * PRIME_INVERSE) - q * MODULUS * PRIME_INVERSE;
      x * (c * MODULUS + 1) - q * MODULUS * PRIME_INVERSE;
      x + MODULUS * (x * c - q * PRIME_INVERSE);
    }
    ModOfShift(x, x * c - q * PRIME_INVERSE);
  }

  lemma ModOfShift(x: nat, k: int)
    requires x < MODULUS
    ensures (x + MODULUS * k) % MODULUS == x
  {
  }

  // One step of the hash is a bijection of the state for a fixed byte ...
  lemma StepInjectiveInState(h: nat, g: nat, b: Byte)
    requires h < MODULUS && g < MODULUS
    ensures Step(h, b) == Step(g, b) <==> h == g
  {
    XorFits(h, b);
    XorFits(g, b);
    MultiplicationUndone(Xor(h, b));
    MultiplicationUndone(Xor(g, b));
    XorInvolutive(h, b);
    XorInvolutive(g, b);
  }

  // ... and injective in the byte for a fixed state.
  lemma StepInjectiveInByte(h: nat, b: Byte, c: Byte)
    requires h < MODULUS
    ensures Step(h, b) == Step(h, c) <==> b == c
  {
    XorFits(h, b);
    XorFits(h, c);
    MultiplicationUndone(Xor(h, b));
    MultiplicationUndone(Xor(h, c));
    XorCommutes(h, b);
    XorCommutes(h, c);
    XorInvolutive(b, h);
    XorInvolutive(c, h);
  }

  lemma {:induction false} HashFits(h: nat, data: seq<Byte>)
    requires h < MODULUS
    ensures Hash(h, data) < MODULUS
  {
  }

  // Hashing a common suffix never merges two different states.
  lemma {:induction false} HashInjectiveInState(h: nat, g: nat, data: seq<Byte>)
    requires h < MODULUS && g < MODULUS
    ensures Hash(h, data) == Hash(g, data) <==> h == g
  {
    if data != [] {
      var front := data[..|data| - 1];
      HashInjectiveInState(h, g, front);
      HashFits(h, front);
      HashFits(g, front);
      StepInjectiveInState(Hash(h, front), Hash(g, front), data[|data| - 1]);
    }
  }

  lemma {:induction false} HashConcat(h: nat, a: seq<Byte>, b: seq<Byte>)
    requires h < MODULUS
    ensures Hash(h, a) < MODULUS && Hash(h, a + b) == Hash(Hash(h, a), b)
  {
    HashFits(h, a);
    if b == [] {
      assert a + b == a;
    } else {
      var front := b[..|b| - 1];
      HashConcat(h, a, front);
      assert (a + b)[..|a + b| - 1] == a + front;
    }
  }

  // Two payloads of equal length that differ in exactly one byte never collide.
  lemma NoSingleByteCollision(p: seq<Byte>, q: seq<Byte>, i: nat)
    requires |p| == |q| && i < |p|
    requires p[i] != q[i]
    requires forall k :: 0 <= k < |p| && k != i ==> p[k] == q[k]
    ensures Hash(OFFSET_BASIS, p) != Hash(OFFSET_BASIS, q)
  {
    var head, tail := p[..i], p[i + 1..];
    var x, y := [p[i]], [q[i]];
    assert q[..i] == head && q[i + 1..] == tail;
    assert p == head + x + tail && q == head + y + tail;
    HashConcat(OFFSET_BASIS, head + x, tail);
    HashConcat(OFFSET_BASIS, head + y, tail);
    assert (head + x)[..i] == head && (head + y)[..i] == head;
    HashFits(OFFSET_BASIS, head);
    StepInjectiveInByte(Hash(OFFSET_BASIS, head), p[i], q[i]);
    HashInjectiveInState(Hash(OFFSET_BASIS, head + x), Hash(OFFSET_BASIS, head + y), tail);
  }

  lemma {:induction false} XorZero(a: nat)
    ensures Xor(a, 0) == a
    decreases a
  {
    if a != 0 {
      XorZero(a / 2);
    }
  }

  // The first step from the offset basis on the letter a, bit by bit.
  lemma XorOfFirstLetter()
    ensures Xor(OFFSET_BASIS, 'a' as int) == OFFSET_BASIS + 31
  {
    XorZero(114812351869895750);
    assert Xor(114812351869895750, 0) == 114812351869895750;
    assert Xor(229624703739791500, 1) == 229624703739791501;
    assert Xor(459249407479583001, 3) == 459249407479583002;
    assert Xor(918498814959166002, 6) == 918498814959166004;
    assert Xor(1836997629918332004, 12) == 1836997629918332008;
    assert Xor(3673995259836664009, 24) == 3673995259836664017;
    assert Xor(7347990519673328018, 48) == 7347990519673328034;
    assert Xor(14695981039346656037, 97) == 14695981039346656068;
  }

  // Two values of the published table: the hashes of nothing and of the letter a.
  lemma KnownHashes()
    ensures Hash(OFFSET_BASIS, []) == 0xcbf29ce484222325
    ensures Hash(OFFSET_BASIS, ['a' as int]) == 0xaf63dc4c8601ec8c
  {
    var data: seq<Byte> := ['a' as int];
    assert data[..0] == [];
    assert Hash(OFFSET_BASIS, data) == Step(OFFSET_BASIS, data[0]);
    XorOfFirstLetter();
  }
}
