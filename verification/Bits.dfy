/** Bitwise AND on natural numbers, and the two masks the code relies on. */
module Bits {
  import opened Modulo

  function Pow2(k: nat): (r: nat)
    ensures r > 0
  {
    if k == 0 then 1 else 2 * Pow2(k - 1)
  }

  function And(a: nat, b: nat): nat {
    if a == 0 || b == 0 then 0
    else 2 * And(a / 2, b / 2) + (if a % 2 == 1 && b % 2 == 1 then 1 else 0)
  }

  /** A mask with its low bit set keeps the low bit. */
  lemma AndOdd(m: nat, a: nat)
    ensures And(2 * m + 1, a) == 2 * And(m, a / 2) + a % 2
  {
    assert (2 * m + 1) / 2 == m && (2 * m + 1) % 2 == 1;
  }

  /** `a % b` is `(b - 1) & a` when `b` is a power of two. */
  lemma {:induction false} AndLow(a: nat, k: nat)
    ensures And(Pow2(k) - 1, a) == a % Pow2(k)
  {
    if k > 0 {
      var p := Pow2(k - 1);
      AndLow(a / 2, k - 1);
      AndOdd(p - 1, a);
      HalfMod(a, p);
    }
  }

  lemma HalfMod(a: nat, p: nat)
    requires p > 0
    ensures a % (2 * p) == 2 * (a / 2 % p) + a % 2
  {
    var h, q, r := a / 2, a / 2 / p, a / 2 % p;
    assert h == q * p + r;
    assert a == 2 * h + a % 2;
    Doubled(q, p);
    ModUnique(2 * p, a, q, 2 * r + a % 2);
  }

  lemma Doubled(q: nat, p: nat)
    ensures q * (2 * p) == 2 * (q * p)
  {}

  lemma {:induction false} AndAll(a: nat, k: nat)
    requires a < Pow2(k)
    ensures And(a, Pow2(k) - 1) == a
  {
    if a > 0 && k > 0 {
      AndAll(a / 2, k - 1);
      assert (2 * Pow2(k - 1) - 1) / 2 == Pow2(k - 1) - 1;
    }
  }

  /** Clearing the low bit of the mask clears the low bit of the result. */
  lemma AndShift(a: nat, m: nat)
    ensures And(a, 2 * m) == 2 * And(a / 2, m)
  {}

  lemma AndShift2(a: nat, m: nat)
    ensures And(a, 4 * m) == 4 * And(a / 4, m)
  {
    AndShift(a, 2 * m);
    AndShift(a / 2, m);
    DivTwice(a);
  }

  lemma AndShift4(a: nat, m: nat)
    ensures And(a, 16 * m) == 16 * And(a / 16, m)
  {
    AndShift2(a, 4 * m);
    AndShift2(a / 4, m);
    DivFour(a);
  }

  lemma AndShift5(a: nat, m: nat)
    ensures And(a, 32 * m) == 32 * And(a / 32, m)
  {
    AndShift4(a, 2 * m);
    AndShift(a / 16, m);
    DivSixteen(a);
  }

  lemma DivTwice(a: nat)
    ensures a / 2 / 2 == a / 4
  {}

  lemma DivFour(a: nat)
    ensures a / 4 / 4 == a / 16
  {}

  lemma DivSixteen(a: nat)
    ensures a / 16 / 2 == a / 32
  {}

  /** ANDing with the sign-extended byte 0xE0 aligns a 64-bit address down to 32. */
  lemma AndAlign(a: nat, mask: nat)
    requires a < 0x1_0000_0000_0000_0000 && mask == 0xFFFF_FFFF_FFFF_FFE0
    ensures And(a, mask) == a - a % 32
  {
    Pow2Of59();
    var m := Pow2(59) - 1;
    assert mask == 32 * m;
    AndShift5(a, m);
    AndAll(a / 32, 59);
  }

  lemma Pow2Of59()
    ensures Pow2(59) == 0x800_0000_0000_0000
  {
    assert Pow2(10) == 1024;
    assert Pow2(20) == 0x10_0000 by { Pow2Add(10, 10); }
    assert Pow2(40) == 0x100_0000_0000 by { Pow2Add(20, 20); }
    assert Pow2(50) == 0x4_0000_0000_0000 by { Pow2Add(40, 10); }
    assert Pow2(9) == 512;
    Pow2Add(50, 9);
  }

  lemma {:induction false} Pow2Add(i: nat, j: nat)
    ensures Pow2(i + j) == Pow2(i) * Pow2(j)
  {
    if i > 0 {
      Pow2Add(i - 1, j);
      TimesTwo(Pow2(i - 1), Pow2(j));
    }
  }

  lemma TimesTwo(x: nat, y: nat)
    ensures 2 * (x * y) == (2 * x) * y
  {}
}
