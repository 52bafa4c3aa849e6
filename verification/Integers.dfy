// Bitwise operations on natural numbers, and numbers as big-endian bytes.
module Integers {
  import opened Common
  import opened Bits

  // a & b
  function And(a: nat, b: nat): nat {
    if a == 0 || b == 0 then 0 else a % 2 * (b % 2) + 2 * And(a / 2, b / 2)
  }

  // a | b
  function Or(a: nat, b: nat): nat
    decreases a + b
  {
    if a == 0 && b == 0 then 0
    else (if a % 2 + b % 2 > 0 then 1 else 0) + 2 * Or(a / 2, b / 2)
  }

  // a << k
  function Shl(a: nat, k: nat): nat {
    if k == 0 then a else 2 * Shl(a, k - 1)
  }

  lemma {:induction false} AndMask(a: nat, k: nat)
    ensures And(a, Pow2(k) - 1) == a % Pow2(k)
  {
    if k > 0 {
      AndMask(a / 2, k - 1);
      var m := Pow2(k - 1);
      assert (Pow2(k) - 1) / 2 == m - 1;
      HalfMod(a, m);
      if a == 0 { Quotient(0, 0, 2 * m); }
    }
  }

  lemma HalfMod(a: nat, m: nat)
    requires 0 < m
    ensures a % (2 * m) == a % 2 + 2 * (a / 2 % m)
  {
    var q, r := a / 2 / m, a / 2 % m;
    assert a == a % 2 + 2 * (q * m + r);
    assert 2 * (q * m) == q * (2 * m);
    Quotient(a, q, 2 * m);
  }

  // Numbers without a common bit: or is addition.
  lemma {:induction false} OrShifted(a: nat, b: nat, k: nat)
    requires b < Pow2(k)
    ensures Or(Shl(a, k), b) == Shl(a, k) + b
  {
    if k == 0 {
      OrZero(a);
    } else {
      OrShifted(a, b / 2, k - 1);
      OrDoubled(Shl(a, k - 1), b);
    }
  }

  // Whatever stands above the lowest bit is or-ed without it.
  lemma OrDoubled(x: nat, b: nat)
    ensures Or(2 * x, b) == 2 * Or(x, b / 2) + b % 2
  {
    assert 2 * x / 2 == x && 2 * x % 2 == 0;
  }

  lemma {:induction false} OrZero(a: nat)
    ensures Or(a, 0) == a
  {
    if a > 0 { OrZero(a / 2); }
  }

  // The n low bytes of a number, most significant first (binary.BigEndian.PutUint64 for n = 8).
  function BigEndian(v: nat, n: nat): (r: seq<Byte>)
    ensures |r| == n
  {
    if n == 0 then [] else BigEndian(v / 256, n - 1) + [v % 256]
  }

  function FromBigEndian(s: seq<Byte>): nat {
    if s == [] then 0 else 256 * FromBigEndian(s[..|s| - 1]) + s[|s| - 1]
  }

  lemma {:induction false} BigEndianInverse(v: nat, n: nat)
    requires v < Pow2(8 * n)
    ensures FromBigEndian(BigEndian(v, n)) == v
  {
    if n > 0 {
      Pow2Eight(8 * n - 8);
      BigEndianInverse(v / 256, n - 1);
      assert BigEndian(v, n)[..n - 1] == BigEndian(v / 256, n - 1);
    }
  }

  lemma Pow2Eight(k: nat)
    ensures Pow2(k + 8) == 256 * Pow2(k)
  {
    assert Pow2(k + 8) == 2 * Pow2(k + 7);
    assert Pow2(k + 6) == 4 * Pow2(k + 4);
    assert Pow2(k + 4) == 4 * Pow2(k + 2);
  }
}
