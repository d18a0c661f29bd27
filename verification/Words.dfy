/**
 Machine words of a given width: the wrapping arithmetic of an unsigned `usize`.
 Remainders are written by repeated subtraction, which keeps proofs linear.
 */
module Words {

  /** Number of values of a word with `bits` bits. */
  function Pow2(bits: nat): (m: nat)
    ensures m >= 1
  {
    if bits == 0 then 1 else 2 * Pow2(bits - 1)
  }

  lemma {:induction false} Pow2Sum(a: nat, b: nat)
    ensures Pow2(a + b) == Pow2(a) * Pow2(b)
  {
    if a > 0 {
      Pow2Sum(a - 1, b);
      assert Pow2(a - 1 + b) == Pow2(a + b - 1);
    }
  }

  lemma Squared(bits: nat, x: nat)
    requires Pow2(bits) == x
    ensures Pow2(2 * bits) == x * x
  {
    Pow2Sum(bits, bits);
  }

  /** The words of common machines. */
  lemma WordSizes()
    ensures Pow2(32) == 0x1_0000_0000 && Pow2(64) == 0x1_0000_0000_0000_0000
  {
    Squared(1, 2);
    Squared(2, 4);
    Squared(4, 16);
    Squared(8, 256);
    Squared(16, 0x1_0000);
    Squared(32, 0x1_0000_0000);
  }

  /** What remains of `x` after removing every whole `m`. */
  function Residue(x: nat, m: nat): (r: nat)
    requires m > 0
    ensures r < m && r <= x
  {
    if x < m then x else Residue(x - m, m)
  }

  /** How many whole `m` there are in `x`. */
  function Lap(x: nat, m: nat): nat
    requires m > 0
  {
    if x < m then 0 else 1 + Lap(x - m, m)
  }

  function WrapAdd(bits: nat, a: nat, b: nat): nat {
    Residue(a + b, Pow2(bits))
  }

  function WrapSub(bits: nat, a: nat, b: nat): nat {
    var m := Pow2(bits);
    if b <= a then Residue(a - b, m) else m - 1 - Residue(b - a - 1, m)
  }

  lemma {:induction false} DivMod(x: nat, m: nat)
    requires m > 0
    ensures x == Lap(x, m) * m + Residue(x, m)
  {
    if x < m {
    } else {
      DivMod(x - m, m);
      assert (1 + Lap(x - m, m)) * m == m + Lap(x - m, m) * m;
    }
  }

  lemma ModUnique(x: int, q: int, rest: int, m: int)
    requires m > 0 && x == q * m + rest && 0 <= rest < m
    ensures x % m == rest
  {
    var d := q - x / m;
    assert d * m == x % m - rest by {
      assert x == (x / m) * m + x % m;
      assert d * m == q * m - (x / m) * m;
    }
    assert d > 0 ==> (d - 1) * m >= 0;
    assert d < 0 ==> (-d - 1) * m >= 0;
  }

  lemma ResidueIsMod(x: nat, m: nat)
    requires m > 0
    ensures x % m == Residue(x, m)
    ensures (-1 - x) % m == m - 1 - Residue(x, m)
  {
    var q, r := Lap(x, m), Residue(x, m);
    DivMod(x, m);
    ModUnique(x, q, r, m);
    assert (-1 - q) * m == -(q * m) - m;
    ModUnique(-1 - x, -1 - q, m - 1 - r, m);
  }

  /** The wrapping operations are addition and subtraction modulo the number of words. */
  lemma WrappingIsModular(bits: nat, a: nat, b: nat)
    ensures WrapAdd(bits, a, b) == (a + b) % Pow2(bits)
    ensures WrapSub(bits, a, b) == (a - b) % Pow2(bits)
  {
    var m := Pow2(bits);
    ResidueIsMod(a + b, m);
    if b <= a {
      ResidueIsMod(a - b, m);
    } else {
      ResidueIsMod(b - a - 1, m);
      assert a - b == -1 - (b - a - 1);
    }
  }

  /** Counting in wrapped steps is counting and wrapping once. */
  lemma {:induction false} ResidueOnce(clock: nat, n: nat, m: nat)
    requires m > 0
    ensures Residue(Residue(clock, m) + n, m) == Residue(clock + n, m)
  {
    if clock >= m {
      ResidueOnce(clock - m, n, m);
    }
  }

  /** The wrapped difference of two wrapped stamps is the true difference, wrapped once. */
  lemma {:induction false} WrapSubOnce(bits: nat, clock: nat, at: nat)
    requires at <= clock
    ensures WrapSub(bits, Residue(clock, Pow2(bits)), Residue(at, Pow2(bits)))
         == Residue(clock - at, Pow2(bits))
  {
    var m := Pow2(bits);
    if at >= m {
      WrapSubOnce(bits, clock - m, at - m);
    } else if clock >= m && clock - m >= at {
      WrapSubOnce(bits, clock - m, at);
    }
  }

  /** Within one word of each other, wrapping reverses the order exactly across a lap. */
  lemma {:induction false} LapOrder(x: nat, y: nat, m: nat)
    requires m > 0 && x <= y < x + m
    ensures Lap(x, m) == Lap(y, m) ==> Residue(x, m) + (y - x) == Residue(y, m)
    ensures Lap(x, m) != Lap(y, m) ==> Residue(y, m) < Residue(x, m)
  {
    if x >= m {
      LapOrder(x - m, y - m, m);
    }
  }
}
