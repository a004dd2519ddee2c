/** Bit operations on unsigned integers, digit by digit, and what they mean arithmetically. */
module Bits {
  import opened Arith

  function Pow2(n: nat): (r: nat)
    ensures r > 0
  {
    if n == 0 then 1 else 2 * Pow2(n - 1)
  }

  function And(a: nat, b: nat): nat {
    if a == 0 || b == 0 then 0 else 2 * And(a / 2, b / 2) + if a % 2 == 1 && b % 2 == 1 then 1 else 0
  }

  function Or(a: nat, b: nat): nat
    decreases a + b
  {
    if a == 0 then b else if b == 0 then a
    else 2 * Or(a / 2, b / 2) + if a % 2 == 1 || b % 2 == 1 then 1 else 0
  }

  function Xor(a: nat, b: nat): nat
    decreases a + b
  {
    if a == 0 then b else if b == 0 then a
    else 2 * Xor(a / 2, b / 2) + if a % 2 != b % 2 then 1 else 0
  }

  function Shr(a: nat, k: nat): nat {
    if k == 0 then a else Shr(a / 2, k - 1)
  }

  function Shl(a: nat, k: nat): (r: nat)
    ensures a > 0 ==> r > 0
    decreases k
  {
    if k == 0 then a else Shl(2 * a, k - 1)
  }

  lemma {:induction false} ShlIs(a: nat, k: nat)
    ensures Shl(a, k) == a * Pow2(k)
    decreases k
  {
    if k > 0 {
      ShlIs(2 * a, k - 1);
      TwiceProduct(a, Pow2(k - 1));
      Twice(a, Pow2(k - 1));
    }
  }

  lemma Associates(x: nat, y: nat, z: nat)
    ensures x * (y * z) == x * y * z
  {
  }

  lemma {:induction false} PowersAdd(a: nat, b: nat)
    ensures Pow2(a + b) == Pow2(a) * Pow2(b)
  {
    if a > 0 {
      PowersAdd(a - 1, b);
      Associates(2, Pow2(a - 1), Pow2(b));
    }
  }

  lemma DivStep(a: nat, d: nat)
    requires d > 0
    ensures a / 2 / d == a / (2 * d)
    ensures a % (2 * d) == 2 * (a / 2 % d) + a % 2
  {
    var q, r := a / 2 / d, a / 2 % d;
    assert a / 2 == q * d + r;
    assert a == q * (2 * d) + (2 * r + a % 2);
    DivUnique(a, 2 * d, q, 2 * r + a % 2);
  }

  lemma {:induction false} ShrIs(a: nat, k: nat)
    ensures Shr(a, k) == a / Pow2(k)
  {
    if k > 0 {
      ShrIs(a / 2, k - 1);
      DivStep(a, Pow2(k - 1));
    }
  }

  lemma Halves(d: nat, b: nat)
    requires b <= 1
    ensures (2 * d + b) / 2 == d && (2 * d + b) % 2 == b
  {
  }

  lemma AndDigits(a: nat, b: nat)
    ensures And(a, b) == 2 * And(a / 2, b / 2) + if a % 2 == 1 && b % 2 == 1 then 1 else 0
  {
  }

  lemma AndNothing(a: nat)
    ensures And(a, 0) == 0
  {
  }

  lemma AndOnesStep(a: nat, d: nat)
    requires d > 0 && And(a / 2, d - 1) == a / 2 % d
    ensures And(a, 2 * d - 1) == a % (2 * d)
  {
    hide And;
    DivStep(a, d);
    Halves(d - 1, 1);
    AndDigits(a, 2 * (d - 1) + 1);
  }

  lemma AndHighStep(a: nat, m: nat, d: nat)
    requires 0 < d <= m && And(a / 2, m - d) == a / 2 - a / 2 % d
    ensures And(a, 2 * m - 2 * d) == a - a % (2 * d)
  {
    hide And;
    DivStep(a, d);
    Halves(m - d, 0);
    AndDigits(a, 2 * (m - d));
  }

  lemma XorOnesStep(a: nat, d: nat)
    requires d > 0 && Xor(a / 2, d - 1) == d - 1 - a / 2
    ensures Xor(a, 2 * d - 1) == 2 * d - 1 - a
  {
    hide Xor;
    Halves(d - 1, 1);
    XorDigits(a, 2 * (d - 1) + 1);
  }

  /** Masking with k ones keeps the last k digits. */
  lemma {:induction false} AndOnes(a: nat, k: nat)
    ensures And(a, Pow2(k) - 1) == a % Pow2(k)
  {
    hide And;
    if k > 0 {
      AndOnes(a / 2, k - 1);
      AndOnesStep(a, Pow2(k - 1));
    } else {
      AndNothing(a);
    }
  }

  /** Masking with the complement of k ones rounds down to a multiple of 2^k. */
  lemma {:induction false} AndHigh(a: nat, n: nat, k: nat)
    requires k <= n && a < Pow2(n)
    ensures Pow2(k) <= Pow2(n)
    ensures And(a, Pow2(n) - Pow2(k)) == a - a % Pow2(k)
  {
    hide And;
    PowersGrow(k, n);
    if k > 0 {
      AndHigh(a / 2, n - 1, k - 1);
      AndHighStep(a, Pow2(n - 1), Pow2(k - 1));
    } else {
      AndOnes(a, n);
      SmallRest(a, Pow2(n));
    }
  }

  lemma SmallRest(a: nat, d: nat)
    requires a < d
    ensures a % d == a && a / d == 0
  {
    DivUnique(a, d, 0, a);
  }

  lemma {:induction false} PowersGrow(k: nat, n: nat)
    requires k <= n
    ensures Pow2(k) <= Pow2(n)
  {
    if k < n { PowersGrow(k, n - 1); }
  }

  /** Turning all of k digits upside down. */
  lemma {:induction false} XorOnes(a: nat, k: nat)
    requires a < Pow2(k)
    ensures Xor(a, Pow2(k) - 1) == Pow2(k) - 1 - a
  {
    if k > 0 {
      hide Xor;
      XorOnes(a / 2, k - 1);
      XorOnesStep(a, Pow2(k - 1));
    }
  }

  lemma XorEven(a: nat, d: nat)
    ensures Xor(a, 2 * d) == 2 * Xor(a / 2, d) + a % 2
  {
    hide Xor;
    Halves(d, 0);
    XorDigits(a, 2 * d);
  }

  /** Turning digit k, the first of k + 1. */
  lemma {:induction false} XorTop(a: nat, k: nat)
    requires a < Pow2(k + 1)
    ensures Xor(a, Pow2(k)) == if a < Pow2(k) then a + Pow2(k) else a - Pow2(k)
  {
    if k > 0 {
      XorTop(a / 2, k - 1);
      XorEven(a, Pow2(k - 1));
    }
  }

  lemma {:induction false} AndTop(a: nat, k: nat)
    requires a < Pow2(k + 1)
    ensures And(a, Pow2(k)) == if a < Pow2(k) then 0 else Pow2(k)
  {
    if k > 0 {
      AndTop(a / 2, k - 1);
    }
  }

  lemma Twice(a: nat, d: nat)
    ensures 2 * a * d == 2 * (a * d)
  {
  }

  lemma TwiceProduct(a: nat, d: nat)
    ensures a * (2 * d) == 2 * (a * d)
  {
  }

  lemma OrDigits(x: nat, b: nat)
    ensures Or(2 * x, b) == 2 * Or(x, b / 2) + b % 2
  {
  }

  /** Putting k digits behind the digits of a. */
  lemma {:induction false} OrShifted(a: nat, b: nat, k: nat)
    requires b < Pow2(k)
    ensures Or(a * Pow2(k), b) == a * Pow2(k) + b
  {
    if k > 0 {
      var x := a * Pow2(k - 1);
      OrShifted(a, b / 2, k - 1);
      TwiceProduct(a, Pow2(k - 1));
      OrDigits(x, b);
    }
  }

  // ---------------------------------------------------------------- algebra of xor

  lemma {:induction false} XorComm(a: nat, b: nat)
    ensures Xor(a, b) == Xor(b, a)
    decreases a + b
  {
    if a > 0 && b > 0 { XorComm(a / 2, b / 2); }
  }

  lemma {:induction false} XorSelf(a: nat)
    ensures Xor(a, a) == 0
  {
    if a > 0 { XorSelf(a / 2); }
  }

  lemma XorDigits(a: nat, b: nat)
    ensures Xor(a, b) / 2 == Xor(a / 2, b / 2) && Xor(a, b) % 2 == if a % 2 != b % 2 then 1 else 0
  {
  }

  lemma {:induction false} XorAssoc(a: nat, b: nat, c: nat)
    ensures Xor(Xor(a, b), c) == Xor(a, Xor(b, c))
    decreases a + b + c
  {
    XorDigits(a, b);
    XorDigits(b, c);
    XorDigits(Xor(a, b), c);
    XorDigits(a, Xor(b, c));
    if a + b + c > 0 { XorAssoc(a / 2, b / 2, c / 2); }
  }

  lemma XorCancels(a: nat, b: nat)
    ensures Xor(Xor(a, b), b) == a
  {
    XorAssoc(a, b, b);
    XorSelf(b);
  }

  lemma {:induction false} ShrXor(a: nat, b: nat, k: nat)
    ensures Shr(Xor(a, b), k) == Xor(Shr(a, k), Shr(b, k))
  {
    if k > 0 {
      XorDigits(a, b);
      ShrXor(a / 2, b / 2, k - 1);
    }
  }

  lemma {:induction false} ShrTwice(a: nat, j: nat, k: nat)
    ensures Shr(Shr(a, j), k) == Shr(a, j + k)
  {
    if j > 0 { ShrTwice(a / 2, j - 1, k); }
  }

  lemma {:induction false} ShrGone(a: nat, k: nat)
    requires a < Pow2(k)
    ensures Shr(a, k) == 0
  {
    if k > 0 { ShrGone(a / 2, k - 1); }
  }

  lemma {:induction false} XorBound(a: nat, b: nat, n: nat)
    requires a < Pow2(n) && b < Pow2(n)
    ensures Xor(a, b) < Pow2(n)
  {
    if n > 0 { XorBound(a / 2, b / 2, n - 1); }
  }

  lemma {:induction false} ShrShrinks(a: nat, k: nat)
    ensures Shr(a, k) <= a
  {
    if k > 0 { ShrShrinks(a / 2, k - 1); }
  }
}
