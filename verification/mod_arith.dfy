/**
 * The modular arithmetic a multiplicative group modulo p needs: powers,
 * reduction of products and powers, and the modular inverse. The
 * remainder `%` is the non-negative one, as big-integer remainders by a
 * positive modulus are.
 */
module ModArith {

  /** b raised to the e-th power, over the integers. */
  function Exp(b: int, e: nat): int
  {
    if e == 0 then 1 else b * Exp(b, e - 1)
  }

  /** Integer::Pow(e, m): b^e reduced modulo m. */
  function ModPow(b: int, e: nat, m: int): (r: int)
    requires m > 0
    ensures 0 <= r < m
  {
    Exp(b, e) % m
  }

  // ---------------------------------------------------------------------
  // Remainders
  // ---------------------------------------------------------------------

  lemma MulBound(k: int, m: int)
    requires m > 0
    ensures k >= 1 ==> k * m >= m
    ensures k <= -1 ==> k * m <= -m
  {
  }

  /** A quotient and a remainder in range are the quotient and the remainder. */
  lemma ModUnique(x: int, m: int, d: int, r: int)
    requires m > 0 && 0 <= r < m && x == d * m + r
    ensures x % m == r && x / m == d
  {
    var d', r' := x / m, x % m;
    assert (d' - d) * m == r - r';
    MulBound(d' - d, m);
  }

  /** Adding a multiple of the modulus does not change the remainder. */
  lemma ModAddMultiple(x: int, k: int, m: int)
    requires m > 0
    ensures (x + k * m) % m == x % m
  {
    ModUnique(x + k * m, m, x / m + k, x % m);
  }

  /** A remainder may be taken of either factor before multiplying. */
  lemma MulMod(a: int, b: int, m: int)
    requires m > 0
    ensures (a * b) % m == ((a % m) * (b % m)) % m
  {
    var da, ra := a / m, a % m;
    var db, rb := b / m, b % m;
    var k := da * db * m + da * rb + ra * db;
    calc {
      a * b;
      (da * m + ra) * (db * m + rb);
      ra * rb + k * m;
    }
    ModAddMultiple(ra * rb, k, m);
  }

  lemma MulModLeft(a: int, b: int, m: int)
    requires m > 0
    ensures ((a % m) * b) % m == (a * b) % m
  {
    MulMod(a, b, m);
    MulMod(a % m, b, m);
    ModMod(a, m);
  }

  lemma MulModRight(a: int, b: int, m: int)
    requires m > 0
    ensures (a * (b % m)) % m == (a * b) % m
  {
    MulModLeft(b, a, m);
    assert (b % m) * a == a * (b % m) && b * a == a * b;
  }

  lemma ModMod(a: int, m: int)
    requires m > 0
    ensures (a % m) % m == a % m
  {
    ModUnique(a % m, m, 0, a % m);
  }

  // ---------------------------------------------------------------------
  // Powers
  // ---------------------------------------------------------------------

  lemma {:induction false} ExpAdd(b: int, e1: nat, e2: nat)
    ensures Exp(b, e1 + e2) == Exp(b, e1) * Exp(b, e2)
  {
    if e1 > 0 {
      ExpAdd(b, e1 - 1, e2);
      assert Exp(b, e1 + e2) == b * Exp(b, (e1 - 1) + e2);
    }
  }

  lemma {:induction false} ExpMul(b: int, e1: nat, e2: nat)
    ensures Exp(b, e1 * e2) == Exp(Exp(b, e1), e2)
  {
    if e2 > 0 {
      ExpMul(b, e1, e2 - 1);
      assert e1 * e2 == e1 + e1 * (e2 - 1);
      ExpAdd(b, e1, e1 * (e2 - 1));
    }
  }

  lemma {:induction false} ExpProduct(a: int, b: int, e: nat)
    ensures Exp(a * b, e) == Exp(a, e) * Exp(b, e)
  {
    if e > 0 {
      ExpProduct(a, b, e - 1);
      calc {
        Exp(a * b, e);
        (a * b) * (Exp(a, e - 1) * Exp(b, e - 1));
        (a * Exp(a, e - 1)) * (b * Exp(b, e - 1));
      }
    }
  }

  lemma {:induction false} ExpOne(e: nat)
    ensures Exp(1, e) == 1
  {
    if e > 0 { ExpOne(e - 1); }
  }

  /** The base of a power may be reduced first. */
  lemma {:induction false} ExpModBase(b: int, e: nat, m: int)
    requires m > 0
    ensures Exp(b % m, e) % m == Exp(b, e) % m
  {
    if e > 0 {
      ExpModBase(b, e - 1, m);
      calc {
        Exp(b % m, e) % m;
        ((b % m) * Exp(b % m, e - 1)) % m;
        { MulMod(b % m, Exp(b % m, e - 1), m); ModMod(b, m); }
        ((b % m) * (Exp(b % m, e - 1) % m)) % m;
        ((b % m) * (Exp(b, e - 1) % m)) % m;
        { MulMod(b, Exp(b, e - 1), m); ModMod(b, m); MulMod(b % m, Exp(b, e - 1), m); }
        (b * Exp(b, e - 1)) % m;
      }
    }
  }

  /** Powers of an element whose q-th power is one repeat with period q. */
  lemma ExpPeriod(b: int, q: nat, k: nat, e: nat, m: int)
    requires m > 0 && Exp(b, q) % m == 1 % m
    ensures Exp(b, e + k * q) % m == Exp(b, e) % m
  {
    ExpMul(b, q, k);
    ExpAdd(b, e, q * k);
    assert k * q == q * k;
    ExpModBase(Exp(b, q), k, m);
    ExpModBase(1, k, m);
    ExpOne(k);
    assert Exp(Exp(b, q), k) % m == 1 % m;
    MulMod(Exp(b, e), Exp(Exp(b, q), k), m);
    MulMod(Exp(b, e), 1, m);
  }

  // ---------------------------------------------------------------------
  // Inverses
  // ---------------------------------------------------------------------

  /** a is invertible modulo m. */
  predicate Invertible(a: int, m: int)
    requires m > 1
  {
    exists b :: 0 <= b < m && (a * b) % m == 1
  }

  /** The least inverse of a from b upwards, or 0 when there is none below m. */
  function InverseFrom(a: int, m: int, b: nat): (r: int)
    requires m > 1 && b <= m
    ensures 0 <= r < m
    ensures (a * r) % m == 1 || (r == 0 && forall c :: b <= c < m ==> (a * c) % m != 1)
    decreases m - b
  {
    if b == m then 0
    else if (a * b) % m == 1 then b
    else InverseFrom(a, m, b + 1)
  }

  /**
   * Integer::ModInverse(m): the inverse of a modulo m in [0, m) when a is
   * invertible, and 0 when it is not.
   */
  function ModInverse(a: int, m: int): (r: int)
    requires m > 1
    ensures 0 <= r < m
    ensures Invertible(a, m) <==> (a * r) % m == 1
    ensures !Invertible(a, m) ==> r == 0
  {
    InverseFrom(a, m, 0)
  }

  /** Two inverses of a in [0, m) are the same number. */
  lemma InverseUnique(a: int, b: int, c: int, m: int)
    requires m > 1 && 0 <= b < m && 0 <= c < m
    requires (a * b) % m == 1 && (a * c) % m == 1
    ensures b == c
  {
    calc {
      b;
      { ModUnique(b, m, 0, b); }
      (b * 1) % m;
      (b * ((a * c) % m)) % m;
      { MulModRight(b, a * c, m); }
      (b * (a * c)) % m;
      { Associate(a, b, c); }
      ((a * b) * c) % m;
      { MulModLeft(a * b, c, m); }
      (((a * b) % m) * c) % m;
      (1 * c) % m;
      { ModUnique(c, m, 0, c); }
      c;
    }
  }

  lemma Associate(a: int, b: int, c: int)
    ensures b * (a * c) == (a * b) * c
  {
  }

  /** Whatever inverse of a is known, ModInverse finds it. */
  lemma ModInverseIs(a: int, b: int, m: int)
    requires m > 1 && 0 <= b < m && (a * b) % m == 1
    ensures ModInverse(a, m) == b
  {
    InverseUnique(a, b, ModInverse(a, m), m);
  }
}
