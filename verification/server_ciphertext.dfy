/**
 * BlogDrop's ServerCiphertext: a server's ciphertext element
 * (product of client public keys)^(-x) mod p, with a non-interactive
 * Chaum–Pedersen proof that it used the same secret x as its public key
 * g^x. The challenge is a hash of the transcript reduced modulo q
 * (Fiat–Shamir), and the response is v - c·x modulo q.
 */
module ServerCiphertext {
  import opened ModArith

  /** The group: a prime-order-q subgroup of the integers modulo p, generated by g. */
  datatype Parameters = Parameters(p: int, q: nat, g: int)

  predicate ValidParameters(params: Parameters)
  {
    params.p > 1 && params.q > 0
  }

  /**
   * Parameters::IsElement: a residue in (0, p) whose q-th power is one,
   * that is, a member of the order-q subgroup.
   */
  predicate IsElement(params: Parameters, x: int)
    requires ValidParameters(params)
  {
    0 < x < params.p && ModPow(x, params.q, params.p) == 1
  }

  /** PublicKey(priv): g^x mod p. */
  function PublicKeyOf(params: Parameters, x: nat): (y: int)
    requires ValidParameters(params)
    ensures 0 <= y < params.p
    ensures IsElement(params, params.g) ==> IsElement(params, y)
  {
    var y := ModPow(params.g, x, params.p);
    assert IsElement(params, params.g) ==> IsElement(params, y) by {
      if IsElement(params, params.g) { ElementPower(params, params.g, x); }
    }
    y
  }

  /**
   * The state SetProof fills in: the parameters, the product of the
   * client public keys, the ciphertext element, and the proof.
   */
  datatype Ciphertext = Ciphertext(
    params: Parameters,
    clientPks: int,
    element: int,
    challenge: int,
    response: int)

  /**
   * Commit: the hash of p, q, g and the six transcript values, in that
   * order, read as a non-negative integer and reduced modulo q. The hash
   * and the byte encoding of the integers are a parameter.
   */
  function Commit(params: Parameters, hash: seq<int> -> nat,
                  g1: int, g2: int, y1: int, y2: int, t1: int, t2: int): (c: int)
    requires ValidParameters(params)
    ensures 0 <= c < params.q
  {
    hash([params.p, params.q, params.g, g1, g2, y1, y2, t1, t2]) % params.q
  }

  /**
   * SetProof: with private key x and the random exponent v the element is
   * the inverse of g2^x, the commitments are t1 = g^v and t2 = (g2^v)^(-1),
   * the challenge commits to (g, g2, g^x, element, t1, t2), and the
   * response is v - c·x reduced modulo q.
   */
  function SetProof(params: Parameters, clientPks: int, x: nat, v: nat, hash: seq<int> -> nat): (ct: Ciphertext)
    requires ValidParameters(params)
    ensures ct.params == params && ct.clientPks == clientPks
    ensures 0 <= ct.element < params.p && 0 <= ct.challenge < params.q && 0 <= ct.response < params.q
    ensures IsElement(params, clientPks) ==>
              (ct.element * ModPow(clientPks, x, params.p)) % params.p == 1
    ensures (ct.response + ct.challenge * x) % params.q == v % params.q
  {
    var p := params.p;
    var element := ModInverse(ModPow(clientPks, x, p), p);
    var t1 := ModPow(params.g, v, p);
    var t2 := ModInverse(ModPow(clientPks, v, p), p);
    var c := Commit(params, hash, params.g, clientPks, PublicKeyOf(params, x), element, t1, t2);
    var r := (v - c * x) % params.q;
    assert IsElement(params, clientPks) ==> (element * ModPow(clientPks, x, p)) % p == 1 by {
      if IsElement(params, clientPks) {
        ElementPower(params, clientPks, x);
        ElementInverse(params, ModPow(clientPks, x, p));
      }
    }
    ResponseCongruent(v, c * x, params.q);
    Ciphertext(params, clientPks, element, c, r)
  }

  /** The recomputed first commitment, g^r · y1^c mod p. */
  function VerifierT1(ct: Ciphertext, pub: int): (t1: int)
    requires ValidParameters(ct.params) && ct.response >= 0 && ct.challenge >= 0
    ensures 0 <= t1 < ct.params.p
  {
    var p := ct.params.p;
    (ModPow(ct.params.g, ct.response, p) * ModPow(pub, ct.challenge, p)) % p
  }

  /** The recomputed second commitment, (g2^r)^(-1) · y2^c mod p. */
  function VerifierT2(ct: Ciphertext): (t2: int)
    requires ValidParameters(ct.params) && ct.response >= 0 && ct.challenge >= 0
    ensures 0 <= t2 < ct.params.p
  {
    var p := ct.params.p;
    (ModInverse(ModPow(ct.clientPks, ct.response, p), p) * ModPow(ct.element, ct.challenge, p)) % p
  }

  /**
   * VerifyProof: false unless the public key, the client-key product and
   * the element are group elements; otherwise the proof holds exactly
   * when the commitment to the recomputed t1 and t2 is the challenge.
   */
  function VerifyProof(ct: Ciphertext, pub: int, hash: seq<int> -> nat): (ok: bool)
    requires ValidParameters(ct.params) && ct.response >= 0 && ct.challenge >= 0
    ensures !IsElement(ct.params, pub) ==> !ok
    ensures !IsElement(ct.params, ct.clientPks) ==> !ok
    ensures !IsElement(ct.params, ct.element) ==> !ok
    ensures ok ==> 0 <= ct.challenge < ct.params.q
  {
    if !(IsElement(ct.params, pub) && IsElement(ct.params, ct.clientPks) && IsElement(ct.params, ct.element)) then false
    else
      var t1 := VerifierT1(ct, pub);
      var t2 := VerifierT2(ct);
      Commit(ct.params, hash, ct.params.g, ct.clientPks, pub, ct.element, t1, t2) == ct.challenge
  }

  // ---------------------------------------------------------------------
  // Group facts
  // ---------------------------------------------------------------------

  lemma {:induction false} ExpZero(e: nat)
    requires e > 0
    ensures Exp(0, e) == 0
  {
  }

  /** Every power of a group element is a group element. */
  lemma ElementPower(params: Parameters, b: int, e: nat)
    requires ValidParameters(params) && IsElement(params, b)
    ensures IsElement(params, ModPow(b, e, params.p))
  {
    var p, q := params.p, params.q;
    var y := ModPow(b, e, p);
    calc {
      ModPow(y, q, p);
      Exp(Exp(b, e) % p, q) % p;
      { ExpModBase(Exp(b, e), q, p); }
      Exp(Exp(b, e), q) % p;
      { ExpMul(b, e, q); ExpMul(b, q, e); assert e * q == q * e; }
      Exp(Exp(b, q), e) % p;
      { ExpModBase(Exp(b, q), e, p); }
      Exp(1, e) % p;
      { ExpOne(e); }
      1;
    }
    ExpZero(q);
    assert ModPow(0, q, p) == 0;
  }

  /** y^(q-1) is an inverse of a group element y. */
  lemma ElementInvertible(params: Parameters, y: int)
    requires ValidParameters(params) && IsElement(params, y)
    ensures (y * ModPow(y, params.q - 1, params.p)) % params.p == 1
  {
    var p, q := params.p, params.q;
    assert Exp(y, q) == y * Exp(y, q - 1);
    MulMod(y, Exp(y, q - 1), p);
    MulMod(y, ModPow(y, q - 1, p), p);
    ModMod(Exp(y, q - 1), p);
  }

  /** A group element is invertible, and its inverse is a group element. */
  lemma ElementInverse(params: Parameters, y: int)
    requires ValidParameters(params) && IsElement(params, y)
    ensures (y * ModInverse(y, params.p)) % params.p == 1
    ensures IsElement(params, ModInverse(y, params.p))
  {
    var p, q := params.p, params.q;
    ElementInvertible(params, y);
    var w := ModPow(y, q - 1, p);
    assert 0 <= w < p && (y * w) % p == 1;
    var inv := ModInverse(y, p);
    InversePowerIsOne(y, inv, q, p);
    NonZeroInverse(y, inv, p);
  }

  /** Zero is no inverse. */
  lemma NonZeroInverse(y: int, inv: int, p: int)
    requires p > 1 && (y * inv) % p == 1
    ensures inv != 0
  {
    assert inv == 0 ==> y * inv == 0;
    assert 0 % p == 0;
  }

  /** When y^q is one modulo p, so is the q-th power of any inverse of y. */
  lemma InversePowerIsOne(y: int, inv: int, q: nat, p: int)
    requires p > 1 && (y * inv) % p == 1 && ModPow(y, q, p) == 1
    ensures ModPow(inv, q, p) == 1
  {
    calc {
      ModPow(inv, q, p);
      { ModMod(Exp(inv, q), p); MulMod(Exp(inv, q), 1, p); }
      ((Exp(inv, q) % p) * (Exp(y, q) % p)) % p;
      { MulMod(Exp(inv, q), Exp(y, q), p); ExpProduct(inv, y, q); }
      Exp(inv * y, q) % p;
      { ExpModBase(inv * y, q, p); assert inv * y == y * inv; }
      Exp(1, q) % p;
      { ExpOne(q); ModUnique(1, p, 0, 1); }
      1;
    }
  }

  /** Exponents congruent modulo q give the same power of a group element. */
  lemma ExpCongruent(params: Parameters, b: int, e1: nat, e2: nat)
    requires ValidParameters(params) && IsElement(params, b)
    requires e1 % params.q == e2 % params.q
    ensures ModPow(b, e1, params.p) == ModPow(b, e2, params.p)
  {
    var p, q := params.p, params.q;
    var m := e1 % q;
    var k1 := Decompose(e1, q);
    var k2 := Decompose(e2, q);
    ModUnique(1, p, 0, 1);
    ExpPeriod(b, q, k1, m, p);
    ExpPeriod(b, q, k2, m, p);
  }

  /** e is its remainder plus a non-negative multiple of q. */
  lemma Decompose(e: nat, q: nat) returns (k: nat)
    requires q > 0
    ensures e == e % q + k * q
  {
    k := e / q;
  }

  /** The response plus c·x is v modulo q. */
  lemma ResponseCongruent(v: int, cx: int, q: int)
    requires q > 0
    ensures ((v - cx) % q + cx) % q == v % q
  {
    var d := (v - cx) / q;
    assert (v - cx) % q + cx == v + (-d) * q;
    ModAddMultiple(v, -d, q);
  }

  /** Products that are one modulo p multiply to one. */
  lemma MulOnes(a: int, b: int, c: int, d: int, p: int)
    requires p > 1 && (a * b) % p == 1 && (c * d) % p == 1
    ensures (((a * c) % p) * ((b * d) % p)) % p == 1
  {
    calc {
      (((a * c) % p) * ((b * d) % p)) % p;
      { MulMod(a * c, b * d, p); }
      ((a * c) * (b * d)) % p;
      { assert (a * c) * (b * d) == (a * b) * (c * d); }
      ((a * b) * (c * d)) % p;
      { MulMod(a * b, c * d, p); }
      (1 * 1) % p;
      { ModUnique(1, p, 0, 1); }
      1;
    }
  }

  /** Two residues that multiply to one keep doing so when both are raised to the same power. */
  lemma PowersOfInverses(a: int, b: int, e: nat, p: int)
    requires p > 1 && (a * b) % p == 1
    ensures (ModPow(a, e, p) * ModPow(b, e, p)) % p == 1
  {
    calc {
      (ModPow(a, e, p) * ModPow(b, e, p)) % p;
      { MulMod(Exp(a, e), Exp(b, e), p); }
      (Exp(a, e) * Exp(b, e)) % p;
      { ExpProduct(a, b, e); }
      Exp(a * b, e) % p;
      { ExpModBase(a * b, e, p); }
      Exp(1, e) % p;
      { ExpOne(e); ModUnique(1, p, 0, 1); }
      1;
    }
  }

  /** g^(e1 + e2) is g^e1 · g^e2 modulo p. */
  lemma ModPowAdd(b: int, e1: nat, e2: nat, p: int)
    requires p > 1
    ensures ModPow(b, e1 + e2, p) == (ModPow(b, e1, p) * ModPow(b, e2, p)) % p
  {
    ExpAdd(b, e1, e2);
    MulMod(Exp(b, e1), Exp(b, e2), p);
  }

  /** (b^e1 mod p)^e2 is b^(e1·e2) modulo p. */
  lemma ModPowMul(b: int, e1: nat, e2: nat, p: int)
    requires p > 1
    ensures ModPow(ModPow(b, e1, p), e2, p) == ModPow(b, e1 * e2, p)
  {
    ExpModBase(Exp(b, e1), e2, p);
    ExpMul(b, e1, e2);
  }

  // ---------------------------------------------------------------------
  // Completeness
  // ---------------------------------------------------------------------

  /** For an honest proof the verifier's first commitment is the prover's t1 = g^v. */
  lemma HonestT1(params: Parameters, clientPks: int, x: nat, v: nat, hash: seq<int> -> nat)
    requires ValidParameters(params) && IsElement(params, params.g)
    ensures var ct := SetProof(params, clientPks, x, v, hash);
            VerifierT1(ct, PublicKeyOf(params, x)) == ModPow(params.g, v, params.p)
  {
    var ct := SetProof(params, clientPks, x, v, hash);
    var p, g, c, r := params.p, params.g, ct.challenge, ct.response;
    calc {
      VerifierT1(ct, PublicKeyOf(params, x));
      (ModPow(g, r, p) * ModPow(ModPow(g, x, p), c, p)) % p;
      { ModPowMul(g, x, c, p); assert x * c == c * x; }
      (ModPow(g, r, p) * ModPow(g, c * x, p)) % p;
      { ModPowAdd(g, r, c * x, p); }
      ModPow(g, r + c * x, p);
      { ExpCongruent(params, g, r + c * x, v); }
      ModPow(g, v, p);
    }
  }

  /** For an honest proof the verifier's second commitment is the prover's t2 = (g2^v)^(-1). */
  lemma HonestT2(params: Parameters, clientPks: int, x: nat, v: nat, hash: seq<int> -> nat)
    requires ValidParameters(params) && IsElement(params, clientPks)
    ensures var ct := SetProof(params, clientPks, x, v, hash);
            VerifierT2(ct) == ModInverse(ModPow(clientPks, v, params.p), params.p)
  {
    var ct := SetProof(params, clientPks, x, v, hash);
    var p, c, r := params.p, ct.challenge, ct.response;
    var X := ModPow(clientPks, x, p);
    var A := ModPow(clientPks, r, p);
    var B := ModPow(clientPks, v, p);
    var IA := ModInverse(A, p);
    var Ec := ModPow(ct.element, c, p);
    var Xc := ModPow(X, c, p);
    ElementPower(params, clientPks, r);
    ElementInverse(params, A);
    assert (IA * A) % p == 1;
    PowersOfInverses(ct.element, X, c, p);
    calc {
      B;
      { ExpCongruent(params, clientPks, r + c * x, v); }
      ModPow(clientPks, r + c * x, p);
      { ModPowAdd(clientPks, r, c * x, p); }
      (A * ModPow(clientPks, c * x, p)) % p;
      { ModPowMul(clientPks, x, c, p); assert x * c == c * x; }
      (A * Xc) % p;
    }
    MulOnes(IA, A, Ec, Xc, p);
    assert VerifierT2(ct) == (IA * Ec) % p;
    ModInverseIs(B, VerifierT2(ct), p);
  }

  /**
   * Completeness: when g and the client-key product are group elements,
   * the proof SetProof makes with private key x verifies under the public
   * key g^x, for every random exponent and every hash.
   */
  lemma Completeness(params: Parameters, clientPks: int, x: nat, v: nat, hash: seq<int> -> nat)
    requires ValidParameters(params)
    requires IsElement(params, params.g) && IsElement(params, clientPks)
    ensures VerifyProof(SetProof(params, clientPks, x, v, hash), PublicKeyOf(params, x), hash)
  {
    var ct := SetProof(params, clientPks, x, v, hash);
    ElementPower(params, clientPks, x);
    ElementInverse(params, ModPow(clientPks, x, params.p));
    HonestT1(params, clientPks, x, v, hash);
    HonestT2(params, clientPks, x, v, hash);
  }
}
