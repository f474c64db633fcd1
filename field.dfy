/**
 * Prime-field arithmetic for the scalar field of the pairing the prover is
 * instantiated with. The prover is generic over the pairing, so the modulus is
 * a parameter `p` of type `Prime` and every fact below holds for every prime.
 * Field elements are naturals; every operation reduces its result modulo p.
 */
module Field {

  datatype Option<T> = None | Some(value: T)

  predicate Divides(d: nat, n: nat)
    requires d > 0
  {
    n % d == 0
  }

  /** n has no divisor strictly between 1 and n. */
  predicate NoProperDivisor(n: nat) {
    forall d :: 1 < d < n ==> !Divides(d, n)
  }

  /** A prime: greater than one and without a proper divisor. */
  type Prime = p: nat | p > 1 && NoProperDivisor(p) witness 2

  function Add(p: Prime, x: nat, y: nat): nat {
    (x + y) % p
  }

  /** Additive inverse: the element that added to x gives zero. */
  function Neg(p: Prime, x: nat): (r: nat)
    ensures r < p && Add(p, x, r) == 0
  {
    NegCancels(p, x);
    (p - x % p) % p
  }

  function Sub(p: Prime, x: nat, y: nat): nat {
    Add(p, x, Neg(p, y))
  }

  function Mul(p: Prime, x: nat, y: nat): nat {
    (x * y) % p
  }

  // ---------------------------------------------------------------------------
  // Arithmetic modulo p

  /** Euclidean division is unique: any decomposition a = q*p + r with 0 <= r < p is the one. */
  lemma DivModUnique(a: int, p: int, q: int, r: int)
    requires p > 0 && a == q * p + r && 0 <= r < p
    ensures a % p == r && a / p == q
  {
    var q0, r0 := a / p, a % p;
    assert (q - q0) * p == r0 - r;
    if q > q0 {
      MulAtLeast(q - q0, p);
    } else if q < q0 {
      MulAtLeast(q0 - q, p);
    }
  }

  /** An element below p is its own residue. */
  lemma Reduced(p: Prime, v: nat)
    requires v < p
    ensures v % p == v
  {
    DivModUnique(v, p, 0, v);
  }

  lemma MulAtLeast(k: int, p: int)
    requires k >= 1 && p > 0
    ensures k * p >= p
  {
    assert k * p == p + (k - 1) * p;
  }

  /** Adding a multiple of p does not change the residue. */
  lemma AddMultiple(x: int, k: int, p: int)
    requires p > 0
    ensures (x + k * p) % p == x % p
  {
    DivModUnique(x + k * p, p, x / p + k, x % p);
  }

  lemma AddModLeft(a: int, b: int, p: int)
    requires p > 0
    ensures (a % p + b) % p == (a + b) % p
  {
    AddMultiple(a % p + b, a / p, p);
  }

  lemma AddModRight(a: int, b: int, p: int)
    requires p > 0
    ensures (a + b % p) % p == (a + b) % p
  {
    AddModLeft(b, a, p);
    assert a + b % p == b % p + a;
  }

  lemma MulModLeft(a: int, b: int, p: int)
    requires p > 0
    ensures ((a % p) * b) % p == (a * b) % p
  {
    var q, r := a / p, a % p;
    assert a * b == (q * b) * p + r * b;
    AddMultiple(r * b, q * b, p);
  }

  lemma MulModRight(a: int, b: int, p: int)
    requires p > 0
    ensures (a * (b % p)) % p == (a * b) % p
  {
    MulModLeft(b, a, p);
  }

  /** Sums and products respect congruence modulo p. */
  lemma AddCongruent(x: int, y: int, x': int, y': int, p: int)
    requires p > 0 && x % p == x' % p && y % p == y' % p
    ensures (x + y) % p == (x' + y') % p
  {
    AddResidues(x, y, p);
    AddResidues(x', y', p);
  }

  lemma AddResidues(x: int, y: int, p: int)
    requires p > 0
    ensures (x + y) % p == (x % p + y % p) % p
  {
    assert x + y == (x % p + y % p) + (x / p + y / p) * p;
    AddMultiple(x % p + y % p, x / p + y / p, p);
  }

  lemma NegCancels(p: nat, x: nat)
    requires p > 0
    ensures (x + (p - x % p) % p) % p == 0
  {
    var r := x % p;
    if r == 0 {
      DivModUnique(p, p, 1, 0);
      DivModUnique(x, p, x / p, 0);
    } else {
      DivModUnique(p - r, p, 0, p - r);
      assert x + (p - r) == (x / p + 1) * p;
      DivModUnique(x + (p - r), p, x / p + 1, 0);
    }
  }

  lemma MulCongruent(x: int, y: int, x': int, y': int, p: int)
    requires p > 0 && x % p == x' % p && y % p == y' % p
    ensures (x * y) % p == (x' * y') % p
  {
    MulModLeft(x, y, p);
    MulModLeft(x', y', p);
    MulModRight(x % p, y, p);
    MulModRight(x' % p, y', p);
  }

  // ---------------------------------------------------------------------------
  // Extended Euclid and the multiplicative inverse

  /** Returns (g, s, t) with g = gcd(a, b) and the Bezout identity g == s*a + t*b. */
  function ExtGcd(a: nat, b: nat): (r: (nat, int, int))
    requires a > 0
    decreases b
    ensures r.0 > 0 && Divides(r.0, a) && Divides(r.0, b)
    ensures r.0 == r.1 * a + r.2 * b
  {
    if b == 0 then (a, 1, 0)
    else
      var rest := ExtGcd(b, a % b);
      var g, s, t := rest.0, rest.1, rest.2;
      DividesCombination(a, b, g);
      BezoutStep(a, b, g, s, t);
      (g, t, s - t * (a / b))
  }

  lemma BezoutStep(a: nat, b: nat, g: int, s: int, t: int)
    requires b > 0 && g == s * b + t * (a % b)
    ensures g == t * a + (s - t * (a / b)) * b
  {
    var q := a / b;
    assert a % b == a - q * b;
    assert t * (a - q * b) == t * a - (t * q) * b;
    assert (s - t * q) * b == s * b - (t * q) * b;
  }

  lemma DividesCombination(a: nat, b: nat, g: nat)
    requires g > 0 && b > 0 && b % g == 0 && (a % b) % g == 0
    ensures a % g == 0
  {
    var kb, kr := b / g, (a % b) / g;
    assert b == kb * g;
    assert a % b == kr * g;
    assert a == (a / b) * b + a % b;
    assert a == ((a / b) * kb + kr) * g;
    DivModUnique(a, g, (a / b) * kb + kr, 0);
  }

  /** A positive divisor of a positive number is at most that number. */
  lemma DivisorAtMost(g: nat, n: nat)
    requires g > 0 && n > 0 && Divides(g, n)
    ensures g <= n
  {
    if g > n {
      DivModUnique(n, g, 0, n);
    }
  }

  /**
   * The multiplicative inverse, as the field's `inverse` gives it: absent exactly
   * for zero, and otherwise the element whose product with x is one.
   */
  function Inverse(p: Prime, x: nat): (r: Option<nat>)
    ensures r.Some? <==> x % p != 0
    ensures r.Some? ==> r.value < p && Mul(p, x, r.value) == 1
  {
    if x % p == 0 then None
    else
      var xr := x % p;
      var e := ExtGcd(p, xr);
      var s, t := e.1, e.2;
      GcdWithPrime(p, xr, e.0);
      InverseFromBezout(p, x, s, t);
      Some(t % p)
  }

  /** The only positive common divisor of a prime and a smaller positive number is one. */
  lemma GcdWithPrime(p: Prime, xr: nat, g: nat)
    requires 0 < xr < p && g > 0 && Divides(g, p) && Divides(g, xr)
    ensures g == 1
  {
    DivisorAtMost(g, xr);
    assert NoProperDivisor(p);
  }

  lemma InverseFromBezout(p: Prime, x: nat, s: int, t: int)
    requires 1 == s * p + t * (x % p)
    ensures t % p < p && Mul(p, x, t % p) == 1
  {
    var xr := x % p;
    assert xr * t == 1 + (-s) * p;
    DivModUnique(xr * t, p, -s, 1);
    MulModLeft(x, t, p);
    MulModRight(x, t, p);
  }

  lemma AddAssociative(p: Prime, x: nat, y: nat, z: nat)
    ensures Add(p, Add(p, x, y), z) == Add(p, x, Add(p, y, z))
  {
    var s := x + y + z;
    var a, k1 := (x + y) % p, (x + y) / p;
    var b, k2 := (y + z) % p, (y + z) / p;
    assert x + y == k1 * p + a;
    assert y + z == k2 * p + b;
    ModShift(a + z, s, k1, p);
    ModShift(x + b, s, k2, p);
  }

  /** t and t + k*p have the same residue. */
  lemma ModShift(t: int, s: int, k: int, p: int)
    requires p > 0 && t + k * p == s
    ensures t % p == s % p
  {
    AddMultiple(t, k, p);
  }

  /** Subtracting what was added gives back the original element. */
  lemma AddThenSub(p: Prime, x: nat, y: nat)
    ensures Sub(p, Add(p, x, y), y) == x % p
  {
    AddAssociative(p, x, y, Neg(p, y));
  }

  /** Adding back what was subtracted gives back the original element. */
  lemma SubThenAdd(p: Prime, x: nat, y: nat)
    ensures Add(p, Add(p, Neg(p, y), x), y) == x % p
  {
    AddAssociative(p, Neg(p, y), x, y);
    AddAssociative(p, x, y, Neg(p, y));
    assert Add(p, x, y) == Add(p, y, x) && Add(p, Neg(p, y), Add(p, x, y)) == Add(p, Add(p, x, y), Neg(p, y));
  }

  lemma MulAssociative(p: Prime, x: nat, y: nat, z: nat)
    ensures Mul(p, Mul(p, x, y), z) == Mul(p, x, Mul(p, y, z))
  {
    MulModLeft(x * y, z, p);
    MulModRight(x, y * z, p);
    assert (x * y) * z == x * (y * z);
  }

  lemma MulOne(p: Prime, x: nat)
    ensures Mul(p, x, 1) == x % p
  {
  }

  lemma MulReduceLeft(p: Prime, x: nat, y: nat)
    ensures Mul(p, x % p, y) == Mul(p, x, y)
  {
    MulModLeft(x, y, p);
  }

  /** A field has no zero divisors. */
  lemma NoZeroDivisors(p: Prime, x: nat, y: nat)
    ensures Mul(p, x, y) == 0 <==> x % p == 0 || y % p == 0
  {
    if x % p == 0 {
      MulReduceLeft(p, x, y);
    } else if y % p == 0 {
      MulReduceLeft(p, y, x);
      assert y * x == x * y;
    } else {
      var v := Inverse(p, x).value;
      if Mul(p, x, y) == 0 {
        calc {
          y % p;
          { MulOne(p, y); }
          Mul(p, y, Mul(p, x, v));
          { MulAssociative(p, y, x, v); }
          Mul(p, Mul(p, y, x), v);
          { assert y * x == x * y; }
          Mul(p, Mul(p, x, y), v);
          0;
        }
      }
    }
  }

  /**
   * Field division: absent exactly when the divisor is zero; otherwise the
   * quotient times the divisor is the dividend.
   */
  function Div(p: Prime, x: nat, y: nat): (r: Option<nat>)
    ensures r.Some? <==> y % p != 0
    ensures r.Some? ==> r.value < p && Mul(p, r.value, y) == x % p
  {
    match Inverse(p, y)
    case None => None
    case Some(v) =>
      calc {
        Mul(p, Mul(p, x, v), y);
        { MulAssociative(p, x, v, y); }
        Mul(p, x, Mul(p, v, y));
        { assert v * y == y * v; }
        Mul(p, x, 1);
        { MulOne(p, x); }
        x % p;
      }
      Some(Mul(p, x, v))
  }

  /** The quotient is the only element whose product with the divisor is the dividend. */
  lemma QuotientUnique(p: Prime, x: nat, y: nat, z: nat)
    requires y % p != 0 && Mul(p, z, y) == x % p
    ensures Div(p, x, y) == Some(z % p)
  {
    var v := Inverse(p, y).value;
    calc {
      z % p;
      { MulOne(p, z); }
      Mul(p, z, Mul(p, y, v));
      { MulAssociative(p, z, y, v); }
      Mul(p, Mul(p, z, y), v);
      Mul(p, x % p, v);
      { MulReduceLeft(p, x, v); }
      Mul(p, x, v);
    }
  }
}
