/**
 * The pointwise tables the prover computes itself: the helper tables of the
 * gate identity (sum_ab, sum_ci) and the rational tables of the wiring
 * identity (num, den and their quotient h). Each table is the evaluation
 * table of a multilinear polynomial on the boolean hypercube.
 */
module Tables {
  import opened Field

  type Table = seq<nat>

  /** The only failure the prover's own arithmetic can hit: a zero denominator at `index`. */
  datatype Error = DivisionByZero(index: nat)

  datatype Result<T> = Ok(value: T) | Err(error: Error)

  /**
   * The number of points of the n-variable boolean hypercube, `1 << n`: the
   * length of an n-variable table. It exceeds n.
   */
  function Pow2(n: nat): (r: nat)
    ensures r > n
  {
    if n == 0 then 1 else 2 * Pow2(n - 1)
  }

  function Min(x: nat, y: nat): nat {
    if x <= y then x else y
  }

  /**
   * sum_ab: the entrywise sum of two zipped tables (zip stops at the shorter
   * one). Each entry is the element from which subtracting b gives back a.
   */
  function SumTable(p: Prime, a: Table, b: Table): (r: Table)
    ensures |r| == Min(|a|, |b|)
    ensures forall i :: 0 <= i < |r| ==> r[i] < p && Sub(p, r[i], b[i]) == a[i] % p
  {
    var r := seq(Min(|a|, |b|), i requires 0 <= i < Min(|a|, |b|) => Add(p, a[i], b[i]));
    assert forall i :: 0 <= i < |r| ==> Sub(p, r[i], b[i]) == a[i] % p by {
      forall i | 0 <= i < |r| {
        AddThenSub(p, a[i], b[i]);
      }
    }
    r
  }

  /**
   * sum_ci: the entrywise `-c + input` of two zipped tables. Each entry is the
   * element to which adding c gives back the input.
   */
  function NegSumTable(p: Prime, c: Table, input: Table): (r: Table)
    ensures |r| == Min(|c|, |input|)
    ensures forall i :: 0 <= i < |r| ==> r[i] < p && Add(p, r[i], c[i]) == input[i] % p
  {
    var r := seq(Min(|c|, |input|), i requires 0 <= i < Min(|c|, |input|) => Add(p, Neg(p, c[i]), input[i]));
    assert forall i :: 0 <= i < |r| ==> Add(p, r[i], c[i]) == input[i] % p by {
      forall i | 0 <= i < |r| {
        SubThenAdd(p, input[i], c[i]);
      }
    }
    r
  }

  /** The blinded term `w + beta * sigma + gamma` of the permutation argument. */
  function Blind(p: Prime, w: nat, sigma: nat, beta: nat, gamma: nat): nat {
    Add(p, Add(p, w, Mul(p, beta, sigma)), gamma)
  }

  /** With beta = gamma = 0 the blinded term of a zero wire value is zero, whatever the label. */
  lemma BlindOfZero(p: Prime, sigma: nat)
    ensures Blind(p, 0, sigma, 0, 0) == 0
  {
    assert 0 * sigma == 0;
    Reduced(p, 0);
  }

  /**
   * The grand-product term at every point below `count`: the product of the
   * three blinded wire terms, each wire with its own label table. num takes the
   * permutation labels, den takes the identity label for all three wires.
   */
  function WireProduct(p: Prime, count: nat, a: Table, b: Table, c: Table,
                       la: Table, lb: Table, lc: Table, beta: nat, gamma: nat): (r: Table)
    requires |a| >= count && |b| >= count && |c| >= count
    requires |la| >= count && |lb| >= count && |lc| >= count
    ensures |r| == count
    ensures forall i :: 0 <= i < count ==> r[i] < p
    ensures forall i :: 0 <= i < count ==>
      (r[i] == 0 <==> (Blind(p, a[i], la[i], beta, gamma) == 0
                       || Blind(p, b[i], lb[i], beta, gamma) == 0
                       || Blind(p, c[i], lc[i], beta, gamma) == 0))
  {
    var r := seq(count, i requires 0 <= i < count =>
      Mul(p, Mul(p, Blind(p, a[i], la[i], beta, gamma), Blind(p, b[i], lb[i], beta, gamma)),
          Blind(p, c[i], lc[i], beta, gamma)));
    forall i | 0 <= i < count
      ensures r[i] == 0 <==> (Blind(p, a[i], la[i], beta, gamma) == 0
                              || Blind(p, b[i], lb[i], beta, gamma) == 0
                              || Blind(p, c[i], lc[i], beta, gamma) == 0)
    {
      ProductZeroIff(p, Blind(p, a[i], la[i], beta, gamma), Blind(p, b[i], lb[i], beta, gamma),
                     Blind(p, c[i], lc[i], beta, gamma));
    }
    r
  }

  /** A product of three field elements is zero exactly when one factor is. */
  lemma ProductZeroIff(p: Prime, x: nat, y: nat, z: nat)
    requires x < p && y < p && z < p
    ensures Mul(p, Mul(p, x, y), z) == 0 <==> (x == 0 || y == 0 || z == 0)
  {
    Reduced(p, x);
    Reduced(p, y);
    Reduced(p, z);
    NoZeroDivisors(p, x, y);
    var xy := Mul(p, x, y);
    Reduced(p, xy);
    NoZeroDivisors(p, xy, z);
  }

  /**
   * h: the entrywise quotient num / den of two zipped tables. The field's
   * division fails on a zero divisor, so the whole table fails at the first
   * zero entry of den; otherwise each entry times den is num.
   */
  function Quotients(p: Prime, num: Table, den: Table): (r: Result<Table>)
    decreases |num|
    ensures r.Ok? <==> forall i :: 0 <= i < Min(|num|, |den|) ==> den[i] % p != 0
    ensures r.Ok? ==> |r.value| == Min(|num|, |den|)
    ensures r.Ok? ==> forall i :: 0 <= i < |r.value| ==>
      r.value[i] < p && Mul(p, r.value[i], den[i]) == num[i] % p
    ensures r.Err? ==> r.error.index < Min(|num|, |den|) && den[r.error.index] % p == 0
    ensures r.Err? ==> forall j :: 0 <= j < r.error.index ==> den[j] % p != 0
  {
    if |num| == 0 || |den| == 0 then Ok([])
    else
      match Div(p, num[0], den[0])
      case None => Err(DivisionByZero(0))
      case Some(q) =>
        match Quotients(p, num[1..], den[1..])
        case Err(e) => Err(DivisionByZero(e.index + 1))
        case Ok(rest) => Ok([q] + rest)
  }

  /** For reduced tables of equal length, a successful h has that length and h * den == num exactly. */
  lemma QuotientsRatio(p: Prime, num: Table, den: Table)
    requires |num| == |den| && Quotients(p, num, den).Ok?
    requires forall i :: 0 <= i < |num| ==> num[i] < p && den[i] < p
    ensures var h := Quotients(p, num, den).value;
      && |h| == |num|
      && forall i :: 0 <= i < |num| ==> den[i] != 0 && Mul(p, h[i], den[i]) == num[i]
  {
    forall i | 0 <= i < |num|
      ensures num[i] % p == num[i] && den[i] % p == den[i]
    {
      Reduced(p, num[i]);
      Reduced(p, den[i]);
    }
  }

  lemma FirstDenominatorZero(p: Prime, num: Table, den: Table)
    requires |num| > 0 && |den| > 0 && den[0] == 0
    ensures Quotients(p, num, den) == Err(DivisionByZero(0))
  {
  }

  /** h is the only table whose entries times den give num. */
  lemma {:induction false} QuotientsUnique(p: Prime, num: Table, den: Table, h: Table)
    requires |h| == Min(|num|, |den|)
    requires forall i :: 0 <= i < |h| ==> den[i] % p != 0 && h[i] < p && Mul(p, h[i], den[i]) == num[i] % p
    ensures Quotients(p, num, den) == Ok(h)
  {
    if |num| != 0 && |den| != 0 {
      var t := h[1..];
      forall i | 0 <= i < |t|
        ensures den[1..][i] % p != 0 && t[i] < p && Mul(p, t[i], den[1..][i]) == num[1..][i] % p
      {
        assert t[i] == h[i + 1] && den[1..][i] == den[i + 1] && num[1..][i] == num[i + 1];
      }
      QuotientsUnique(p, num[1..], den[1..], t);
      QuotientUnique(p, num[0], den[0], h[0]);
      Reduced(p, h[0]);
      assert h == [h[0]] + t;
    }
  }

  /** A table divided by itself, with no zero entry, is the all-ones table. */
  lemma UnitQuotients(p: Prime, t: Table)
    requires forall i :: 0 <= i < |t| ==> t[i] % p != 0
    ensures Quotients(p, t, t) == Ok(seq(|t|, i => 1))
  {
    QuotientsUnique(p, t, t, seq(|t|, i => 1));
  }

  /**
   * The gate polynomial F = eq * (q1 * (a + b) + q2 * a * b - c + I) at one point,
   * evaluated over the integers and reduced once.
   */
  function GateValue(p: Prime, eq: nat, q1: nat, q2: nat, a: nat, b: nat, c: nat, input: nat): nat {
    (eq * (q1 * (a + b) + q2 * a * b - c + input)) % p
  }

  /**
   * With the helper entries sum_ab = a + b and sum_ci = -c + I, the field
   * expression eq * (q1 * sum_ab + q2 * a * b + sum_ci) is F at that point.
   */
  lemma GateFactors(p: Prime, eq: nat, q1: nat, q2: nat, a: nat, b: nat, c: nat, input: nat)
    ensures Mul(p, eq, Add(p, Add(p, Mul(p, q1, Add(p, a, b)), Mul(p, Mul(p, q2, a), b)),
                          Add(p, Neg(p, c), input)))
         == GateValue(p, eq, q1, q2, a, b, c, input)
  {
    var ab := Add(p, a, b);
    Reduced(p, ab);
    var x := Mul(p, q1, ab);
    MulCongruent(q1, ab, q1, a + b, p);
    Reduced(p, x);
    var q2a := Mul(p, q2, a);
    Reduced(p, q2a);
    var y := Mul(p, q2a, b);
    MulCongruent(q2a, b, q2 * a, b, p);
    Reduced(p, y);
    var nc := Neg(p, c);
    NegCongruent(p, c);
    var z := Add(p, nc, input);
    AddCongruent(nc, input, 0 - c as int, input, p);
    Reduced(p, z);
    CombineCongruent(p, eq, x, y, z, q1 * (a + b), q2 * a * b, (0 - c as int) + input);
  }

  lemma CombineCongruent(p: Prime, eq: nat, x: nat, y: nat, z: nat, X: int, Y: int, Z: int)
    requires x % p == X % p && y % p == Y % p && z % p == Z % p
    ensures Mul(p, eq, Add(p, Add(p, x, y), z)) == (eq * (X + Y + Z)) % p
  {
    var s := Add(p, x, y);
    AddCongruent(x, y, X, Y, p);
    Reduced(p, s);
    var t := Add(p, s, z);
    AddCongruent(s, z, X + Y, Z, p);
    Reduced(p, t);
    MulCongruent(eq, t, eq, X + Y + Z, p);
  }

  lemma NegCongruent(p: Prime, c: nat)
    ensures Neg(p, c) % p == (0 - c as int) % p
  {
    var n := Neg(p, c);
    var k := (c + n) / p;
    assert (c + n) % p == 0;
    assert c + n == k * p;
    AddMultiple(0 - c as int, k, p);
    assert (0 - c as int) + k * p == n;
  }
}
