/** internal/jsutil/wrpc/network.go: `factorial` and `cnr`, the number of
    ways to choose r objects out of n.

    Go's `int` is 64 bits wide here; the model computes with unbounded
    integers, which agree with Go up to n = 20 (`Factorial20Fits`). */
module Network {

  /** `factorial(n)`: 1 below 1. Every factorial is at least 1. */
  function Factorial(n: int): (f: int)
    ensures f >= 1
    decreases if n < 0 then 0 else n
  {
    if n >= 1 then
      var g := Factorial(n - 1);
      MulAtLeast(n, g);
      n * g
    else 1
  }

  /** `cnr(n, r)`: n! / (r! (n - r)!), with Go's integer division (which
      agrees with Dafny's here, every operand being positive). */
  function Cnr(n: int, r: int): int
  {
    var d := Factorial(r) * Factorial(n - r);
    MulAtLeast(Factorial(r), Factorial(n - r));
    Factorial(n) / d
  }

  /** Pascal's rule, the reference definition of the binomial coefficient. */
  function Binomial(n: nat, r: nat): nat
  {
    if r == 0 || r == n then 1
    else if r > n then 0
    else Binomial(n - 1, r - 1) + Binomial(n - 1, r)
  }

  lemma MulAtLeast(a: int, b: int)
    requires a >= 1 && b >= 1
    ensures a * b >= a && a * b >= b
  {
  }

  /** n! is a multiple of every k from 1 to n. */
  lemma {:induction false} FactorialDivisible(n: int, k: int)
    requires 1 <= k <= n
    ensures Factorial(n) % k == 0
    decreases n
  {
    var g := Factorial(n - 1);
    assert Factorial(n) == n * g;
    if k == n {
      assert n * g == g * n;
      DivMultiple(g, n);
    } else {
      FactorialDivisible(n - 1, k);
      var q := g / k;
      assert g == q * k;
      assert n * g == (n * q) * k;
      DivMultiple(n * q, k);
    }
  }

  /** The arithmetic of one Pascal step: if b1 a' c = f and b2 a c' = f
      with a = r a' and c = (n - r) c', then (b1 + b2) a c = n f. */
  lemma PascalStep(n: int, r: int, b1: int, b2: int, a: int, a': int, c: int, c': int, f: int)
    requires b1 * a' * c == f && b2 * a * c' == f
    requires a == r * a' && c == (n - r) * c'
    ensures (b1 + b2) * a * c == n * f
  {
    calc {
      (b1 + b2) * a * c;
      b1 * a * c + b2 * a * c;
      b1 * (r * a') * c + b2 * a * ((n - r) * c');
      r * (b1 * a' * c) + (n - r) * (b2 * a * c');
      r * f + (n - r) * f;
      n * f;
    }
  }

  /** The binomial coefficient times r! (n - r)! is n!. */
  lemma {:induction false} BinomialFactorials(n: nat, r: nat)
    requires r <= n
    ensures Binomial(n, r) * Factorial(r) * Factorial(n - r) == Factorial(n)
    decreases n
  {
    if r != 0 && r != n {
      BinomialFactorials(n - 1, r - 1);
      BinomialFactorials(n - 1, r);
      assert n - 1 - (r - 1) == n - r;
      PascalStep(n, r, Binomial(n - 1, r - 1), Binomial(n - 1, r),
                 Factorial(r), Factorial(r - 1), Factorial(n - r), Factorial(n - 1 - r), Factorial(n - 1));
    }
  }

  /** Dividing a multiple of d by d is exact. */
  lemma DivMultiple(q: int, d: int)
    requires d > 0
    ensures (q * d) / d == q && (q * d) % d == 0
  {
    var a := q * d;
    var k := a / d;
    var m := a % d;
    assert a == d * k + m;
    assert d * (q - k) == m;
    MulSign(d, q - k);
  }

  lemma MulSign(d: int, t: int)
    requires d > 0
    ensures t >= 1 ==> d * t >= d
    ensures t <= -1 ==> d * t <= -d
  {
  }

  /** The quotient of n! by r! (n - r)! as plain integers. */
  lemma ExactQuotient(fn: int, b: int, fr: int, fnr: int)
    requires fr >= 1 && fnr >= 1 && b * fr * fnr == fn
    ensures fr * fnr > 0 && fn % (fr * fnr) == 0 && fn / (fr * fnr) == b
  {
    MulAtLeast(fr, fnr);
    assert fn == b * (fr * fnr);
    DivMultiple(b, fr * fnr);
  }

  /** For 0 <= r <= n the division in `cnr` is exact and yields the
      binomial coefficient. */
  lemma CnrExact(n: nat, r: nat)
    requires r <= n
    ensures Factorial(n) % (Factorial(r) * Factorial(n - r)) == 0
    ensures Cnr(n, r) == Binomial(n, r)
  {
    BinomialFactorials(n, r);
    ExactQuotient(Factorial(n), Binomial(n, r), Factorial(r), Factorial(n - r));
  }

  /** Choosing none or all of n objects can be done one way. */
  lemma CnrEnds(n: nat)
    ensures Cnr(n, 0) == 1 && Cnr(n, n) == 1
  {
    CnrExact(n, 0);
    CnrExact(n, n);
  }

  /** Choosing r is choosing the n - r left out. */
  lemma CnrSymmetric(n: nat, r: nat)
    requires r <= n
    ensures Cnr(n, r) == Cnr(n, n - r)
  {
    assert n - (n - r) == r;
  }

  /** 20! fits in a signed 64-bit integer and 21! does not: beyond n = 20
      the Go function overflows. */
  lemma Factorial20Fits()
    ensures Factorial(20) == 2432902008176640000 < 0x8000_0000_0000_0000
    ensures Factorial(21) >= 0x8000_0000_0000_0000
  {
    assert Factorial(5) == 120;
    assert Factorial(10) == 3628800;
    assert Factorial(15) == 1307674368000;
    assert Factorial(20) == 2432902008176640000;
  }
}
