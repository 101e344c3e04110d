/** Exact fractions as the tune code keeps them: an integer numerator over an integer denominator,
    brought to lowest terms after every operation. */
module Fractions {

  /** Integer division of C: the quotient is truncated toward zero. */
  function CDiv(a: int, b: int): (q: int)
    requires b != 0
  {
    if a >= 0 then a / b else -((-a) / b)
  }

  /** Remainder of C: it has the sign of the dividend. */
  function CMod(a: int, b: int): (r: int)
    requires b != 0
  {
    a - CDiv(a, b) * b
  }

  lemma CDivMod(a: int, b: int)
    requires b > 0
    ensures a == CDiv(a, b) * b + CMod(a, b)
    ensures -b < CMod(a, b) < b
    ensures a >= 0 ==> CDiv(a, b) >= 0 && CMod(a, b) >= 0
    ensures a <= 0 ==> CDiv(a, b) <= 0 && CMod(a, b) <= 0
  {
  }

  function Abs(a: int): (r: nat) {
    if a < 0 then -a else a
  }

  /** Euclid's algorithm on non-negative numbers. */
  function Gcd(n: nat, m: nat): (g: nat)
    decreases m
  {
    if m == 0 then n else Gcd(m, n % m)
  }

  ghost predicate Divides(d: int, a: int) {
    exists k :: d * k == a
  }

  lemma {:induction false} GcdDivides(n: nat, m: nat)
    ensures Divides(Gcd(n, m), n) && Divides(Gcd(n, m), m)
    ensures n != 0 || m != 0 ==> Gcd(n, m) > 0
    decreases m
  {
    if m == 0 {
      assert n * 1 == n && n * 0 == 0;
    } else {
      GcdDivides(m, n % m);
      CombineDivisors(Gcd(n, m), m, n % m, n / m);
      assert n == m * (n / m) + n % m;
    }
  }

  lemma CombineDivisors(g: int, m: int, r: int, k: int)
    requires Divides(g, m) && Divides(g, r)
    ensures Divides(g, m * k + r)
  {
    var i :| g * i == m;
    var j :| g * j == r;
    Combine(g, i, m, j, r, k);
  }

  /** A divisor of m and r divides m * k + r. */
  lemma Combine(g: int, i: int, m: int, j: int, r: int, k: int)
    requires g * i == m && g * j == r
    ensures Divides(g, m * k + r)
  {
    calc {
      g * (i * k + j);
      g * (i * k) + g * j;
      (g * i) * k + g * j;
      m * k + r;
    }
  }

  /** Every common divisor of n and m divides their Gcd. */
  lemma {:induction false} GcdGreatest(n: nat, m: nat, d: int)
    requires Divides(d, n) && Divides(d, m)
    ensures Divides(d, Gcd(n, m))
    decreases m
  {
    if m != 0 {
      CombineDivisors(d, m, n, -(n / m));
      GcdGreatest(m, n % m, d);
    }
  }

  lemma {:induction false} GcdSym(n: nat, m: nat)
    ensures Gcd(n, m) == Gcd(m, n)
  {
    if n < m {
      SmallMod(n, m);
    } else if m < n {
      SmallMod(m, n);
    }
  }

  lemma SmallMod(n: nat, m: nat)
    requires n < m
    ensures n % m == n
  {
  }

  datatype Frac = Frac(num: int, denom: int) {
    predicate Ok() {
      denom > 0
    }

    ghost function Val(): real
      requires denom != 0
    {
      num as real / denom as real
    }

    /** No integer above 1 divides both parts. */
    ghost predicate Lowest() {
      forall d: int :: d > 0 && Divides(d, num) && Divides(d, denom) ==> d == 1
    }
  }

  /** What reduce leaves behind: both parts divided by their greatest common divisor. */
  function Reduced(f: Frac): (r: Frac)
    requires f.denom >= 0 && (f.num != 0 || f.denom != 0)
  {
    var g := Gcd(Abs(f.num), f.denom);
    GcdDivides(Abs(f.num), f.denom);
    Frac(if f.num < 0 then -(-f.num / g) else f.num / g, f.denom / g)
  }

  lemma DivExact(g: int, k: int, a: int)
    requires g > 0 && g * k == a
    ensures a / g == k
  {
    var q := a / g;
    assert g * (k - q) == a % g;
    if k > q {
      MulGrows(g, k - q);
    } else if k < q {
      MulGrows(g, q - k);
    }
  }

  lemma MulGrows(g: int, k: int)
    requires g > 0 && k >= 1
    ensures g * k >= g && g * -k <= -g
  {
  }

  /** The two parts are those of the reduced fraction times a common factor. */
  lemma ReducedFactor(f: Frac) returns (g: int)
    requires f.denom >= 0 && (f.num != 0 || f.denom != 0)
    ensures g > 0 && g == Gcd(Abs(f.num), f.denom)
    ensures f.num == g * Reduced(f).num && f.denom == g * Reduced(f).denom
  {
    g := Gcd(Abs(f.num), f.denom);
    GcdDivides(Abs(f.num), f.denom);
    var i :| g * i == Abs(f.num);
    var j :| g * j == f.denom;
    DivExact(g, i, Abs(f.num));
    DivExact(g, j, f.denom);
  }

  lemma MulCancel(g: int, a: int, b: int)
    requires g > 0 && g * a == g * b
    ensures a == b
  {
  }

  /** reduce keeps the value, keeps the denominator positive and reaches lowest terms. */
  lemma ReduceSound(f: Frac)
    requires f.Ok()
    ensures Reduced(f).Ok() && Reduced(f).Lowest()
    ensures Reduced(f).num * f.denom == f.num * Reduced(f).denom
    ensures Reduced(f).Val() == f.Val()
  {
    var g := ReducedFactor(f);
    var r := Reduced(f);
    PositiveFactor(g, r.denom);
    forall d: int | d > 0 && Divides(d, r.num) && Divides(d, r.denom)
      ensures d == 1
    {
      ReducedCoprime(f, d);
    }
    assert r.num * (g * r.denom) == (g * r.num) * r.denom;
    CrossMultiplied(r, f);
  }

  lemma PositiveFactor(g: int, k: int)
    requires g > 0 && g * k > 0
    ensures k > 0
  {
  }

  lemma ReducedCoprime(f: Frac, d: int)
    requires f.Ok() && d > 0
    requires Divides(d, Reduced(f).num) && Divides(d, Reduced(f).denom)
    ensures d == 1
  {
    var g := ReducedFactor(f);
    var i :| d * i == Reduced(f).num;
    var j :| d * j == Reduced(f).denom;
    Multiply3(g, d, i);
    Multiply3(g, d, j);
    assert (g * d) * (if f.num < 0 then -i else i) == Abs(f.num);
    GcdGreatest(Abs(f.num), f.denom, g * d);
    var k :| (g * d) * k == g;
    Multiply3(g, d, k);
    MulCancel(g, d * k, 1);
    UnitDivisor(d, k);
  }

  lemma UnitDivisor(d: int, k: int)
    requires d > 0 && d * k == 1
    ensures d == 1
  {
    if d > 1 && k >= 1 {
      MulGrows(d, k);
    }
  }

  lemma Multiply3(g: int, d: int, i: int)
    ensures (g * d) * i == g * (d * i) && (g * d) * -i == -(g * (d * i))
  {
  }

  lemma CrossMultiplied(r: Frac, f: Frac)
    requires r.Ok() && f.Ok()
    ensures r.num * f.denom == f.num * r.denom <==> r.Val() == f.Val()
  {
    var a, b, c, d := r.num as real, r.denom as real, f.num as real, f.denom as real;
    assert a / b == c / d <==> a * d == c * b by {
      if a * d == c * b {
        assert a / b == (a * d) / (b * d) == (c * b) / (b * d) == c / d;
      }
      if a / b == c / d {
        assert a == (a / b) * b;
        assert c == (c / d) * d;
      }
    }
    assert (r.num * f.denom) as real == a * d;
    assert (f.num * r.denom) as real == c * b;
  }

  /** The sum over the product of the denominators. */
  lemma FracSum(e: Frac, f: Frac)
    requires e.Ok() && f.Ok()
    ensures e.denom * f.denom > 0
    ensures Frac(e.num * f.denom + f.num * e.denom, e.denom * f.denom).Val() == e.Val() + f.Val()
  {
    var a, b, c, d := e.num as real, e.denom as real, f.num as real, f.denom as real;
    assert (e.num * f.denom + f.num * e.denom) as real == a * d + c * b;
    assert (e.denom * f.denom) as real == b * d;
    assert (a * d + c * b) / (b * d) == a / b + c / d;
  }

  /** reduce, which changes its two arguments in place: here they are handed back. */
  method Reduce(a0: int, b0: int) returns (a: int, b: int)
    requires b0 >= 0 && (a0 != 0 || b0 != 0)
    ensures Frac(a, b) == Reduced(Frac(a0, b0))
  {
    var sign;
    a, b := a0, b0;
    if a < 0 {
      sign := -1;
      a := -a;
    } else {
      sign := 1;
    }
    var n, m;
    if a > b {
      n, m := a, b;
    } else {
      n, m := b, a;
    }
    GcdSym(a, b);
    while m != 0
      invariant 0 <= m && 0 <= n && (n != 0 || m != 0)
      invariant Gcd(n, m) == Gcd(a, b)
      decreases m
    {
      var t := n % m;
      n := m;
      m := t;
    }
    a := (a / n) * sign;
    b := b / n;
  }

  lemma SplitVal(x: int, b: int, q: int, r: int)
    requires b > 0 && x == q * b + r
    ensures x as real / b as real == q as real + Frac(r, b).Val()
  {
    assert x as real == q as real * b as real + r as real;
  }

  lemma UnitVal(f: Frac)
    requires f.Ok() && -f.denom < f.num < f.denom
    ensures -1.0 < f.Val() < 1.0
    ensures f.num >= 0 ==> f.Val() >= 0.0
  {
  }
}
