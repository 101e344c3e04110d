/** Broken rhythm: A>B lengthens one of two equal notes or chords and shortens the other. */
module BrokenRhythm {
  import opened Fractions
  import opened Tune
  import opened Ties
  import opened Grace
  import opened GracePass

  datatype Ratio = Ratio(a: int, b: int)

  predicate RatioOk(r: Ratio) {
    r.a > 0 && r.b > 0
  }

  /** %%MIDI ratio with these two numbers. The test for an odd sum looks only at the second of them. */
  function RatioSet(a: int, b: int): (r: Ratio)
    requires a > 0 && b > 0
  {
    if a + CMod(b, 2) == 1 then Ratio(2 * a, 2 * b) else Ratio(a, b)
  }

  /** The multipliers of the first and the second note, over half their sum. */
  function Multipliers(mult: nat, lt: bool, r: Ratio): (m: (int, int))
    requires 1 <= mult <= 3 && RatioOk(r)
    ensures m.0 > 0 && m.1 > 0
  {
    var (x, y) := if mult == 1 then (r.b, r.a) else if mult == 2 then (7, 1) else (15, 1);
    if lt then (y, x) else (x, y)
  }

  function Scaled(f: Feature, n: int, d: int): (g: Feature)
    requires LengthOk(f) && n > 0 && d > 0
  {
    if HasLength(f.kind) then
      ProductPositive(f.denom, d);
      WithLength(f, Reduced(Times(Length(f), Frac(n, d))))
    else f
  }

  /** The last and the current note or chord, by position; -1 for none. */
  datatype Pair = Pair(laststart: int, lastend: int, thisstart: int, thisend: int)

  predicate Complete(p: Pair, n: nat) {
    0 <= p.laststart <= p.lastend < p.thisstart <= p.thisend < n
  }

  predicate Missing(p: Pair) {
    p.laststart == -1 || p.lastend == -1 || p.thisstart == -1 || p.thisend == -1
  }

  /** The two begin with equal lengths. */
  predicate EqualLengths(t: Features, p: Pair)
    requires Complete(p, |t|)
  {
    t[p.laststart].num * t[p.thisstart].denom == t[p.thisstart].num * t[p.laststart].denom
  }

  /** Scaled up to p and to q. */
  ghost predicate ScaledTo(t: Features, u: Features, pair: Pair, m: (int, int), p: int, q: int)
    requires Complete(pair, |t|) && (forall k :: 0 <= k < |t| ==> LengthOk(t[k])) && m.0 > 0 && m.1 > 0
  {
    var d := CDiv(m.0 + m.1, 2);
    && |u| == |t|
    && forall k :: 0 <= k < |t| ==>
         u[k] == if pair.laststart <= k < p then Scaled(t[k], m.0, d)
                 else if pair.thisstart <= k < q then Scaled(t[k], m.1, d) else t[k]
  }

  /** brokenadjust */
  method BrokenAdjust(a: array<Feature>, pair: Pair, mult: nat, lt: bool, r: Ratio) returns (failed: bool)
    requires 1 <= mult <= 3 && RatioOk(r) && (Missing(pair) || Complete(pair, a.Length))
    requires forall k :: 0 <= k < a.Length ==> LengthOk(a[k])
    modifies a
    ensures failed <==> Missing(pair) || !EqualLengths(old(a[..]), pair)
    ensures failed ==> a[..] == old(a[..])
    ensures !failed ==>
              ScaledTo(old(a[..]), a[..], pair, Multipliers(mult, lt, r), pair.lastend + 1, pair.thisend + 1)
  {
    var num1, num2;
    if mult == 1 {
      num1, num2 := r.b, r.a;
    } else if mult == 2 {
      num1, num2 := 7, 1;
    } else {
      num1, num2 := 15, 1;
    }
    var denom12 := CDiv(num1 + num2, 2);
    if lt {
      num1, num2 := num2, num1;
    }
    failed := Missing(pair)
      || a[pair.laststart].num * a[pair.thisstart].denom != a[pair.thisstart].num * a[pair.laststart].denom;
    if failed {
      return;
    }
    ghost var t, m := a[..], Multipliers(mult, lt, r);
    var j := pair.laststart;
    while j <= pair.lastend
      invariant pair.laststart <= j <= pair.lastend + 1
      invariant ScaledTo(t, a[..], pair, m, j, pair.thisstart)
    {
      assert a[j] == a[..][j] == t[j] && LengthOk(t[j]);
      LenMul(a, j, Frac(num1, denom12));
      j := j + 1;
    }
    j := pair.thisstart;
    while j <= pair.thisend
      invariant pair.thisstart <= j <= pair.thisend + 1
      invariant ScaledTo(t, a[..], pair, m, pair.lastend + 1, j)
    {
      assert a[j] == a[..][j] == t[j] && LengthOk(t[j]);
      LenMul(a, j, Frac(num2, denom12));
      j := j + 1;
    }
  }

  // ---------- What broken rhythm keeps ----------

  ghost function Len(f: Feature): (r: real)
    requires HasLength(f.kind) && LengthOk(f)
  {
    Length(f).Val()
  }

  lemma ScaledVal(f: Feature, n: int, d: int)
    requires HasLength(f.kind) && LengthOk(f) && n > 0 && d > 0
    ensures LengthOk(Scaled(f, n, d)) && Len(Scaled(f, n, d)) == Len(f) * Frac(n, d).Val()
  {
    TimesVal(Length(f), Frac(n, d));
  }

  /** Half the sum, rounded down, is half the sum exactly when that is even. */
  lemma Shares(m: (int, int), d: int, l: real, l0: real, l1: real)
    requires m.0 > 0 && m.1 > 0 && l > 0.0 && d == CDiv(m.0 + m.1, 2) > 0
    requires l0 == l * Frac(m.0, d).Val() && l1 == l * Frac(m.1, d).Val()
    ensures l0 * m.1 as real == l1 * m.0 as real
    ensures l0 + l1 == l + l <==> (m.0 + m.1) % 2 == 0
  {
    var x, y, z := m.0 as real, m.1 as real, d as real;
    assert (m.0 + m.1) as real == x + y;
    assert l * (x / z) + l * (y / z) == l * ((x + y) / z);
    assert (m.0 + m.1) % 2 == 0 <==> m.0 + m.1 == 2 * d;
    assert (2 * d) as real == 2.0 * z;
    SumIsTwo(x + y, z, l);
    assert l * (x / z) * y == l * (y / z) * x;
  }

  lemma SumIsTwo(s: real, z: real, l: real)
    requires z > 0.0 && l > 0.0
    ensures l * (s / z) == l + l <==> s == 2.0 * z
  {
    var r := s / z;
    assert s == z * r;
    TwiceIff(l, r);
    TwiceIff(z, r);
  }

  lemma TwiceIff(l: real, r: real)
    requires l > 0.0
    ensures l * r == l + l <==> r == 2.0
  {
    assert l * r == l + l + l * (r - 2.0);
    if r != 2.0 {
      assert l * (r - 2.0) != 0.0;
    }
  }

  /** Of two notes, or of two chords member by member, as long as each other: their lengths are afterwards
      as the multipliers, and together what they were exactly when the multipliers add up to an even number. */
  lemma BrokenKeepsPair(t: Features, u: Features, pair: Pair, m: (int, int), i: nat, j: nat)
    requires Complete(pair, |t|) && (forall k :: 0 <= k < |t| ==> LengthOk(t[k])) && m.0 > 0 && m.1 > 0
    requires ScaledTo(t, u, pair, m, pair.lastend + 1, pair.thisend + 1)
    requires pair.laststart <= i <= pair.lastend && pair.thisstart <= j <= pair.thisend
    requires HasLength(t[i].kind) && HasLength(t[j].kind) && Len(t[i]) == Len(t[j])
    ensures u[i].kind == t[i].kind && LengthOk(u[i]) && u[j].kind == t[j].kind && LengthOk(u[j])
    ensures Shared(Len(u[i]), Len(u[j]), Len(t[i]), Len(t[j]), m)
  {
    PairScaled(t[i], t[j], m);
  }

  /** Lengths l and l' have become x and y. */
  ghost predicate Shared(x: real, y: real, l: real, l': real, m: (int, int)) {
    x * m.1 as real == y * m.0 as real && (x + y == l + l' <==> (m.0 + m.1) % 2 == 0)
  }

  lemma PairScaled(x: Feature, y: Feature, m: (int, int))
    requires HasLength(x.kind) && LengthOk(x) && HasLength(y.kind) && LengthOk(y) && Len(x) == Len(y)
    requires m.0 > 0 && m.1 > 0
    ensures var d := CDiv(m.0 + m.1, 2);
            && d > 0 && LengthOk(Scaled(x, m.0, d)) && LengthOk(Scaled(y, m.1, d))
            && Shared(Len(Scaled(x, m.0, d)), Len(Scaled(y, m.1, d)), Len(x), Len(y), m)
  {
    var d := CDiv(m.0 + m.1, 2);
    Positive(Length(x));
    ScaledVal(x, m.0, d);
    ScaledVal(y, m.1, d);
    Shares(m, d, Len(x), Len(Scaled(x, m.0, d)), Len(Scaled(y, m.1, d)));
  }

  /** How many times as long as the other one note becomes: under a ratio of 2 to 6, as the program begins with,
      three times, and seven and fifteen times for two and three signs. */
  function TimesLonger(mult: nat, r: Ratio): (k: real)
    requires r.a > 0
  {
    if mult == 1 then r.b as real / r.a as real else if mult == 2 then 7.0 else 15.0
  }

  /** The first of two notes of length l has come to be of length x, the second y: > makes the first one longer,
      < the second. */
  ghost predicate GoesLonger(x: real, y: real, l: real, mult: nat, lt: bool, r: Ratio)
    requires r.a > 0
  {
    && (if lt then y == TimesLonger(mult, r) * x else x == TimesLonger(mult, r) * y)
    && (mult == 1 && r == Ratio(2, 6) ==> (if lt then y == 3.0 * x else x == 3.0 * y) && x + y == 2.0 * l)
  }

  /** Of two equal notes, or of two chords member by member. */
  lemma BrokenWay(t: Features, u: Features, pair: Pair, mult: nat, lt: bool, r: Ratio, i: nat, j: nat)
    requires Complete(pair, |t|) && (forall k :: 0 <= k < |t| ==> LengthOk(t[k])) && 1 <= mult <= 3 && RatioOk(r)
    requires ScaledTo(t, u, pair, Multipliers(mult, lt, r), pair.lastend + 1, pair.thisend + 1)
    requires pair.laststart <= i <= pair.lastend && pair.thisstart <= j <= pair.thisend
    requires HasLength(t[i].kind) && HasLength(t[j].kind) && Len(t[i]) == Len(t[j])
    ensures HasLength(u[i].kind) && LengthOk(u[i]) && HasLength(u[j].kind) && LengthOk(u[j])
    ensures GoesLonger(Len(u[i]), Len(u[j]), Len(t[i]), mult, lt, r)
  {
    PairWay(t[i], t[j], mult, lt, r);
  }

  lemma PairWay(x: Feature, y: Feature, mult: nat, lt: bool, r: Ratio)
    requires HasLength(x.kind) && LengthOk(x) && HasLength(y.kind) && LengthOk(y) && Len(x) == Len(y)
    requires 1 <= mult <= 3 && RatioOk(r)
    ensures var m := Multipliers(mult, lt, r);
            var d := CDiv(m.0 + m.1, 2);
            && d > 0 && LengthOk(Scaled(x, m.0, d)) && LengthOk(Scaled(y, m.1, d))
            && GoesLonger(Len(Scaled(x, m.0, d)), Len(Scaled(y, m.1, d)), Len(x), mult, lt, r)
  {
    var m := Multipliers(mult, lt, r);
    var d := CDiv(m.0 + m.1, 2);
    PairScaled(x, y, m);
    WayOfLengths(Len(Scaled(x, m.0, d)), Len(Scaled(y, m.1, d)), Len(x), mult, lt, r);
  }

  lemma WayOfLengths(x: real, y: real, l: real, mult: nat, lt: bool, r: Ratio)
    requires 1 <= mult <= 3 && RatioOk(r) && Shared(x, y, l, l, Multipliers(mult, lt, r))
    ensures GoesLonger(x, y, l, mult, lt, r)
  {
    var m := Multipliers(mult, lt, r);
    if lt {
      Quotient(y, x, m.1, m.0);
    } else {
      Quotient(x, y, m.0, m.1);
    }
  }

  lemma Quotient(x: real, y: real, n: int, d: int)
    requires d > 0 && x * d as real == y * n as real
    ensures x == n as real / d as real * y
  {
    var q := n as real / d as real;
    assert n as real == q * d as real;
    assert (x - q * y) * d as real == 0.0;
  }

  /** The multipliers add up to an even number but for a single > or < under a ratio with an odd sum, which
      the ratio command mends only when its first number is 1. */
  lemma RatioEvenIff(a: int, b: int, mult: nat, lt: bool)
    requires a > 0 && b > 0 && 1 <= mult <= 3
    ensures RatioOk(RatioSet(a, b))
    ensures var m := Multipliers(mult, lt, RatioSet(a, b));
            (m.0 + m.1) % 2 == 0 <==> (mult > 1 || (a + b) % 2 == 0 || a == 1)
  {
  }
}
