/** A guitar-chord pattern read from its text. */
module GchordPattern {
  import opened Fractions
  import opened Clock
  import opened Numerals

  const MAXSTEPS := 39

  /** An action: silence, chord, fundamental, both, a single note of the chord, or no default pattern. */
  predicate IsCode(c: char) {
    || c == 'z' || c == 'c' || c == 'f' || c == 'b' || c == 'x'
    || 'g' <= c <= 'j' || 'G' <= c <= 'J'
  }

  datatype Step = Step(code: char, len: nat)

  /** The steps at the beginning of the text, up to the number there is room for. */
  function StepsOf(s: string, room: nat): (r: seq<Step>)
    ensures |r| <= room && (r == [] <==> room == 0 || s == "" || !IsCode(s[0]))
    decreases |s|
  {
    if s == "" || !IsCode(s[0]) || room == 0 then []
    else
      var n := Digits(s[1..]);
      [Step(s[0], if n > 0 then Value(s[1..][..n]) else 1)] + StepsOf(s[1 + n..], room - 1)
  }

  /** A step is read exactly where one of these letters stands. */
  lemma StepIff(s: string, room: nat)
    ensures StepsOf(s, room) != [] <==> room > 0 && s != "" && s[0] in "zcfbghijGHIJx"
    ensures StepsOf(s, room) != [] ==> StepsOf(s, room)[0].code == s[0]
  {
    var codes := "zcfbghijGHIJx";
    assert codes[0] == 'z' && codes[1] == 'c' && codes[2] == 'f' && codes[3] == 'b' && codes[4] == 'g';
    assert codes[5] == 'h' && codes[6] == 'i' && codes[7] == 'j' && codes[8] == 'G' && codes[9] == 'H';
    assert codes[10] == 'I' && codes[11] == 'J' && codes[12] == 'x';
  }

  /** A step and the digits written behind it. */
  datatype Written = Written(code: char, count: string)

  function Print(w: seq<Written>): (s: string) {
    if w == [] then "" else [w[0].code] + w[0].count + Print(w[1..])
  }

  predicate Legible(w: seq<Written>) {
    forall i :: 0 <= i < |w| ==> IsCode(w[i].code) && IsCount(w[i].count)
  }

  function StepMeant(w: Written): (r: Step)
    requires IsCount(w.count)
  {
    Step(w.code, if w.count == "" then 1 else Value(w.count))
  }

  function Meant(w: seq<Written>): (r: seq<Step>)
    requires Legible(w)
  {
    if w == [] then [] else [StepMeant(w[0])] + Meant(w[1..])
  }

  lemma FirstStep(w: Written, s: string, rest: string, room: nat)
    requires s == [w.code] + w.count + rest
    requires IsCode(w.code) && IsCount(w.count) && NoDigitFirst(rest) && room > 0
    ensures StepsOf(s, room) == [StepMeant(w)] + StepsOf(rest, room - 1)
  {
    assert s[1..] == w.count + rest;
    DigitsOf(w.count, rest);
    assert s[1 + |w.count|..] == rest;
  }

  lemma PrintFirst(w: seq<Written>, s: string, tail: string) returns (rest: string)
    requires w != [] && Legible(w) && (tail == "" || (!IsCode(tail[0]) && !IsDigit(tail[0])))
    requires s == Print(w) + tail
    ensures s == [w[0].code] + w[0].count + rest && rest == Print(w[1..]) + tail
    ensures NoDigitFirst(rest) && Legible(w[1..])
  {
    rest := Print(w[1..]) + tail;
  }

  /** Reading what was printed gives the steps back. */
  lemma {:induction false} StepsReadBack(w: seq<Written>, s: string, tail: string, room: nat)
    requires Legible(w) && |w| <= room && (tail == "" || (!IsCode(tail[0]) && !IsDigit(tail[0])))
    requires s == Print(w) + tail
    ensures StepsOf(s, room) == Meant(w)
    decreases |w|
  {
    if w == [] {
      assert s == tail;
    } else {
      var rest := PrintFirst(w, s, tail);
      FirstStep(w[0], s, rest, room);
      StepsReadBack(w[1..], rest, tail, room - 1);
      assert StepsOf(s, room) == [StepMeant(w[0])] + Meant(w[1..]);
    }
  }

  function Codes(r: seq<Step>): (s: string)
    ensures |s| == |r|
  {
    seq(|r|, i requires 0 <= i < |r| => r[i].code)
  }

  function Lens(r: seq<Step>): (s: seq<nat>)
    ensures |s| == |r|
  {
    seq(|r|, i requires 0 <= i < |r| => r[i].len)
  }

  function Sum(s: seq<nat>): (n: nat) {
    if s == [] then 0 else Sum(s[..|s| - 1]) + s[|s| - 1]
  }

  /** The units the pattern takes, as set_gchords counts them: at least one. */
  function Units(r: seq<Step>): (n: nat)
    ensures n > 0
  {
    if Sum(Lens(r)) == 0 then 1 else Sum(Lens(r))
  }

  /** Steps without any length become a rest of one unit; a text without a step leaves no step at all. */
  function Mended(r: seq<Step>): (m: seq<Step>)
    ensures |m| == |r|
  {
    if r != [] && Sum(Lens(r)) == 0 then [Step('z', 1)] + r[1..] else r
  }

  datatype Meter = Meter(num: int, denom: int, bars: int)

  predicate MeterOk(m: Meter) {
    m.num > 0 && m.denom > 0 && m.bars > 0
  }

  function PatternOf(r: seq<Step>, m: Meter): (p: Pattern)
    requires MeterOk(m)
    ensures p.Valid()
  {
    var f := Unit(m, Units(r));
    UnitOk(m, Units(r));
    Pattern(Codes(Mended(r)), Lens(Mended(r)), f.num, f.denom)
  }

  function Unit(m: Meter, units: nat): (f: Frac)
    requires m.denom > 0 && units > 0
  {
    assert m.denom * units > 0;
    Reduced(Frac(m.num * 4 * m.bars, m.denom * units))
  }

  lemma UnitOk(m: Meter, units: nat)
    requires MeterOk(m) && units > 0
    ensures var f := Unit(m, units);
            && f.Ok() && f.num >= 0
            && f.Val() * units as real == (4 * m.num * m.bars) as real / m.denom as real
  {
    var x := m.num * 4 * m.bars;
    var f := Frac(x, m.denom * units);
    assert x > 0 by { assert m.num * 4 > 0; }
    assert m.denom * units > 0;
    ReduceSound(f);
    Cancel(x, m.denom, units);
    assert x == 4 * m.num * m.bars;
    NonNegative(Reduced(f), f);
  }

  lemma NonNegative(r: Frac, f: Frac)
    requires r.Ok() && f.Ok() && f.num >= 0 && r.Val() == f.Val()
    ensures r.num >= 0
  {
    CrossMultiplied(r, f);
    assert f.num * r.denom >= 0;
    SignOf(r.num, f.denom);
  }

  lemma SignOf(a: int, b: int)
    requires b > 0
    ensures a * b >= 0 ==> a >= 0
  {
    if a < 0 {
      assert a * b < 0;
    }
  }

  lemma Cancel(x: int, d: int, u: nat)
    requires d > 0 && u > 0
    ensures d * u > 0
    ensures Frac(x, d * u).Val() * u as real == x as real / d as real
  {
    var a, b, k := x as real, d as real, u as real;
    assert (d * u) as real == b * k;
    assert (a / (b * k)) * k == a / b;
  }

  /** The quarter notes that the steps of a pattern take. */
  ghost function Fills(p: Pattern): (t: real)
    requires p.Valid()
  {
    Sum(p.len) as real * Frac(p.num, p.denom).Val()
  }

  lemma FillsUnlessEmpty(r: seq<Step>, m: Meter)
    requires MeterOk(m)
    ensures Fills(PatternOf(r, m)) == if r == [] then 0.0 else (4 * m.num * m.bars) as real / m.denom as real
  {
    UnitOk(m, Units(r));
    MendedSum(r);
  }

  /** A pattern fills its bars exactly, unless, and only unless, the text begins with no step at all. */
  lemma PatternFillsBars(s: string, m: Meter)
    requires MeterOk(m)
    ensures Fills(PatternOf(StepsOf(s, MAXSTEPS), m)) == (4 * m.num * m.bars) as real / m.denom as real
            <==> (s != "" && IsCode(s[0]))
  {
    FillsUnlessEmpty(StepsOf(s, MAXSTEPS), m);
    BarsPositive(m);
  }

  lemma BarsPositive(m: Meter)
    requires MeterOk(m)
    ensures (4 * m.num * m.bars) as real / m.denom as real > 0.0
  {
    assert 4 * m.num * m.bars > 0 by { assert 4 * m.num > 0; }
  }

  lemma MendedSum(r: seq<Step>)
    ensures Sum(Lens(Mended(r))) == if r == [] then 0 else Units(r)
  {
    if r != [] && Sum(Lens(r)) == 0 {
      FirstOnly(Lens(r), 1);
      assert Lens(Mended(r)) == [1] + Lens(r)[1..];
    }
  }

  lemma {:induction false} FirstOnly(s: seq<nat>, x: nat)
    requires s != [] && Sum(s) == 0
    ensures Sum([x] + s[1..]) == x
    decreases |s|
  {
    var n := |s| - 1;
    if n > 0 {
      FirstOnly(s[..n], x);
      assert ([x] + s[1..])[..n] == [x] + s[..n][1..];
    } else {
      assert [x] + s[1..] == [x];
      assert [x][..0] == [];
    }
  }

  /** The first of the steps from i on is x, and the others are those from i' on. */
  ghost predicate Taken(s: string, i: nat, room: nat, x: Step, i': nat) {
    i <= i' <= |s| && room > 0 && StepsOf(s[i..], room) == [x] + StepsOf(s[i'..], room - 1)
  }

  /** One step: its code, and the count behind it or 1. */
  method TakeStep(s: string, i: nat, ghost room: nat) returns (code: char, len: nat, i': nat)
    requires i < |s| && IsCode(s[i]) && room > 0
    ensures i < i' <= |s| && Taken(s, i, room, Step(code, len), i')
  {
    code, len, i' := s[i], 1, i + 1;
    ghost var rest := s[i..];
    assert rest[1..] == s[i'..];
    if IsDigit(Numerals.At(s, i')) {
      len, i' := ReadNumP(s, i');
    }
    assert rest[1 + Digits(rest[1..])..] == s[i'..];
  }

  lemma Snoc(r: seq<Step>, x: Step)
    ensures Codes(r + [x]) == Codes(r) + [x.code] && Lens(r + [x]) == Lens(r) + [x.len]
    ensures Sum(Lens(r + [x])) == Sum(Lens(r)) + x.len
  {
    assert (Lens(r) + [x.len])[..|r|] == Lens(r);
  }

  lemma AssocSteps(a: seq<Step>, x: Step, b: seq<Step>)
    ensures a + ([x] + b) == a + [x] + b
  {
  }

  method StoreStep(gchord_seq: array<char>, gchord_len: array<nat>, j: nat, x: Step, ghost r: seq<Step>)
    requires j < gchord_seq.Length == gchord_len.Length && |r| == j
    requires gchord_seq[..j] == Codes(r) && gchord_len[..j] == Lens(r)
    modifies gchord_seq, gchord_len
    ensures gchord_seq[..j + 1] == Codes(r + [x]) && gchord_len[..j + 1] == Lens(r + [x])
    ensures Sum(Lens(r + [x])) == Sum(Lens(r)) + x.len
  {
    gchord_seq[j], gchord_len[j] := x.code, x.len;
    Snoc(r, x);
    assert gchord_seq[..j + 1] == gchord_seq[..j] + [x.code];
    assert gchord_len[..j + 1] == gchord_len[..j] + [x.len];
  }

  /** The steps of the text, and the units they take. */
  method ReadSteps(s: string, gchord_seq: array<char>, gchord_len: array<nat>, ghost room: nat)
      returns (j: nat, seq_len: nat, ghost r: seq<Step>)
    requires gchord_seq.Length == gchord_len.Length == 40 && room == MAXSTEPS
    modifies gchord_seq, gchord_len
    ensures r == StepsOf(s, room) && |r| == j <= MAXSTEPS && seq_len == Sum(Lens(r))
    ensures gchord_seq[..j] == Codes(r) && gchord_len[..j] == Lens(r)
  {
    var i := 0;
    j, seq_len, r := 0, 0, [];
    ghost var all := StepsOf(s, room);
    assert s[0..] == s;
    while i < |s| && IsCode(s[i]) && j < MAXSTEPS
      invariant i <= |s| && j <= MAXSTEPS && |r| == j && seq_len == Sum(Lens(r))
      invariant gchord_seq[..j] == Codes(r) && gchord_len[..j] == Lens(r)
      invariant ReadTo(all, s, room, r, i)
      decreases |s| - i
    {
      var code, len, i' := TakeStep(s, i, room - |r|);
      ReadOn(all, s, room, r, i, Step(code, len), i');
      StoreStep(gchord_seq, gchord_len, j, Step(code, len), r);
      r := r + [Step(code, len)];
      seq_len := seq_len + len;
      i, j := i', j + 1;
    }
  }

  /** Of the steps all those in r have been read, up to i. */
  ghost predicate ReadTo(all: seq<Step>, s: string, room: nat, r: seq<Step>, i: nat) {
    i <= |s| && |r| <= room && all == r + StepsOf(s[i..], room - |r|)
  }

  lemma ReadOn(all: seq<Step>, s: string, room: nat, r: seq<Step>, i: nat, x: Step, i': nat)
    requires ReadTo(all, s, room, r, i) && |r| < room && Taken(s, i, room - |r|, x, i')
    ensures ReadTo(all, s, room, r + [x], i')
  {
    AssocSteps(r, x, StepsOf(s[i'..], room - |r| - 1));
  }

  /** set_gchords: the pattern, and whether it complained. */
  method SetGchords(s: string, m: Meter) returns (p: Pattern, bad: bool, long: bool)
    requires MeterOk(m)
    ensures p == PatternOf(StepsOf(s, MAXSTEPS), m)
    ensures bad <==> Sum(Lens(StepsOf(s, MAXSTEPS))) == 0
    ensures long <==> |StepsOf(s, MAXSTEPS)| == 39
  {
    var gchord_seq, gchord_len := new char[40](_ => '\0'), new nat[40](_ => 0);
    var j, seq_len;
    ghost var r;
    j, seq_len, r := ReadSteps(s, gchord_seq, gchord_len, MAXSTEPS);
    bad := seq_len == 0;
    if bad {
      gchord_seq[0], gchord_len[0] := 'z', 1;
      seq_len := 1;
    }
    assert gchord_seq[..j] == Codes(Mended(r)) && gchord_len[..j] == Lens(Mended(r));
    long := j == MAXSTEPS;
    assert m.denom * seq_len > 0;
    var num, denom := Reduce(m.num * 4 * m.bars, m.denom * seq_len);
    p := Pattern(gchord_seq[..j], gchord_len[..j], num, denom);
  }
}
