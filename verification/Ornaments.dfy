/** Trills and rolls: a decorated note is replaced by the notes of its ornament. */
module Ornaments {
  import opened Fractions
  import opened Tune
  import opened Ties
  import opened Grace

  // ---------- The table of features ----------

  /** The feature arrays with the number of features in use. */
  class FeatureTable {
    var a: array<Feature>
    var notes: nat

    ghost predicate Valid()
      reads this
    {
      notes < a.Length
    }

    ghost function Contents(): (t: Features)
      reads this, a
      requires Valid()
    {
      a[..notes]
    }

    constructor ()
      ensures Valid() && Contents() == [] && fresh(a)
    {
      a := new Feature[500](_ => Feature(Plain, 0, 0, 0, 0, 0, 0, 0, ""));
      notes := 0;
    }

    /** autoextend */
    method Extend()
      requires a.Length > 0
      modifies this`a
      ensures a.Length == 2 * old(a.Length) && fresh(a) && a[..old(a.Length)] == old(a[..])
    {
      var was := a;
      var b := new Feature[2 * a.Length](_ => Feature(Plain, 0, 0, 0, 0, 0, 0, 0, ""));
      for i := 0 to a.Length
        invariant a == was && b[..i] == a[..i]
      {
        b[i] := a[i];
      }
      a := b;
    }

    /** insertfeature */
    method InsertFeature(f: Feature, loc: nat)
      requires Valid() && loc <= notes
      modifies this, a
      ensures Valid() && Contents() == old(Contents())[..loc] + [f] + old(Contents())[loc..]
      ensures fresh(a) || a == old(a)
    {
      ghost var t := Contents();
      notes := notes + 1;
      if notes >= a.Length {
        Extend();
      }
      assert a[..notes - 1] == t;
      ShiftUp(loc);
      a[loc] := f;
      assert a[..loc] == t[..loc] && a[loc + 1..notes] == t[loc..];
    }

    /** Makes room at loc. */
    method ShiftUp(loc: nat)
      requires loc < notes < a.Length
      modifies a
      ensures a[..loc] == old(a[..loc]) && a[loc + 1..notes] == old(a[loc..notes - 1])
    {
      ghost var u := a[..];
      var i := notes;
      while i > loc
        invariant loc <= i <= notes && |u| == a.Length
        invariant forall k :: 0 <= k < i ==> a[k] == u[k]
        invariant forall k :: i < k <= notes ==> a[k] == u[k - 1]
      {
        a[i] := a[i - 1];
        i := i - 1;
      }
    }

    /** removefeature */
    method RemoveFeature(loc: nat)
      requires Valid() && loc < notes
      modifies this`notes, a
      ensures Valid() && Contents() == old(Contents())[..loc] + old(Contents())[loc + 1..]
    {
      ghost var u := a[..];
      var i := loc;
      while i < notes
        invariant loc <= i <= notes == old(notes) < a.Length
        invariant forall k :: 0 <= k < loc || i <= k < a.Length ==> a[k] == u[k]
        invariant forall k :: loc <= k < i ==> a[k] == u[k + 1]
      {
        a[i] := a[i + 1];
        i := i + 1;
      }
      notes := notes - 1;
    }
  }

  // ---------- Ornaments ----------

  datatype OrnamentKind = Roll | Trill

  /** What was noted down when the decorated note was parsed. */
  datatype Ornament = Ornament(kind: OrnamentKind, pitch: int, up: int, down: int, bendUp: int, bendDown: int,
                               defaultLength: int)

  predicate OrnamentOk(s: Ornament) {
    s.defaultLength > 0
  }

  function NewNote(pitch: int, len: Frac, bend: int): (f: Feature) {
    Feature(Note, pitch, len.num, len.denom, 0, bend, 0, 0, "")
  }

  /** A fifth of the note, in the units of the parser and back. */
  function RollLength(f: Feature, s: Ornament): (r: Frac)
    requires f.denom > 0 && OrnamentOk(s)
  {
    UnitsOk(f, s);
    var nm := Units(f, s);
    assert nm.denom * s.defaultLength * 5 > 0 by { ProductPositive(nm.denom, s.defaultLength); }
    Reduced(Frac(nm.num * 4, nm.denom * s.defaultLength * 5))
  }

  /** The length in multiples of the default length. */
  function Units(f: Feature, s: Ornament): (r: Frac)
    requires f.denom > 0
  {
    Reduced(Frac(f.num * s.defaultLength, f.denom * 4))
  }

  lemma UnitsOk(f: Feature, s: Ornament)
    requires f.denom > 0 && OrnamentOk(s)
    ensures Units(f, s).Ok() && Units(f, s).Val() == Length(f).Val() * s.defaultLength as real / 4.0
    ensures f.num > 0 ==> Units(f, s).num > 0
  {
    assert Frac(f.num * s.defaultLength, f.denom * 4) == Times(Length(f), Frac(s.defaultLength, 4));
    TimesVal(Length(f), Frac(s.defaultLength, 4));
  }

  function RollNotes(f: Feature, s: Ornament): (r: Features)
    requires f.denom > 0 && OrnamentOk(s)
  {
    var l := RollLength(f, s);
    [f.(kind := Note, pitch := s.pitch, num := l.num, denom := l.denom),
     NewNote(s.up, l, s.bendUp), NewNote(s.pitch, l, f.bend), NewNote(s.down, l, s.bendDown),
     NewNote(s.pitch, l, f.bend)]
  }

  /** The longest that a note of a trill may last, in microseconds: a tenth of a second. */
  const LONGEST := 100000

  /** How often the notes of a trill are halved: until there are at least ten in a second. The tempo is in
      microseconds for a quarter note, of which a note of the trill takes 4/b. */
  function Halved(count: int, b: int, tempo: int): (r: (int, int))
    requires b > 0
    ensures r.1 > 0 && r.0 * b == count * r.1 && CDiv(tempo * 4, r.1) <= LONGEST
    ensures count > 0 ==> r.0 > 0
    decreases tempo * 4 - b
  {
    if CDiv(tempo * 4, b) > LONGEST then
      NotThereYet(tempo, b);
      var r := Halved(count * 2, b * 2, tempo);
      assert r.0 * b == count * r.1;
      r
    else (count, b)
  }

  /** The length of the notes of a trill, and how many there are. */
  function TrillLength(f: Feature, s: Ornament, tempo: int): (r: (Frac, nat))
    requires f.denom > 0 && f.num > 0 && OrnamentOk(s)
    ensures r.0.Ok() && r.1 > 0
  {
    UnitsOk(f, s);
    var u := Units(f, s);
    ProductPositive(u.denom, s.defaultLength);
    var (count, b) := Halved(u.num, u.denom * s.defaultLength, tempo);
    ReduceSound(Frac(4, b));
    (Reduced(Frac(4, b)), count)
  }

  /** The first k notes of a trill: the upper note and the note itself in turn. */
  function Alternating(s: Ornament, l: Frac, k: nat): (r: Features)
    ensures |r| == k
  {
    seq(k, i requires 0 <= i < k => if i % 2 == 0 then NewNote(s.up, l, s.bendUp) else NewNote(s.pitch, l, s.bendDown))
  }

  function TrillNotes(f: Feature, s: Ornament, tempo: int): (r: Features)
    requires f.denom > 0 && f.num > 0 && OrnamentOk(s)
  {
    var (l, count) := TrillLength(f, s, tempo);
    Alternating(s, l, count)
  }

  predicate Decorated(f: Feature) {
    f.kind.Note? && f.deco != 0
  }

  predicate DecorationOk(f: Feature, table: seq<Ornament>) {
    && (Decorated(f) ==> 0 < f.deco < |table| && f.num > 0 && f.denom > 0)
    && (f.kind.TNote? ==> f.deco == 0)
  }

  predicate TableOk(table: seq<Ornament>) {
    forall i :: 0 <= i < |table| ==> OrnamentOk(table[i])
  }

  /** What stands for a feature afterwards. */
  function Expand(f: Feature, table: seq<Ornament>, tempo: int): (r: Features)
    requires DecorationOk(f, table) && TableOk(table)
    ensures r != []
  {
    if !Decorated(f) then [f]
    else if table[f.deco].kind.Roll? then RollNotes(f, table[f.deco])
    else TrillNotes(f, table[f.deco], tempo)
  }

  function Expanded(t: Features, table: seq<Ornament>, tempo: int): (r: Features)
    requires TableOk(table) && forall i :: 0 <= i < |t| ==> DecorationOk(t[i], table)
  {
    if t == [] then [] else Expanded(t[..|t| - 1], table, tempo) + Expand(t[|t| - 1], table, tempo)
  }

  // ---------- Ornaments keep time ----------

  lemma {:induction false} SpanAppend(a: Features, b: Features)
    ensures Span(a + b, 0, |a| + |b|) == Span(a, 0, |a|) + Span(b, 0, |b|)
    decreases |b|
  {
    if b == [] {
      assert a + b == a;
    } else {
      var b' := b[..|b| - 1];
      SpanAppend(a, b');
      SpanPrefix(a + b, a + b', |a| + |b'|);
      SpanPrefix(b, b', |b'|);
    }
  }

  lemma {:induction false} SpanPrefix(t: Features, u: Features, n: nat)
    requires n <= |t| && n <= |u| && t[..n] == u[..n]
    ensures Span(t, 0, n) == Span(u, 0, n)
    decreases n
  {
    if n > 0 {
      assert t[n - 1] == t[..n][n - 1] == u[..n][n - 1] == u[n - 1];
      assert t[..n - 1] == t[..n][..n - 1] == u[..n][..n - 1] == u[..n - 1];
      SpanPrefix(t, u, n - 1);
    }
  }

  lemma {:induction false} EqualNotes(t: Features, n: nat, d: real)
    requires n <= |t| && forall i :: 0 <= i < n ==> Delay(t[i]) == d
    ensures Span(t, 0, n) == n as real * d
    decreases n
  {
    if n > 0 {
      EqualNotes(t, n - 1, d);
      assert n as real * d == (n - 1) as real * d + d;
    }
  }

  /** The five notes of a roll take the time of the note. */
  lemma RollKeepsTime(f: Feature, s: Ornament)
    requires f.kind.Note? && f.denom > 0 && f.num > 0 && OrnamentOk(s)
    ensures |RollNotes(f, s)| == 5 && Span(RollNotes(f, s), 0, 5) == Delay(f)
  {
    RollFifth(f, s);
    EqualNotes(RollNotes(f, s), 5, RollLength(f, s).Val());
  }

  lemma RollFifth(f: Feature, s: Ornament)
    requires f.denom > 0 && OrnamentOk(s)
    ensures RollLength(f, s).Ok() && RollLength(f, s).Val() * 5.0 == Length(f).Val()
  {
    UnitsOk(f, s);
    var u, d := Units(f, s), s.defaultLength;
    var fifth := Frac(4, d * 5);
    assert u.denom * d * 5 == u.denom * (d * 5);
    assert Frac(u.num * 4, u.denom * d * 5) == Times(u, fifth);
    TimesVal(u, fifth);
    FifthOf(d);
    assert u.Val() * fifth.Val() * 5.0 == Length(f).Val() * (d as real / 4.0 * fifth.Val() * 5.0);
  }

  lemma FifthOf(d: int)
    requires d > 0
    ensures d as real / 4.0 * Frac(4, d * 5).Val() * 5.0 == 1.0
  {
    var x := d as real;
    assert (d * 5) as real == x * 5.0;
    assert x / 4.0 * (4.0 / (x * 5.0)) * 5.0 == 1.0;
  }

  /** The notes of a trill, however often they are halved, take the time of the note. */
  lemma TrillKeepsTime(f: Feature, s: Ornament, tempo: int)
    requires f.kind.Note? && f.denom > 0 && f.num > 0 && OrnamentOk(s)
    ensures Span(TrillNotes(f, s, tempo), 0, |TrillNotes(f, s, tempo)|) == Delay(f)
  {
    var (l, count) := TrillLength(f, s, tempo);
    TrillSum(f, s, tempo);
    EqualNotes(TrillNotes(f, s, tempo), count, l.Val());
  }

  lemma TrillSum(f: Feature, s: Ornament, tempo: int)
    requires f.denom > 0 && f.num > 0 && OrnamentOk(s)
    ensures var (l, count) := TrillLength(f, s, tempo); count as real * l.Val() == Length(f).Val()
  {
    UnitsOk(f, s);
    var u, d := Units(f, s), s.defaultLength;
    ProductPositive(u.denom, d);
    var (count, b) := Halved(u.num, u.denom * d, tempo);
    ReduceSound(Frac(4, b));
    TrillShare(u, d, count, b);
    UndoUnits(Length(f).Val(), d as real, u.Val());
  }

  lemma UndoUnits(l: real, x: real, u: real)
    requires x > 0.0 && u == l * x / 4.0
    ensures u * 4.0 / x == l
  {
    assert u * 4.0 == l * x;
  }

  lemma TrillShare(u: Frac, d: int, count: int, b: int)
    requires u.Ok() && d > 0 && b > 0 && count * (u.denom * d) == u.num * b
    ensures count as real * Frac(4, b).Val() == u.Val() * 4.0 / d as real
  {
    var c, n, m, x, y := count as real, u.num as real, u.denom as real, d as real, b as real;
    assert (u.denom * d) as real == m * x;
    assert c * (m * x) == n * y by {
      assert (count * (u.denom * d)) as real == c * (m * x);
      assert (u.num * b) as real == n * y;
    }
    assert c / y == n / (m * x) by { Ratios(c, y, n, m * x); }
    assert c * (4.0 / y) == (c / y) * 4.0;
    assert n / m * 4.0 / x == (n / (m * x)) * 4.0;
  }

  lemma Ratios(c: real, y: real, n: real, z: real)
    requires y > 0.0 && z > 0.0 && c * z == n * y
    ensures c / y == n / z
  {
    assert c / y == (c * z) / (y * z);
    assert n / z == (n * y) / (z * y);
  }

  /** Ornaments replaced, the tune takes as long. */
  lemma {:induction false} ExpansionKeepsTime(t: Features, table: seq<Ornament>, tempo: int)
    requires TableOk(table) && forall i :: 0 <= i < |t| ==> DecorationOk(t[i], table)
    ensures Span(Expanded(t, table, tempo), 0, |Expanded(t, table, tempo)|) == Span(t, 0, |t|)
    decreases |t|
  {
    if t != [] {
      var t', f := t[..|t| - 1], t[|t| - 1];
      ExpansionKeepsTime(t', table, tempo);
      SpanAppend(Expanded(t', table, tempo), Expand(f, table, tempo));
      SpanPrefix(t, t', |t'|);
      if !Decorated(f) {
        assert Span([f], 0, 1) == Delay(f);
      } else if table[f.deco].kind.Roll? {
        RollKeepsTime(f, table[f.deco]);
      } else {
        TrillKeepsTime(f, table[f.deco], tempo);
      }
    }
  }

  lemma {:induction false} ExpandedPrefix(t: Features, k: nat, table: seq<Ornament>, tempo: int)
    requires TableOk(table) && (forall i :: 0 <= i < |t| ==> DecorationOk(t[i], table)) && k <= |t|
    ensures Expanded(t[..k], table, tempo) <= Expanded(t, table, tempo)
    decreases |t|
  {
    if k < |t| {
      ExpandedPrefix(t[..|t| - 1], k, table, tempo);
      assert t[..|t| - 1][..k] == t[..k];
    } else {
      assert t[..k] == t;
    }
  }

  /** Every feature of the tune begins when it did: what stands for those before it takes their time. */
  lemma BeginningsKeepTime(t: Features, k: nat, table: seq<Ornament>, tempo: int)
    requires TableOk(table) && (forall i :: 0 <= i < |t| ==> DecorationOk(t[i], table)) && k <= |t|
    ensures var u, n := Expanded(t, table, tempo), |Expanded(t[..k], table, tempo)|;
            n <= |u| && Expanded(t[..k], table, tempo) == u[..n] && Span(u, 0, n) == Span(t, 0, k)
  {
    ExpandedPrefix(t, k, table, tempo);
    ExpansionKeepsTime(t[..k], table, tempo);
    SpanPrefix(Expanded(t, table, tempo), Expanded(t[..k], table, tempo), |Expanded(t[..k], table, tempo)|);
    SpanPrefix(t, t[..k], k);
  }

  // ---------- What ornaments sound like ----------

  /** The note, its upper neighbour, the note, its lower neighbour, the note, each a fifth of the length. */
  ghost predicate IsRoll(xs: Features, f: Feature, s: Ornament)
    requires f.denom > 0
  {
    && |xs| == 5 && (forall i :: 0 <= i < 5 ==> xs[i].kind.Note? && xs[i].denom > 0)
    && (forall i :: 0 <= i < 5 ==> Length(xs[i]).Val() * 5.0 == Length(f).Val())
    && xs[0].pitch == s.pitch && xs[1].pitch == s.up && xs[2].pitch == s.pitch && xs[3].pitch == s.down
    && xs[4].pitch == s.pitch
    && xs[0].bend == f.bend && xs[1].bend == s.bendUp && xs[2].bend == f.bend && xs[3].bend == s.bendDown
    && xs[4].bend == f.bend
  }

  /** A length in whole microseconds is at most 100000, a tenth of a second; tempo is that of a quarter note. */
  predicate Short(tempo: int, l: Frac)
    requires l.denom > 0
  {
    tempo * l.num < 100001 * l.denom
  }

  /** The upper neighbour and the note in turn, all equally long: no longer than a tenth of a second, and with twice
      the length they would be, unless the units of the note were never halved. */
  ghost predicate IsTrill(xs: Features, f: Feature, s: Ornament, tempo: int)
    requires f.denom > 0
  {
    && xs != [] && xs[0].denom > 0 && Short(tempo, Length(xs[0]))
    && (|xs| == Units(f, s).num || !Short(2 * tempo, Length(xs[0])))
    && (forall i :: 0 <= i < |xs| ==> xs[i].kind.Note? && xs[i].denom > 0 && Length(xs[i]) == Length(xs[0]))
    && (forall i :: 0 <= i < |xs| && i % 2 == 0 ==> xs[i].pitch == s.up && xs[i].bend == s.bendUp)
    && (forall i :: 0 <= i < |xs| && i % 2 == 1 ==> xs[i].pitch == s.pitch && xs[i].bend == s.bendDown)
  }

  ghost predicate Sounds(xs: Features, f: Feature, table: seq<Ornament>, tempo: int)
    requires DecorationOk(f, table)
  {
    if !Decorated(f) then xs == [f]
    else if table[f.deco].kind.Roll? then IsRoll(xs, f, table[f.deco])
    else IsTrill(xs, f, table[f.deco], tempo)
  }

  lemma ExpandSounds(f: Feature, table: seq<Ornament>, tempo: int)
    requires DecorationOk(f, table) && TableOk(table)
    ensures Sounds(Expand(f, table, tempo), f, table, tempo)
  {
    if Decorated(f) {
      if table[f.deco].kind.Roll? {
        RollFifth(f, table[f.deco]);
      } else {
        TrillShort(f, table[f.deco], tempo);
      }
    }
  }

  lemma TrillShort(f: Feature, s: Ornament, tempo: int)
    requires f.denom > 0 && f.num > 0 && OrnamentOk(s)
    ensures var (l, count) := TrillLength(f, s, tempo);
            Short(tempo, l) && (count == Units(f, s).num || !Short(2 * tempo, l))
  {
    UnitsOk(f, s);
    var u := Units(f, s);
    ProductPositive(u.denom, s.defaultLength);
    var (count, b) := Halved(u.num, u.denom * s.defaultLength, tempo);
    HalvedLeast(u.num, u.denom * s.defaultLength, tempo);
    ReduceSound(Frac(4, b));
    ShortIff(tempo, b);
    if count != u.num {
      ShortIff(tempo, b / 2);
      TwiceAsLong(tempo, b);
    }
    SameLength(tempo, Reduced(Frac(4, b)), Frac(4, b));
    SameLength(2 * tempo, Reduced(Frac(4, b)), Frac(4, b));
  }

  lemma SameLength(tempo: int, l: Frac, l': Frac)
    requires l.denom > 0 && l'.denom > 0 && l.num * l'.denom == l'.num * l.denom
    ensures Short(tempo, l) == Short(tempo, l')
  {
    Carry(tempo * l.num, 100001 * l.denom, l'.denom);
    Carry(tempo * l'.num, 100001 * l'.denom, l.denom);
    Turned(tempo, l.num, l'.denom);
    Turned(tempo, l'.num, l.denom);
    Turned(100001, l.denom, l'.denom);
    Turned(100001, l'.denom, l.denom);
  }

  lemma Carry(a: int, b: int, d: int)
    requires d > 0
    ensures a < b <==> a * d < b * d
  {
    assert a < b ==> (b - a) * d > 0;
    assert a >= b ==> (a - b) * d >= 0;
  }

  lemma Turned(a: int, b: int, c: int)
    ensures a * b * c == a * (b * c)
  {
  }

  lemma ShortIff(tempo: int, b: int)
    requires b > 0
    ensures CDiv(tempo * 4, b) <= 100000 <==> Short(tempo, Frac(4, b))
  {
    CDivMod(tempo * 4, b);
    var q := CDiv(tempo * 4, b);
    if q <= 100000 {
      Multiple(q, 100000, b);
    } else {
      Multiple(100001, q, b);
    }
  }

  lemma Multiple(x: int, y: int, b: int)
    requires x <= y && b > 0
    ensures x * b <= y * b
  {
  }

  lemma TwiceAsLong(tempo: int, b: int)
    requires b > 0 && b % 2 == 0
    ensures Short(tempo, Frac(4, b / 2)) <==> Short(2 * tempo, Frac(4, b))
  {
  }

  /** The last halving was needed. */
  lemma {:induction false} HalvedLeast(count: int, b: int, tempo: int)
    requires b > 0
    ensures var r := Halved(count, b, tempo);
            r == (count, b) || (r.1 % 2 == 0 && r.1 > 0 && CDiv(tempo * 4, r.1 / 2) > 100000)
    decreases tempo * 4 - b
  {
    if CDiv(tempo * 4, b) > LONGEST {
      NotThereYet(tempo, b);
      HalvedLeast(count * 2, b * 2, tempo);
    }
  }

  /** In the tune afterwards the k-th feature, if it is not decorated, stands unchanged, and otherwise a roll or a
      trill stands in its stead. */
  lemma OrnamentsSound(t: Features, k: nat, table: seq<Ornament>, tempo: int)
    requires TableOk(table) && (forall i :: 0 <= i < |t| ==> DecorationOk(t[i], table)) && k < |t|
    ensures var u := Expanded(t, table, tempo);
            var n, m := |Expanded(t[..k], table, tempo)|, |Expanded(t[..k + 1], table, tempo)|;
            n <= m <= |u| && Sounds(u[n..m], t[k], table, tempo)
  {
    var u, v, w := Expanded(t, table, tempo), Expanded(t[..k], table, tempo), Expanded(t[..k + 1], table, tempo);
    ExpandedPrefix(t, k + 1, table, tempo);
    assert t[..k + 1][..k] == t[..k] && t[..k + 1][k] == t[k];
    assert w == v + Expand(t[k], table, tempo);
    assert u[|v|..|w|] == w[|v|..] == Expand(t[k], table, tempo);
    ExpandSounds(t[k], table, tempo);
  }

  // ---------- The pass in place ----------

  /** Inserts a note at i, behind the ones of the ornament that are there already. */
  method InsertBehind(t: FeatureTable, i: nat, f: Feature, ghost pre: Features, ghost done: Features,
                      ghost post: Features)
    requires t.Valid() && t.Contents() == pre + done + post && i == |pre| + |done|
    modifies t, t.a
    ensures t.Valid() && t.Contents() == pre + (done + [f]) + post && (fresh(t.a) || t.a == old(t.a))
  {
    t.InsertFeature(f, i);
    assert (pre + done + post)[..i] == pre + done && (pre + done + post)[i..] == post;
  }

  /** doroll_output */
  method DoRoll(t: FeatureTable, i: nat, s: Ornament)
    requires t.Valid() && i < t.notes && t.a[i].denom > 0 && OrnamentOk(s)
    modifies t, t.a
    ensures t.Valid() && (fresh(t.a) || t.a == old(t.a))
    ensures t.Contents() == old(t.Contents())[..i] + RollNotes(old(t.a[i]), s) + old(t.Contents())[i + 1..]
  {
    ghost var pre, post := t.Contents()[..i], t.Contents()[i + 1..];
    var f := t.a[i];
    UnitsOk(f, s);
    var n, m := Reduce(f.num * s.defaultLength, f.denom * 4);
    assert m * s.defaultLength * 5 > 0 by { ProductPositive(m, s.defaultLength); }
    var a, b := Reduce(n * 4, m * s.defaultLength * 5);
    var l := Frac(a, b);
    var r := [f.(kind := Note, pitch := s.pitch, num := a, denom := b),
              NewNote(s.up, l, s.bendUp), NewNote(s.pitch, l, f.bend), NewNote(s.down, l, s.bendDown),
              NewNote(s.pitch, l, f.bend)];
    t.a[i] := r[0];
    assert t.Contents() == pre + r[..1] + post;
    var j := 1;
    while j < 5
      invariant 1 <= j <= 5 && t.Valid() && (fresh(t.a) || t.a == old(t.a))
      invariant t.Contents() == pre + r[..j] + post
    {
      InsertBehind(t, i + j, r[j], pre, r[..j], post);
      assert r[..j + 1] == r[..j] + [r[j]];
      j := j + 1;
    }
    assert r[..j] == r == RollNotes(f, s);
  }

  /** The doubling loop. */
  method Halve(n: nat, b0: int, tempo: int) returns (count: nat, b: int)
    requires b0 > 0
    ensures (count, b) == Halved(n, b0, tempo)
  {
    count, b := n, b0;
    while CDiv(tempo * 4, b) > LONGEST
      invariant b > 0 && Halved(count, b, tempo) == Halved(n, b0, tempo)
      decreases tempo * 4 - b
    {
      NotThereYet(tempo, b);
      count, b := count * 2, b * 2;
    }
  }

  lemma NotThereYet(tempo: int, b: int)
    requires b > 0
    ensures CDiv(tempo * 4, b) > LONGEST ==> b < tempo * 4
  {
    if b >= tempo * 4 {
      CDivMod(tempo * 4, b);
      assert CDiv(tempo * 4, b) <= 1;
    }
  }

  /** dotrill_output */
  method DoTrill(t: FeatureTable, i: nat, s: Ornament, tempo: int)
    requires t.Valid() && i < t.notes && t.a[i].denom > 0 && t.a[i].num > 0 && OrnamentOk(s)
    modifies t, t.a
    ensures t.Valid() && (fresh(t.a) || t.a == old(t.a))
    ensures t.Contents() == old(t.Contents())[..i] + TrillNotes(old(t.a[i]), s, tempo) + old(t.Contents())[i + 1..]
  {
    ghost var pre, post := t.Contents()[..i], t.Contents()[i + 1..];
    var f := t.a[i];
    UnitsOk(f, s);
    var n, m := Reduce(f.num * s.defaultLength, f.denom * 4);
    t.RemoveFeature(i);
    ProductPositive(m, s.defaultLength);
    var count, b := Halve(n, m * s.defaultLength, tempo);
    var num, denom := Reduce(4, b);
    var l := Frac(num, denom);
    var j := 0;
    assert pre + Alternating(s, l, 0) + post == pre + post;
    while j < count
      invariant j <= count && t.Valid() && (fresh(t.a) || t.a == old(t.a))
      invariant t.Contents() == pre + Alternating(s, l, j) + post
    {
      var note := if j % 2 == 0 then NewNote(s.up, l, s.bendUp) else NewNote(s.pitch, l, s.bendDown);
      InsertBehind(t, i + j, note, pre, Alternating(s, l, j), post);
      assert Alternating(s, l, j + 1) == Alternating(s, l, j) + [note];
      j := j + 1;
    }
  }

  /** The first m features of the tune have been replaced, and the loop has come to i. */
  ghost predicate Reached(c: Features, i: nat, m: nat, was: Features, table: seq<Ornament>, tempo: int)
    requires TableOk(table) && forall k :: 0 <= k < |was| ==> DecorationOk(was[k], table)
  {
    && m <= |was|
    && var pre := Expanded(was[..m], table, tempo);
       && i <= |pre| && c == pre + was[m..]
       && forall k :: i <= k < |pre| ==> !Decorated(pre[k])
  }

  /** expand_ornaments: the notes of an ornament, which carry no decoration, are passed over. */
  method ExpandOrnaments(t: FeatureTable, table: seq<Ornament>, tempo: int)
    requires t.Valid() && TableOk(table) && forall i :: 0 <= i < t.notes ==> DecorationOk(t.Contents()[i], table)
    modifies t, t.a
    ensures t.Valid() && t.Contents() == Expanded(old(t.Contents()), table, tempo)
  {
    ghost var was, m := t.Contents(), 0;
    var i := 0;
    assert was[..0] == [];
    while i < t.notes
      invariant t.Valid() && (fresh(t.a) || t.a == old(t.a))
      invariant Reached(t.Contents(), i, m, was, table, tempo)
      decreases |was| - m, t.notes - i
    {
      m := ExpandAt(t, i, table, tempo, was, m);
      i := i + 1;
    }
    assert was[..m] == was;
  }

  /** One turn of the loop: it replaces the feature it meets, or passes over a note of the last ornament. */
  method ExpandAt(t: FeatureTable, i: nat, table: seq<Ornament>, tempo: int, ghost was: Features, ghost m: nat)
      returns (ghost m': nat)
    requires TableOk(table) && forall k :: 0 <= k < |was| ==> DecorationOk(was[k], table)
    requires t.Valid() && i < t.notes && Reached(t.Contents(), i, m, was, table, tempo)
    modifies t, t.a
    ensures t.Valid() && (fresh(t.a) || t.a == old(t.a))
    ensures Reached(t.Contents(), i + 1, m', was, table, tempo)
    ensures m' > m || (m' == m && t.notes == old(t.notes))
  {
    ghost var pre, c := Expanded(was[..m], table, tempo), t.Contents();
    ghost var f := c[i];
    assert t.a[i] == f;
    m' := m;
    if i == |pre| {
      assert f == was[m] && c[..i] == pre && c[i + 1..] == was[m + 1..];
      assert was[..m + 1][..m] == was[..m] && was[..m + 1][m] == f;
      m' := m + 1;
    }
    if t.a[i].deco != 0 && t.a[i].kind.Note? {
      var s := table[t.a[i].deco];
      if s.kind.Trill? {
        DoTrill(t, i, s, tempo);
      } else {
        DoRoll(t, i, s);
      }
    }
    if i == |pre| {
      assert pre + [f] + was[m + 1..] == c;
      assert t.Contents() == pre + Expand(f, table, tempo) + was[m + 1..];
    }
  }
}
