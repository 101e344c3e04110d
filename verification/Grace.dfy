/** Grace notes: dograce gives the notes of each group lengths taken from the note or chord behind it. */
module Grace {
  import opened Fractions
  import opened Tune
  import opened Ties

  /** How grace notes get their lengths: by a fraction of the host (orig) or by division (new). */
  datatype Manner = Manner(orig: bool, num: int, denom: int)

  predicate MannerOk(m: Manner) {
    0 < m.num && 0 < m.denom && (m.orig ==> m.num < m.denom)
  }

  predicate Plays(k: Kind) {
    k.Note? || k.Rest?
  }

  predicate Closes(k: Kind) {
    k.ChordOff? || k.ChordOffEx?
  }

  /** What lenmul and the loops over the host change. */
  predicate HasLength(k: Kind) {
    Plays(k) || Closes(k)
  }

  function MannerOf(f: Feature): (m: Manner) {
    Manner(f.pitch != 0, f.num, f.denom)
  }

  /** Lengths are positive, and settings of the manner sensible. */
  predicate LengthOk(f: Feature) {
    && (HasLength(f.kind) ==> f.num > 0 && f.denom > 0)
    && (f.kind.SetGrace? ==> MannerOk(MannerOf(f)))
  }

  // ---------- Finding the group and its host ----------

  /** The first GRACEOFF from k on, or -1. */
  function EndOf(s: Features, k: nat): (e: int)
    requires k <= |s|
    ensures e == -1 || (k <= e < |s| && s[e].kind.GraceOff?)
    ensures forall i :: k <= i < (if e == -1 then |s| else e) ==> !s[i].kind.GraceOff?
    decreases |s| - k
  {
    if k == |s| then -1 else if s[k].kind.GraceOff? then k else EndOf(s, k + 1)
  }

  /** The first note or rest from k on, or -1. */
  function HostOf(s: Features, k: nat): (h: int)
    requires k <= |s|
    ensures h == -1 || (k <= h < |s| && Plays(s[h].kind))
    ensures forall i :: k <= i < (if h == -1 then |s| else h) ==> !Plays(s[i].kind)
    decreases |s| - k
  {
    if k == |s| then -1 else if Plays(s[k].kind) then k else HostOf(s, k + 1)
  }

  /** The first end of a chord from k on, or -1. */
  function OffOf(s: Features, k: nat): (e: int)
    requires k <= |s|
    ensures e == -1 || (k <= e < |s| && Closes(s[e].kind))
    ensures forall i :: k <= i < (if e == -1 then |s| else e) ==> !Closes(s[i].kind)
    decreases |s| - k
  {
    if k == |s| then -1 else if Closes(s[k].kind) then k else OffOf(s, k + 1)
  }

  predicate ChordBegins(s: Features, lo: nat, hi: nat)
    requires lo <= hi <= |s|
  {
    exists i :: lo <= i < hi && s[i].kind.ChordOn?
  }

  /** A group that begins s: its end, its host, and the end of the host; -1 for what is not found. */
  datatype Group = Group(end: int, host: int, hostEnd: int)

  function GroupOf(s: Features): (g: Group)
    requires s != []
    ensures g.host >= 0 ==> 0 < g.end < g.host < |s| && Plays(s[g.host].kind) && g.hostEnd < |s|
    ensures g.host >= 0 && g.hostEnd >= 0 ==> g.host <= g.hostEnd && HasLength(s[g.hostEnd].kind)
  {
    var end := EndOf(s, 1);
    var host := if end == -1 then -1 else HostOf(s, end + 1);
    Group(end, host, if host == -1 then -1 else if ChordBegins(s, end + 1, host) then OffOf(s, host + 1) else host)
  }

  /** The group ends at the first closing bracket, its host is the first note or rest behind that, and a host that is
      in a chord, one opened behind the group, lasts to the end of the chord. */
  lemma GroupIs(s: Features)
    requires s != [] && GroupOf(s).host >= 0
    ensures var g := GroupOf(s);
            && s[g.end].kind.GraceOff? && (forall i :: 0 < i < g.end ==> !s[i].kind.GraceOff?)
            && (s[g.host].kind.Note? || s[g.host].kind.Rest?)
            && (forall i :: g.end < i < g.host ==> !s[i].kind.Note? && !s[i].kind.Rest?)
            && ((forall i :: g.end < i < g.host ==> !s[i].kind.ChordOn?) ==> g.hostEnd == g.host)
            && ((exists i :: g.end < i < g.host && s[i].kind.ChordOn?) && g.hostEnd >= 0 ==>
                  && Closes(s[g.hostEnd].kind) && g.host < g.hostEnd
                  && forall i :: g.host < i < g.hostEnd ==> !Closes(s[i].kind))
  {
  }

  /** Without a host there is no closing bracket, or no note or rest behind it. */
  lemma NoGroup(s: Features)
    requires s != [] && GroupOf(s).host < 0
    ensures forall e, h :: 0 < e < h < |s| && s[e].kind.GraceOff? && !(exists i :: 0 < i < e && s[i].kind.GraceOff?) ==>
              !s[h].kind.Note? && !s[h].kind.Rest?
  {
    forall e, h | 0 < e < h < |s| && s[e].kind.GraceOff? && !(exists i :: 0 < i < e && s[i].kind.GraceOff?)
      ensures !s[h].kind.Note? && !s[h].kind.Rest?
    {
      assert EndOf(s, 1) == e;
    }
  }

  // ---------- What applygrace does ----------

  predicate HasNote(s: Features, k: nat)
    requires k <= |s|
  {
    exists i :: 0 <= i < k && Plays(s[i].kind)
  }

  /** What it needs: lengths, a note in the group if a chord ends there, and an end to the chord behind it. */
  predicate Applies(s: Features, m: Manner) {
    && s != [] && !HasLength(s[0].kind) && MannerOk(m)
    && (forall k :: 0 <= k < |s| ==> LengthOk(s[k]))
    && var g := GroupOf(s);
       && (g.host >= 0 ==> g.hostEnd >= 0)
       && (g.host >= 0 && m.orig && (exists k :: 0 < k < g.end && Closes(s[k].kind)) ==> HasNote(s, g.end))
  }

  predicate HasHost(s: Features, m: Manner) {
    Applies(s, m) && GroupOf(s).host >= 0
  }

  /** The notes and rests before k added up. */
  function Added(s: Features, k: nat): (r: Frac)
    requires k <= |s| && forall i :: 0 <= i < |s| ==> LengthOk(s[i])
    ensures r.Ok()
  {
    if k == 0 then Frac(0, 1)
    else if Plays(s[k - 1].kind) then AddFract(Added(s, k - 1), Length(s[k - 1]))
    else Added(s, k - 1)
  }

  /** They make up the time that passes. */
  lemma {:induction false} AddedSpan(s: Features, k: nat)
    requires k <= |s| && forall i :: 0 <= i < |s| ==> LengthOk(s[i])
    ensures Added(s, k).Val() == Span(s, 0, k)
    ensures Span(s, 0, k) >= 0.0 && Added(s, k).num >= 0
    ensures (exists i :: 0 <= i < k && Plays(s[i].kind)) <==> Added(s, k).num > 0
    decreases k
  {
    if k > 0 {
      AddedSpan(s, k - 1);
      if Plays(s[k - 1].kind) {
        Positive(Length(s[k - 1]));
      }
      Positive(Added(s, k - 1));
    }
    Positive(Added(s, k));
  }

  lemma ProductPositive(a: int, b: int)
    requires b > 0
    ensures a > 0 <==> a * b > 0
    ensures a == 0 <==> a * b == 0
  {
  }

  lemma ProductVal(x: Frac, y: Frac)
    requires x.Ok() && y.Ok()
    ensures x.denom * y.denom > 0
    ensures Frac(x.num * y.num, x.denom * y.denom).Val() == x.Val() * y.Val()
  {
    var a, b, c, d := x.num as real, x.denom as real, y.num as real, y.denom as real;
    assert (x.num * y.num) as real == a * c;
    assert (x.denom * y.denom) as real == b * d;
    ProductPositive(x.denom, y.denom);
    assert (a * c) / (b * d) == (a / b) * (c / d);
  }

  function Times(x: Frac, y: Frac): (r: Frac) {
    Frac(x.num * y.num, x.denom * y.denom)
  }

  function WithLength(f: Feature, r: Frac): (g: Feature) {
    f.(num := r.num, denom := r.denom)
  }

  /** A length multiplied and reduced: its value, and that it stays positive. */
  lemma TimesVal(x: Frac, y: Frac)
    requires x.Ok() && y.Ok()
    ensures Times(x, y).Ok()
    ensures Reduced(Times(x, y)).Ok() && Reduced(Times(x, y)).Val() == x.Val() * y.Val()
    ensures x.num > 0 && y.num > 0 ==> Reduced(Times(x, y)).num > 0
  {
    ProductVal(x, y);
    ReduceSound(Times(x, y));
    if y.num > 0 { ProductPositive(x.num, y.num); }
    Positive(Times(x, y));
    Positive(Reduced(Times(x, y)));
  }

  /** The factor of the grace notes in the first manner, not yet reduced: what is taken from the host
      over what the notes add up to. */
  function OrigFactor(next: Frac, sum: Frac, m: Manner): (r: Frac) {
    Frac(next.num * sum.denom * m.num, next.denom * sum.num * m.denom)
  }

  lemma OrigFactorVal(next: Frac, sum: Frac, m: Manner)
    requires next.Ok() && next.num > 0 && sum.Ok() && sum.num >= 0 && MannerOk(m)
    ensures var r := OrigFactor(next, sum, m);
            && r.num > 0 && r.denom >= 0 && (r.denom > 0 <==> sum.num > 0)
            && (sum.num > 0 ==>
                  && Reduced(r).Ok() && Reduced(r).num > 0
                  && Reduced(r).Val() * sum.Val() == next.Val() * Frac(m.num, m.denom).Val())
  {
    var f := Frac(m.num, m.denom);
    ProductPositive(next.num, sum.denom);
    ProductPositive(next.num * sum.denom, m.num);
    ProductPositive(next.denom * sum.num, m.denom);
    ProductPositive(sum.num, next.denom);
    if sum.num > 0 {
      var over := Frac(sum.denom, sum.num);
      assert OrigFactor(next, sum, m) == Times(Times(next, over), f);
      ProductVal(next, over);
      TimesVal(Times(next, over), f);
      Inverse(sum);
      assert next.Val() * over.Val() * f.Val() * sum.Val() == next.Val() * f.Val() * (over.Val() * sum.Val());
    }
  }

  lemma Inverse(x: Frac)
    requires x.Ok() && x.num > 0
    ensures Frac(x.denom, x.num).Val() * x.Val() == 1.0
  {
  }

  /** The host's length in the second manner: its own less the divided grace notes. */
  function NewLength(host: Frac, sum: Frac, m: Manner): (r: Frac) {
    Frac(host.num * sum.denom * m.denom - host.denom * sum.num, host.denom * sum.denom * m.denom)
  }

  lemma NewLengthVal(host: Frac, sum: Frac, m: Manner)
    requires host.Ok() && sum.Ok() && MannerOk(m)
    ensures NewLength(host, sum, m).Ok()
    ensures NewLength(host, sum, m).Val() == host.Val() - sum.Val() * Frac(1, m.denom).Val()
  {
    var over := Frac(1, m.denom);
    var taken := Frac(-sum.num, sum.denom * m.denom);
    ProductVal(sum, over);
    assert sum.num * over.num == sum.num && sum.denom * over.denom == sum.denom * m.denom;
    assert taken.Val() == -(sum.Val() * over.Val());
    FracSum(host, taken);
    var n := NewLength(host, sum, m);
    assert n.num == host.num * taken.denom + taken.num * host.denom by {
      assert host.num * sum.denom * m.denom == host.num * (sum.denom * m.denom);
    }
    assert n.denom == host.denom * taken.denom;
  }

  /** The lengths that decide: the end of the host for the first manner, its first note for the second. */
  function Taken(s: Features, m: Manner): (r: Frac)
    requires HasHost(s, m)
    ensures r.Ok() && r.num > 0
  {
    Length(s[if m.orig then GroupOf(s).hostEnd else GroupOf(s).host])
  }

  /** The group takes at least all the host has, and is cut off. */
  predicate TooLong(s: Features, m: Manner)
    requires HasHost(s, m)
  {
    !m.orig && NewLength(Taken(s, m), Added(s, GroupOf(s).end + 1), m).num <= 0
  }

  function Factor(s: Features, m: Manner): (r: Frac)
    requires HasHost(s, m)
    ensures r.num > 0 && r.denom >= 0 && (r.denom > 0 || forall k :: 0 < k < GroupOf(s).end ==> !HasLength(s[k].kind))
  {
    var sum := Added(s, GroupOf(s).end + 1);
    AddedSpan(s, GroupOf(s).end + 1);
    var f := if m.orig then OrigFactor(Taken(s, m), sum, m) else Frac(1, m.denom);
    if m.orig then
      OrigFactorVal(Taken(s, m), sum, m);
      FactorPositive(f);
      Reduced(f)
    else
      ReduceSound(f);
      Positive(f);
      Positive(Reduced(f));
      Reduced(f)
  }

  lemma FactorPositive(f: Frac)
    requires f.num > 0 && f.denom >= 0
    ensures Reduced(f).num > 0 && Reduced(f).denom >= 0 && (f.denom > 0 ==> Reduced(f).denom > 0)
  {
    var g := ReducedFactor(f);
    PositiveFactor(g, Reduced(f).num);
    if f.denom > 0 {
      PositiveFactor(g, Reduced(f).denom);
    } else {
      ProductPositive(Reduced(f).denom, g);
    }
  }

  /** A host note, or the end of a host chord, shortened. */
  function Shortened(s: Features, m: Manner, k: nat): (r: Frac)
    requires HasHost(s, m) && k < |s| && HasLength(s[k].kind)
  {
    var f := if m.orig then Times(Length(s[k]), Frac(m.denom - m.num, m.denom))
             else NewLength(Taken(s, m), Added(s, GroupOf(s).end + 1), m);
    ProductPositive(s[k].denom, m.denom);
    NewLengthVal(Taken(s, m), Added(s, GroupOf(s).end + 1), m);
    Reduced(f)
  }

  /** What becomes of the k-th feature. */
  function Changed(s: Features, m: Manner, k: nat): (f: Feature)
    requires HasHost(s, m) && k < |s|
    ensures f.kind == s[k].kind && (!HasLength(s[k].kind) ==> f == s[k])
  {
    var g := GroupOf(s);
    if 0 < k < g.end && HasLength(s[k].kind) then
      ProductPositive(s[k].denom, Factor(s, m).denom);
      WithLength(s[k], Reduced(Times(Length(s[k]), Factor(s, m))))
    else if g.host <= k <= g.hostEnd && HasLength(s[k].kind) then WithLength(s[k], Shortened(s, m, k))
    else s[k]
  }

  /** applygrace on a tune that begins with the group. */
  function Apply(s: Features, m: Manner): (r: Features)
    requires Applies(s, m)
    ensures 0 < |r| <= |s|
  {
    if !HasHost(s, m) then s
    else if TooLong(s, m) then s[GroupOf(s).end + 1..]
    else seq(|s|, k requires 0 <= k < |s| => Changed(s, m, k))
  }

  // ---------- What becomes of the lengths ----------

  ghost predicate ScaledBy(x: Feature, y: Feature, f: real) {
    && y.kind == x.kind
    && (HasLength(x.kind) ==> x.denom > 0 && y.denom > 0 && Length(y).Val() == Length(x).Val() * f)
  }

  /** Each note of the group, and each end of a chord in it, is scaled by the one factor. */
  lemma GraceNoteVal(s: Features, m: Manner, k: nat)
    requires HasHost(s, m) && 0 < k < GroupOf(s).end
    ensures LengthOk(Changed(s, m, k))
    ensures HasLength(s[k].kind) ==> Factor(s, m).Ok() && ScaledBy(s[k], Changed(s, m, k), Factor(s, m).Val())
  {
    if HasLength(s[k].kind) {
      TimesVal(Length(s[k]), Factor(s, m));
    }
  }

  /** What the host gives up: in the first manner a part of it, in the second the divided grace notes. */
  ghost function Given(s: Features, m: Manner): (r: real)
    requires HasHost(s, m)
  {
    if m.orig then Taken(s, m).Val() * Frac(m.num, m.denom).Val()
    else Span(s, 0, GroupOf(s).end + 1) * Frac(1, m.denom).Val()
  }

  lemma HostOrig(s: Features, m: Manner, k: nat)
    requires HasHost(s, m) && m.orig && GroupOf(s).host <= k <= GroupOf(s).hostEnd && HasLength(s[k].kind)
    ensures LengthOk(Changed(s, m, k))
    ensures Length(Changed(s, m, k)).Val() == Length(s[k]).Val() * (1.0 - Frac(m.num, m.denom).Val())
  {
    var rest := Frac(m.denom - m.num, m.denom);
    TimesVal(Length(s[k]), rest);
    Remainder(m);
    assert Changed(s, m, k) == WithLength(s[k], Reduced(Times(Length(s[k]), rest)));
  }

  lemma Remainder(m: Manner)
    requires m.denom > 0
    ensures Frac(m.denom - m.num, m.denom).Val() == 1.0 - Frac(m.num, m.denom).Val()
  {
    var n, d := m.num as real, m.denom as real;
    assert (m.denom - m.num) as real == d - n;
    assert (d - n) / d + n / d == d / d;
  }

  lemma HostNew(s: Features, m: Manner, k: nat)
    requires HasHost(s, m) && !m.orig && !TooLong(s, m)
    requires GroupOf(s).host <= k <= GroupOf(s).hostEnd && HasLength(s[k].kind)
    ensures LengthOk(Changed(s, m, k))
    ensures Length(Changed(s, m, k)).Val() == Taken(s, m).Val() - Given(s, m)
  {
    var sum := Added(s, GroupOf(s).end + 1);
    AddedSpan(s, GroupOf(s).end + 1);
    NewLengthVal(Taken(s, m), sum, m);
    FactorPositive(NewLength(Taken(s, m), sum, m));
    ReduceSound(NewLength(Taken(s, m), sum, m));
    assert Changed(s, m, k) == WithLength(s[k], Reduced(NewLength(Taken(s, m), sum, m)));
  }

  /** In the second manner a group is cut off exactly when its notes, divided, would take all the host's first note
      has; in the first it never is. */
  lemma TooLongIff(s: Features, m: Manner)
    requires HasHost(s, m)
    ensures TooLong(s, m) <==> !m.orig && Length(s[GroupOf(s).host]).Val() <= Given(s, m)
  {
    if !m.orig {
      var sum := Added(s, GroupOf(s).end + 1);
      AddedSpan(s, GroupOf(s).end + 1);
      NewLengthVal(Taken(s, m), sum, m);
      Positive(NewLength(Taken(s, m), sum, m));
    }
  }

  lemma ApplyAt(s: Features, m: Manner)
    requires HasHost(s, m) && !TooLong(s, m)
    ensures |Apply(s, m)| == |s| && forall k :: 0 <= k < |s| ==> Apply(s, m)[k] == Changed(s, m, k)
  {
  }

  lemma Distribute(a: real, b: real, f: real)
    ensures (a + b) * f == a * f + b * f
  {
  }

  // ---------- Playing time ----------

  function NextChord(c: bool, f: Feature): (r: bool) {
    if f.kind.ChordOn? then true else if Closes(f.kind) then false else c
  }

  /** The time that passes at a feature: a chord takes the length at its end. */
  ghost function TimeOf(f: Feature, c: bool): (r: real) {
    if f.denom > 0 && (Closes(f.kind) || (Plays(f.kind) && !c)) then Length(f).Val() else 0.0
  }

  /** The time from k to e, and whether a chord is open then. */
  ghost function TimeIn(s: Features, k: nat, e: nat, c: bool): (r: real)
    requires k <= e <= |s|
    decreases e - k
  {
    if k == e then 0.0 else TimeOf(s[k], c) + TimeIn(s, k + 1, e, NextChord(c, s[k]))
  }

  predicate ChordIn(s: Features, k: nat, e: nat, c: bool)
    requires k <= e <= |s|
    decreases e - k
  {
    if k == e then c else ChordIn(s, k + 1, e, NextChord(c, s[k]))
  }

  lemma ScaledSum(a: real, b: real, sum: real, a': real, b': real, sum': real, f: real)
    requires sum == a + b && sum' == a' + b' && a' == a * f && b' == b * f
    ensures sum' == sum * f
  {
  }

  lemma TimeOfScaled(x: Feature, y: Feature, c: bool, f: real)
    requires ScaledBy(x, y, f)
    ensures TimeOf(y, c) == TimeOf(x, c) * f && NextChord(c, y) == NextChord(c, x)
  {
  }

  lemma {:induction false} TimeScaled(s: Features, u: Features, k: nat, e: nat, c: bool, f: real)
    requires k <= e <= |s| && e <= |u| && forall i :: k <= i < e ==> ScaledBy(s[i], u[i], f)
    ensures TimeIn(u, k, e, c) == TimeIn(s, k, e, c) * f
    decreases e - k
  {
    if k < e {
      var c' := NextChord(c, s[k]);
      TimeScaled(s, u, k + 1, e, c', f);
      TimeOfScaled(s[k], u[k], c, f);
      ScaledSum(TimeOf(s[k], c), TimeIn(s, k + 1, e, c'), TimeIn(s, k, e, c),
                TimeOf(u[k], c), TimeIn(u, k + 1, e, c'), TimeIn(u, k, e, c), f);
    }
  }

  lemma {:induction false} ChordAlike(s: Features, u: Features, k: nat, e: nat, c: bool)
    requires k <= e <= |s| && e <= |u| && forall i :: k <= i < e ==> u[i].kind == s[i].kind
    ensures ChordIn(u, k, e, c) == ChordIn(s, k, e, c)
    decreases e - k
  {
    if k < e {
      ChordAlike(s, u, k + 1, e, NextChord(c, s[k]));
    }
  }

  lemma {:induction false} NoTime(s: Features, k: nat, e: nat, c: bool)
    requires k <= e <= |s| && forall i :: k <= i < e ==> !HasLength(s[i].kind)
    ensures TimeIn(s, k, e, c) == 0.0
    decreases e - k
  {
    if k < e { NoTime(s, k + 1, e, NextChord(c, s[k])); }
  }

  /** The time a group takes once its notes have lengths of their own. */
  ghost function GroupTime(s: Features): (r: real)
    requires s != [] && GroupOf(s).host >= 0
  {
    TimeIn(s, 1, GroupOf(s).end, false)
  }

  /** What the notes of the group add up to, those of its chords each counted. */
  ghost function GroupSum(s: Features): (r: real)
    requires s != [] && GroupOf(s).host >= 0
  {
    Span(s, 0, GroupOf(s).end + 1)
  }

  lemma GraceStep(s: Features, m: Manner, k: nat, f: real)
    requires HasHost(s, m) && 0 < k < GroupOf(s).end && (Factor(s, m).Ok() ==> f == Factor(s, m).Val())
    ensures ScaledBy(s[k], Changed(s, m, k), f)
  {
    GraceNoteVal(s, m, k);
  }

  lemma AllScaled(s: Features, m: Manner, u: Features, f: real)
    requires HasHost(s, m) && |u| == |s| && forall k :: 0 <= k < |s| ==> u[k] == Changed(s, m, k)
    requires Factor(s, m).Ok() ==> f == Factor(s, m).Val()
    ensures forall k :: 1 <= k < GroupOf(s).end ==> ScaledBy(s[k], u[k], f)
  {
    forall k: nat | 1 <= k < GroupOf(s).end
      ensures ScaledBy(s[k], u[k], f)
    {
      GraceStep(s, m, k, f);
      var x := Changed(s, m, k);
      assert u[k] == x;
    }
  }

  lemma GroupScaled(s: Features, u: Features, f: real)
    requires s != [] && GroupOf(s).host >= 0 && |u| == |s|
    requires forall k :: 1 <= k < GroupOf(s).end ==> ScaledBy(s[k], u[k], f)
    ensures var e := GroupOf(s).end;
            TimeIn(u, 1, e, false) == GroupTime(s) * f && ChordIn(u, 1, e, false) == ChordIn(s, 1, e, false)
  {
    TimeScaled(s, u, 1, GroupOf(s).end, false, f);
    ChordAlike(s, u, 1, GroupOf(s).end, false);
  }

  /** In the first manner the factor makes the sum of the notes what is taken from the host; in the second it
      divides. */
  lemma GraceShare(s: Features, m: Manner) returns (f: real)
    requires HasHost(s, m)
    ensures f == (if Factor(s, m).Ok() then Factor(s, m).Val() else 0.0) && (!m.orig ==> f == Frac(1, m.denom).Val())
    ensures if !m.orig || HasNote(s, GroupOf(s).end) then f > 0.0 && GroupSum(s) * f == Given(s, m)
            else GroupTime(s) == 0.0 && Given(s, m) > 0.0
  {
    var n := GroupOf(s).end + 1;
    var sum, r := Added(s, n), Factor(s, m);
    f := if r.Ok() then r.Val() else 0.0;
    if m.orig {
      AddedSpan(s, n);
      SumSign(s, n);
      OrigFactorVal(Taken(s, m), sum, m);
      Positive(sum);
      Positive(Taken(s, m));
      Positive(Frac(m.num, m.denom));
      if r.Ok() { Positive(r); }
      if !HasNote(s, GroupOf(s).end) {
        NoTime(s, 1, GroupOf(s).end, false);
      }
    } else {
      ReduceSound(Frac(1, m.denom));
      Positive(r);
    }
  }

  lemma SumSign(s: Features, n: nat)
    requires 0 < n <= |s| && !Plays(s[n - 1].kind) && forall i :: 0 <= i < |s| ==> LengthOk(s[i])
    ensures Added(s, n).num >= 0 && (Added(s, n).num > 0 <==> HasNote(s, n - 1))
  {
    AddedSpan(s, n);
    AddedSpan(s, n - 1);
  }

  /** All the time that passes. */
  ghost function AllTime(s: Features, c: bool): (r: real) {
    if s == [] then 0.0 else TimeOf(s[0], c) + AllTime(s[1..], NextChord(c, s[0]))
  }

  /** The time that is to pass while grace notes have no time of their own. */
  ghost function MainTime(s: Features, c: bool): (r: real)
    decreases |s|
  {
    if s == [] then 0.0
    else if s[0].kind.GraceOn? && EndOf(s, 1) != -1 then MainTime(s[EndOf(s, 1) + 1..], c)
    else TimeOf(s[0], c) + MainTime(s[1..], NextChord(c, s[0]))
  }

  function NextManner(m: Manner, f: Feature): (r: Manner) {
    if f.kind.SetGrace? then MannerOf(f) else m
  }

  /** A group outside chords, that leaves no chord open, a host behind it, and no other group in between. */
  predicate GroupShape(s: Features) {
    && s != [] && s[0].kind.GraceOn?
    && var g := GroupOf(s);
       && g.host >= 0 && g.hostEnd >= 0 && !ChordIn(s, 1, g.end, false)
       && (forall k :: 0 < k < g.end ==> !s[k].kind.SetGrace?)
       && (forall k :: g.end < k < g.host ==> !Closes(s[k].kind))
       && (forall k :: 0 < k <= g.hostEnd ==> !s[k].kind.GraceOn?)
  }

  /** When giving the group its lengths keeps the time. First manner: it holds a note, and the members of its
      chords add up to the lengths at their ends. Second manner: what the group would last too little or too
      long makes up for a host chord that does not end as long as its first note is; that is, in general, the
      same, as a chord is given the length of its first note. */
  ghost predicate Even(s: Features, m: Manner)
    requires HasHost(s, m)
  {
    if m.orig then HasNote(s, GroupOf(s).end) && GroupTime(s) == GroupSum(s)
    else (GroupTime(s) - GroupSum(s)) * Frac(1, m.denom).Val() == HostExcess(s, m)
  }

  /** How much longer the host lasts than its first note. */
  ghost function HostExcess(s: Features, m: Manner): (r: real)
    requires HasHost(s, m)
  {
    var h, e := s[GroupOf(s).host], s[GroupOf(s).hostEnd];
    assert LengthOk(h) && LengthOk(e);
    Length(e).Val() - Length(h).Val()
  }

  /** A tune whose groups have that shape. */
  ghost predicate Shaped(s: Features, c: bool, m: Manner)
    decreases |s|
  {
    s != [] ==>
      if s[0].kind.GraceOn? then
        !c && GroupShape(s) && Applies(s, m) && Shaped(s[GroupOf(s).end + 1..], c, m)
      else Shaped(s[1..], NextChord(c, s[0]), NextManner(m, s[0]))
  }

  /** How much more a group gets than its host gives up. */
  ghost function Gain(s: Features, m: Manner): (r: real)
    requires HasHost(s, m)
  {
    if TooLong(s, m) then 0.0
    else GroupTime(s) * (if Factor(s, m).Ok() then Factor(s, m).Val() else 0.0) - HostGives(s, m)
  }

  /** How much all the groups do. */
  ghost function TotalGain(s: Features, c: bool, m: Manner): (r: real)
    requires Shaped(s, c, m)
    decreases |s|
  {
    if s == [] then 0.0
    else if s[0].kind.GraceOn? then Gain(s, m) + TotalGain(s[GroupOf(s).end + 1..], c, m)
    else TotalGain(s[1..], NextChord(c, s[0]), NextManner(m, s[0]))
  }

  /** s may be replaced by r without a difference to the groups. */
  ghost predicate AsBefore(s: Features, c: bool, m: Manner, r: Features, c': bool) {
    Shaped(s, c, m) ==> Shaped(r, c', m) && TotalGain(r, c', m) == TotalGain(s, c, m)
  }

  lemma {:induction false} GraceRun(s: Features, k: nat, e: nat, c: bool, m: Manner)
    requires k <= e < |s| && s[e].kind.GraceOff?
    requires forall i :: k <= i < e ==> !s[i].kind.GraceOn? && !s[i].kind.SetGrace?
    ensures var c' := ChordIn(s, k, e, c);
            && MainTime(s[k..], c) == TimeIn(s, k, e, c) + MainTime(s[e + 1..], c')
            && AsBefore(s[e + 1..], c', m, s[k..], c)
    decreases e - k
  {
    assert s[k..][1..] == s[k + 1..];
    if k < e {
      GraceRun(s, k + 1, e, NextChord(c, s[k]), m);
    }
  }

  /** What the walk over the host needs: x becomes x', the host takes h to e, and the end of it gives up d. */
  ghost predicate HostCut(x: Features, x': Features, h: nat, e: nat, d: real) {
    && h <= e < |x| == |x'|
    && (forall k :: 0 <= k < |x| ==> x'[k].kind == x[k].kind)
    && (forall k :: 0 <= k < |x| && !(h <= k <= e && HasLength(x[k].kind)) ==> x'[k] == x[k])
    && (forall k :: 0 <= k <= e ==> !x[k].kind.GraceOn?)
    && x[e].denom > 0 && x'[e].denom > 0 && Length(x'[e]).Val() == Length(x[e]).Val() - d
  }

  lemma {:induction false} ChordShift(x: Features, x': Features, e: nat, d: real, m: Manner)
    requires HostCut(x, x', 0, e, d) && Closes(x[e].kind) && forall k :: 0 <= k < e ==> !Closes(x[k].kind)
    ensures MainTime(x', true) == MainTime(x, true) - d
    ensures AsBefore(x, true, m, x', true)
    decreases e
  {
    if e > 0 {
      assert HostCut(x[1..], x'[1..], 0, e - 1, d);
      ChordShift(x[1..], x'[1..], e - 1, d, NextManner(m, x[0]));
    } else {
      assert x'[1..] == x[1..];
    }
  }

  lemma {:induction false} HostShift(x: Features, x': Features, h: nat, e: nat, d: real, c: bool, m: Manner)
    requires HostCut(x, x', h, e, d) && Plays(x[h].kind) && forall k :: 0 <= k < h ==> !HasLength(x[k].kind)
    requires if c || ChordBegins(x, 0, h)
             then h < e && Closes(x[e].kind) && forall k :: h < k < e ==> !Closes(x[k].kind)
             else h == e
    ensures MainTime(x', c) == MainTime(x, c) - d
    ensures AsBefore(x, c, m, x', c)
    decreases h
  {
    if h > 0 {
      var c' := NextChord(c, x[0]);
      assert ChordBegins(x[1..], 0, h - 1) == (exists i :: 1 <= i < h && x[i].kind.ChordOn?) by {
        assert forall i :: 0 <= i < h - 1 ==> x[1..][i] == x[i + 1];
        assert forall i :: 1 <= i < h ==> x[i] == x[1..][i - 1];
      }
      assert HostCut(x[1..], x'[1..], h - 1, e - 1, d);
      HostShift(x[1..], x'[1..], h - 1, e - 1, d, c', NextManner(m, x[0]));
    } else if c {
      ChordShift(x, x', e, d, m);
    } else {
      assert x'[1..] == x[1..];
    }
  }

  // ---------- Grace notes steal time and never add it ----------

  lemma HostSide(s: Features, m: Manner, u: Features)
    requires GroupShape(s) && HasHost(s, m) && !TooLong(s, m)
    requires |u| == |s| && forall k :: 0 <= k < |s| ==> u[k] == Changed(s, m, k)
    ensures var b := GroupOf(s).end + 1;
            && MainTime(u[b..], false) == MainTime(s[b..], false) - HostGives(s, m)
            && AsBefore(s[b..], false, m, u[b..], false)
  {
    HostEndVal(s, m);
    HostMoves(s, u, HostGives(s, m), m);
  }

  lemma HostEndVal(s: Features, m: Manner)
    requires HasHost(s, m) && !TooLong(s, m)
    ensures var x, y := s[GroupOf(s).hostEnd], Changed(s, m, GroupOf(s).hostEnd);
            x.denom > 0 && y.denom > 0 && Length(y).Val() == Length(x).Val() - HostGives(s, m)
  {
    var e := GroupOf(s).hostEnd;
    assert LengthOk(s[e]);
    if m.orig {
      HostOrig(s, m, e);
      Distribute(1.0, -Frac(m.num, m.denom).Val(), Length(s[e]).Val());
    } else {
      HostNew(s, m, e);
    }
  }

  ghost function HostGives(s: Features, m: Manner): (d: real)
    requires HasHost(s, m)
  {
    if m.orig then Given(s, m) else HostExcess(s, m) + Given(s, m)
  }

  lemma ChordBeginsAt(s: Features, b: nat, h: nat)
    requires b <= h <= |s|
    ensures ChordBegins(s, b, h) <==> ChordBegins(s[b..], 0, h - b)
  {
    if i :| b <= i < h && s[i].kind.ChordOn? {
      assert s[b..][i - b].kind.ChordOn?;
    }
  }

  lemma HostMoves(s: Features, u: Features, d: real, m: Manner)
    requires GroupShape(s) && |u| == |s|
    requires var g := GroupOf(s);
             && (forall k :: 0 <= k < |s| ==> u[k].kind == s[k].kind)
             && (forall k :: g.end < k < |s| && !(g.host <= k <= g.hostEnd && HasLength(s[k].kind)) ==> u[k] == s[k])
             && s[g.hostEnd].denom > 0 && u[g.hostEnd].denom > 0
             && Length(u[g.hostEnd]).Val() == Length(s[g.hostEnd]).Val() - d
    ensures var b := GroupOf(s).end + 1;
            && MainTime(u[b..], false) == MainTime(s[b..], false) - d
            && AsBefore(s[b..], false, m, u[b..], false)
  {
    var g, b := GroupOf(s), GroupOf(s).end + 1;
    HostCutBehind(s, u, b, g.host, g.hostEnd, d);
    HostFacts(s);
    HostShift(s[b..], u[b..], g.host - b, g.hostEnd - b, d, false, m);
  }

  lemma HostCutBehind(s: Features, u: Features, b: nat, h: nat, e: nat, d: real)
    requires b <= h <= e < |s| == |u|
    requires forall k :: b <= k < |s| ==>
             u[k].kind == s[k].kind && (!(h <= k <= e && HasLength(s[k].kind)) ==> u[k] == s[k])
    requires forall k :: b <= k <= e ==> !s[k].kind.GraceOn?
    requires s[e].denom > 0 && u[e].denom > 0 && Length(u[e]).Val() == Length(s[e]).Val() - d
    ensures HostCut(s[b..], u[b..], h - b, e - b, d)
  {
  }

  /** The host as the walk from the end of the group finds it. */
  lemma HostFacts(s: Features)
    requires GroupShape(s)
    ensures var g, b := GroupOf(s), GroupOf(s).end + 1;
            var x, h, e := s[b..], g.host - b, g.hostEnd - b;
            && Plays(x[h].kind) && (forall k :: 0 <= k < h ==> !HasLength(x[k].kind))
            && if ChordBegins(x, 0, h) then h < e && Closes(x[e].kind) && forall k :: h < k < e ==> !Closes(x[k].kind)
               else h == e
  {
    var g, b := GroupOf(s), GroupOf(s).end + 1;
    ChordBeginsAt(s, b, g.host);
    assert forall k :: 0 <= k < |s[b..]| ==> s[b..][k] == s[k + b];
  }

  lemma GraceSide(s: Features, m: Manner, u: Features, f: real)
    requires GroupShape(s) && HasHost(s, m)
    requires |u| == |s| && forall k :: 0 <= k < |s| ==> u[k] == Changed(s, m, k)
    requires Factor(s, m).Ok() ==> f == Factor(s, m).Val()
    ensures var b := GroupOf(s).end + 1;
            && MainTime(u[1..], false) == GroupTime(s) * f + MainTime(u[b..], false)
            && AsBefore(u[b..], false, m, u[1..], false)
  {
    AllScaled(s, m, u, f);
    GroupScaled(s, u, f);
    GraceRun(u, 1, GroupOf(s).end, false, m);
  }

  lemma SameProduct(a: real, b: real, f: real)
    requires f > 0.0
    ensures a * f == b * f <==> a == b
  {
    assert a * f - b * f == (a - b) * f;
  }

  /** Giving a group its lengths changes the playing time by the gain, which is nothing exactly when the group
      is even. */
  lemma ApplyKeepsTime(s: Features, m: Manner)
    requires GroupShape(s) && HasHost(s, m) && !TooLong(s, m)
    ensures MainTime(Apply(s, m)[1..], false) == MainTime(s, false) + Gain(s, m)
    ensures Gain(s, m) == 0.0 <==> Even(s, m)
    ensures AsBefore(s[GroupOf(s).end + 1..], false, m, Apply(s, m)[1..], false)
  {
    ApplyAt(s, m);
    var f := GraceShare(s, m);
    EvenIff(s, m, f);
    ApplyTime(s, m, Apply(s, m), f);
    BehindGroup(s);
    GainIs(s, m, f);
  }

  lemma GainIs(s: Features, m: Manner, f: real)
    requires HasHost(s, m) && !TooLong(s, m) && f == if Factor(s, m).Ok() then Factor(s, m).Val() else 0.0
    ensures Gain(s, m) == GroupTime(s) * f - HostGives(s, m)
  {
  }

  lemma BehindGroup(s: Features)
    requires GroupShape(s)
    ensures MainTime(s, false) == MainTime(s[GroupOf(s).end + 1..], false)
  {
  }

  lemma ApplyTime(s: Features, m: Manner, u: Features, f: real)
    requires GroupShape(s) && HasHost(s, m) && !TooLong(s, m)
    requires |u| == |s| && forall k :: 0 <= k < |s| ==> u[k] == Changed(s, m, k)
    requires f == if Factor(s, m).Ok() then Factor(s, m).Val() else 0.0
    ensures var b := GroupOf(s).end + 1;
            && MainTime(u[1..], false) == MainTime(s[b..], false) + (GroupTime(s) * f - HostGives(s, m))
            && AsBefore(s[b..], false, m, u[1..], false)
  {
    GraceSide(s, m, u, f);
    HostSide(s, m, u);
    var b := GroupOf(s).end + 1;
    AsBeforeTrans(s[b..], u[b..], u[1..], m);
  }

  lemma AsBeforeTrans(a: Features, b: Features, c: Features, m: Manner)
    requires AsBefore(a, false, m, b, false) && AsBefore(b, false, m, c, false)
    ensures AsBefore(a, false, m, c, false)
  {
  }

  /** The group gets what the host gives up exactly when it is even. */
  lemma EvenIff(s: Features, m: Manner, f: real)
    requires HasHost(s, m) && (!m.orig ==> f == Frac(1, m.denom).Val())
    requires if !m.orig || HasNote(s, GroupOf(s).end) then f > 0.0 && GroupSum(s) * f == Given(s, m)
             else GroupTime(s) == 0.0 && Given(s, m) > 0.0
    ensures GroupTime(s) * f == HostGives(s, m) <==> Even(s, m)
  {
    var excess := if m.orig then 0.0 else HostExcess(s, m);
    if !m.orig || HasNote(s, GroupOf(s).end) {
      Balance(GroupTime(s), GroupSum(s), f, excess, Given(s, m));
    }
  }

  lemma Balance(time: real, sum: real, f: real, excess: real, given: real)
    requires sum * f == given && f > 0.0
    ensures time * f == excess + given <==> (time - sum) * f == excess
    ensures time * f == given <==> time == sum
    ensures 0.0 * f == 0.0
  {
    assert (time - sum) * f == time * f - sum * f;
  }

  /** A group that is too long is cut out, and nothing else changes, the time either. */
  lemma CutKeepsTime(s: Features, m: Manner)
    requires GroupShape(s) && HasHost(s, m) && TooLong(s, m)
    ensures Apply(s, m) == s[GroupOf(s).end + 1..]
    ensures MainTime(Apply(s, m), false) == MainTime(s, false)
    ensures !Apply(s, m)[0].kind.GraceOn?
  {
  }

  /** Where a chord ends as long as its first note is, as the parser lets it, and a group holds a note and no
      chord, either manner keeps the time. */
  lemma PlainGroupIsEven(s: Features, m: Manner)
    requires GroupShape(s) && HasHost(s, m) && HasNote(s, GroupOf(s).end) && HostExcess(s, m) == 0.0
    requires forall k :: 0 < k < GroupOf(s).end ==> !Closes(s[k].kind) && !s[k].kind.ChordOn?
    ensures Even(s, m)
  {
    SpanIsTime(s, 1, GroupOf(s).end);
    SpanJoin(s, 0, 1, GroupOf(s).end + 1);
    assert Span(s, 0, 1) == Delay(s[0]) == 0.0;
    assert Span(s, 1, GroupOf(s).end + 1) == Span(s, 1, GroupOf(s).end) + Delay(s[GroupOf(s).end]);
  }

  lemma {:induction false} SpanIsTime(s: Features, k: nat, e: nat)
    requires k <= e <= |s| && forall i :: k <= i < e ==> !Closes(s[i].kind) && !s[i].kind.ChordOn?
    ensures TimeIn(s, k, e, false) == Span(s, k, e)
    decreases e - k
  {
    if k < e {
      SpanIsTime(s, k + 1, e);
      SpanJoin(s, k, k + 1, e);
      assert Span(s, k, k + 1) == Delay(s[k]);
    }
  }

  /** {[CE]}A with all lengths equal: the group is given time for two notes and takes the time of one, so that
      time is lost. */
  lemma ChordInGroupLosesTime(f: Feature, m: Manner)
    requires f.num > 0 && f.denom > 0 && MannerOk(m)
    ensures var s := ChordInGroup(f);
            GroupShape(s) && HasHost(s, m) && !Even(s, m) && (!TooLong(s, m) ==> Gain(s, m) < 0.0)
  {
    var s, l := ChordInGroup(f), Length(f).Val();
    ChordCounted(f, m);
    if !m.orig {
      Positive(Frac(1, m.denom));
      SameProduct(GroupTime(s) - GroupSum(s), 0.0, Frac(1, m.denom).Val());
    }
    if !TooLong(s, m) {
      HalfIsLost(s, m, l);
    }
  }

  function ChordInGroup(f: Feature): (s: Features) {
    var n := f.(kind := Note);
    [f.(kind := GraceOn), f.(kind := ChordOn), n, n, f.(kind := ChordOff), f.(kind := GraceOff), n]
  }

  lemma ChordCounted(f: Feature, m: Manner)
    requires f.num > 0 && f.denom > 0 && MannerOk(m)
    ensures var s, l := ChordInGroup(f), Length(f).Val();
            && GroupShape(s) && HasHost(s, m) && HasNote(s, GroupOf(s).end) && HostExcess(s, m) == 0.0
            && l > 0.0 && GroupTime(s) == l && GroupSum(s) == l + l
  {
    var s := ChordInGroup(f);
    assert EndOf(s, 1) == EndOf(s, 2) == EndOf(s, 3) == EndOf(s, 4) == EndOf(s, 5) == 5;
    assert GroupOf(s) == Group(5, 6, 6);
    var l := Length(f).Val();
    Positive(Length(f));
    assert ChordIn(s, 1, 5, false) == ChordIn(s, 2, 5, true) == ChordIn(s, 3, 5, true) == ChordIn(s, 4, 5, true);
    assert TimeIn(s, 4, 5, true) == l && TimeIn(s, 3, 5, true) == l && TimeIn(s, 2, 5, true) == l;
    assert GroupTime(s) == l;
    assert Span(s, 0, 1) == 0.0 && Span(s, 0, 2) == 0.0 && Span(s, 0, 3) == l && Span(s, 0, 4) == l + l;
    assert Span(s, 0, 5) == l + l && GroupSum(s) == l + l;
  }

  lemma HalfIsLost(s: Features, m: Manner, l: real)
    requires HasHost(s, m) && !TooLong(s, m) && l > 0.0 && GroupTime(s) == l && GroupSum(s) == l + l
    requires if m.orig then HasNote(s, GroupOf(s).end) else HostExcess(s, m) == 0.0
    ensures Gain(s, m) < 0.0
  {
    var f := GraceShare(s, m);
    GainIs(s, m, f);
    assert (l + l) * f == l * f + l * f && l * f > 0.0;
  }

  // ---------- The whole tune ----------

  function First(s: Features, m: Manner): (r: Features)
    requires s != [] && (s[0].kind.GraceOn? ==> Applies(s, m))
    ensures 0 < |r| <= |s|
  {
    if s[0].kind.GraceOn? then Apply(s, m) else s
  }

  /** The gain of the group that the first turn of the loop deals with, if it does. */
  ghost function FirstGain(s: Features, m: Manner): (r: real)
    requires s != [] && (s[0].kind.GraceOn? ==> HasHost(s, m))
  {
    if s[0].kind.GraceOn? then Gain(s, m) else 0.0
  }

  lemma StepKeeps(s: Features, m: Manner, c: bool)
    requires s != [] && Shaped(s, c, m) && MannerOk(m) && forall k :: 0 <= k < |s| ==> LengthOk(s[k])
    ensures s[0].kind.GraceOn? ==> HasHost(s, m)
    ensures var u, d := First(s, m), FirstGain(s, m);
            && Shaped(u[1..], NextChord(c, u[0]), NextManner(m, u[0])) && MannerOk(NextManner(m, u[0]))
            && (forall k :: 0 <= k < |u| ==> LengthOk(u[k]))
            && TimeOf(u[0], c) + MainTime(u[1..], NextChord(c, u[0])) == MainTime(s, c) + d
            && TotalGain(s, c, m) == d + TotalGain(u[1..], NextChord(c, u[0]), NextManner(m, u[0]))
  {
    if s[0].kind.GraceOn? {
      if TooLong(s, m) {
        CutKeepsTime(s, m);
      } else {
        ApplyAt(s, m);
        ApplyKeepsTime(s, m);
        LengthsStay(s, m);
      }
    }
    assert LengthOk(First(s, m)[0]);
  }

  lemma LengthsStay(s: Features, m: Manner)
    requires HasHost(s, m) && !TooLong(s, m)
    ensures forall k :: 0 <= k < |s| ==> LengthOk(Apply(s, m)[k])
  {
    forall k | 0 <= k < |s|
      ensures LengthOk(Apply(s, m)[k])
    {
      assert LengthOk(s[k]);
      if 0 < k < GroupOf(s).end {
        GraceNoteVal(s, m, k);
      } else if GroupOf(s).host <= k <= GroupOf(s).hostEnd && HasLength(s[k].kind) {
        if m.orig { HostOrig(s, m, k); } else { HostNew(s, m, k); }
      }
    }
  }

  /** dograce from the beginning of s. */
  ghost function Graced(s: Features, m: Manner, c: bool): (r: Features)
    requires Shaped(s, c, m) && MannerOk(m) && forall k :: 0 <= k < |s| ==> LengthOk(s[k])
    decreases |s|
  {
    if s == [] then []
    else
      StepKeeps(s, m, c);
      var u := First(s, m);
      [u[0]] + Graced(u[1..], NextManner(m, u[0]), NextChord(c, u[0]))
  }

  /** However many groups there are, and whichever way each gets its lengths, the tune lasts as long as if
      its grace notes took no time, but for what the groups gain. */
  lemma {:induction false} GracedTime(s: Features, m: Manner, c: bool)
    requires Shaped(s, c, m) && MannerOk(m) && forall k :: 0 <= k < |s| ==> LengthOk(s[k])
    ensures AllTime(Graced(s, m, c), c) == MainTime(s, c) + TotalGain(s, c, m)
    decreases |s|
  {
    if s != [] {
      StepKeeps(s, m, c);
      var u := First(s, m);
      GracedTime(u[1..], NextManner(m, u[0]), NextChord(c, u[0]));
      assert Graced(s, m, c)[1..] == Graced(u[1..], NextManner(m, u[0]), NextChord(c, u[0]));
    }
  }

  /** Every group is cut off or even. */
  ghost predicate AllEven(s: Features, c: bool, m: Manner)
    requires Shaped(s, c, m)
    decreases |s|
  {
    s != [] ==>
      if s[0].kind.GraceOn? then
        (TooLong(s, m) || Even(s, m)) && AllEven(s[GroupOf(s).end + 1..], c, m)
      else AllEven(s[1..], NextChord(c, s[0]), NextManner(m, s[0]))
  }

  lemma {:induction false} EvenGainsNothing(s: Features, c: bool, m: Manner)
    requires Shaped(s, c, m) && AllEven(s, c, m)
    ensures TotalGain(s, c, m) == 0.0
    decreases |s|
  {
    if s != [] {
      if s[0].kind.GraceOn? {
        if !TooLong(s, m) { ApplyKeepsTime(s, m); }
        EvenGainsNothing(s[GroupOf(s).end + 1..], c, m);
      } else {
        EvenGainsNothing(s[1..], NextChord(c, s[0]), NextManner(m, s[0]));
      }
    }
  }

  /** With even groups grace notes steal time and never add it. */
  lemma GracedKeepsTime(s: Features, m: Manner, c: bool)
    requires Shaped(s, c, m) && MannerOk(m) && forall k :: 0 <= k < |s| ==> LengthOk(s[k])
    requires AllEven(s, c, m)
    ensures AllTime(Graced(s, m, c), c) == MainTime(s, c)
  {
    GracedTime(s, m, c);
    EvenGainsNothing(s, c, m);
  }
}
