/** Which notes the steps of an accompaniment start: bass, chord, single notes of the chord, drums. */
module Strokes {
  import opened NoteQueue
  import opened Clock
  import opened ClockLaws
  import opened Callbacks
  import A = Accompaniment

  // ---------- One step ----------

  /** The note-on of an accompaniment note: transposed off the drum channel, mapped on it. */
  function NoteOf(c: Config, at: int, pitch: int, i: Instrument): (r: Stamped) {
    On(at, if i.chan == DRUMS then c.Mapped(pitch) else pitch + c.transpose + c.globalTranspose, i.chan, i.vel)
  }

  predicate IsBass(c: Config, at: int, xs: seq<Stamped>) {
    xs == [NoteOf(c, at, (if c.inversion == -1 then c.basepitch else c.inversion) + c.fun.base, c.fun)]
  }

  /** All the notes of the chord, in order. */
  ghost predicate IsChord(c: Config, at: int, xs: seq<Stamped>)
    requires c.Valid()
  {
    |xs| == c.chordSize && forall k :: 0 <= k < |xs| ==> xs[k] == NoteOf(c, at, c.chordNotes[k], c.chord)
  }

  /** The n-th note of the chord, shifted; when the chord has no such note, or the accompaniment is off, what
      lies behind its last note. */
  predicate IsNote(c: Config, at: int, n: nat, shift: int, xs: seq<Stamped>)
    requires c.Valid()
  {
    var there := n < c.chordSize && c.gStarted && c.gchords;
    xs == [NoteOf(c, at, if there then c.chordNotes[n] + shift else c.chordNotes[c.chordSize], c.chord)]
  }

  /** What an action of a guitar-chord pattern is to start: f the bass, c the chord (the bass for lack of one),
      b both, g to j one note of the chord, G to J the same an octave down, and z nothing. */
  ghost predicate Meant(c: Config, action: char, at: int, xs: seq<Stamped>)
    requires c.Valid()
  {
    if action == 'f' || (action == 'c' && c.chordnum == -1) then
      if c.gStarted && c.gchords then IsBass(c, at, xs) else xs == []
    else if action == 'c' then
      if c.gStarted && c.gchords then IsChord(c, at, xs) else xs == []
    else if action == 'b' then
      if c.gStarted && c.gchords then xs != [] && IsBass(c, at, xs[..1]) && IsChord(c, at, xs[1..]) else xs == []
    else if 'g' <= action <= 'j' then IsNote(c, at, (action - 'g') as int, 0, xs)
    else if 'G' <= action <= 'J' then IsNote(c, at, (action - 'G') as int, -12, xs)
    else xs == []
  }

  lemma GchordMeant(c: Config, n: nat, at: int)
    requires c.Valid() && c.gchordson && n < |c.gchord.steps|
    ensures Meant(c, c.gchord.steps[n], at, A.Ons(c, at, A.SoundsOf(c, n)))
  {
    var xs, action := A.Ons(c, at, A.SoundsOf(c, n)), c.gchord.steps[n];
    if action == 'b' && c.gStarted && c.gchords {
      assert A.SoundsOf(c, n) == [Fundamental(c)] + FullChord(c);
      assert xs[..1] == [xs[0]];
    }
  }

  /** The due request for a step writes exactly the note-ons its action means, at the moment it is due. */
  lemma DueStepStarts(c: Config, s: Clock, a: A.Acc) returns (s2: Clock)
    requires A.Roomy(c) && A.StepSafeNext(c, a) && A.At(c, s, a) && c.gchordson
    requires a.Acc? && a.ending == [] && a.n < |c.gchord.steps|
    ensures Pop(c, s, false) == Done(s2) && s.log <= s2.log
    ensures Meant(c, c.gchord.steps[a.n], a.at, Timeline(s.tracklen, s2.log[|s.log|..]))
  {
    s2 := A.StepHappens(c, s, a);
    GchordMeant(c, a.n, a.at);
  }

  /** The same for a step of a drum pattern: its drum, with its velocity, through the drum map. */
  lemma DueDrumStarts(c: Config, s: Clock, a: A.Acc) returns (s2: Clock)
    requires A.Roomy(c) && A.StepSafeNext(c, a) && A.At(c, s, a) && c.drumson
    requires a.Acc? && a.ending == [] && a.n < |c.drum.steps|
    ensures Pop(c, s, false) == Done(s2) && s.log <= s2.log
    ensures Timeline(s.tracklen, s2.log[|s.log|..])
         == if c.drum.steps[a.n] == 'd' && c.drumOn
            then [On(a.at, c.Mapped(c.drumProgram[a.n]), DRUMS, c.drumVelocity[a.n])] else []
  {
    s2 := A.StepHappens(c, s, a);
  }

  // ---------- A whole pattern ----------

  /** The note-ons of a stretch. */
  function OnsIn(xs: seq<Stamped>): (r: seq<Stamped>) {
    if xs == [] then [] else (if xs[0].On? then [xs[0]] else []) + OnsIn(xs[1..])
  }

  lemma {:induction false} OnsInJoin(xs: seq<Stamped>, ys: seq<Stamped>)
    ensures OnsIn(xs + ys) == OnsIn(xs) + OnsIn(ys)
    decreases |xs|
  {
    if xs == [] {
      assert xs + ys == ys;
    } else {
      OnsInJoin(xs[1..], ys);
      assert (xs + ys)[1..] == xs[1..] + ys;
      AssocStamped(if xs[0].On? then [xs[0]] else [], OnsIn(xs[1..]), OnsIn(ys));
    }
  }

  lemma {:induction false} AllOns(xs: seq<Stamped>)
    requires forall k :: 0 <= k < |xs| ==> xs[k].On?
    ensures OnsIn(xs) == xs
    decreases |xs|
  {
    if xs != [] {
      AllOns(xs[1..]);
    }
  }

  lemma {:induction false} NoOns(xs: seq<Stamped>)
    requires forall k :: 0 <= k < |xs| ==> !xs[k].On?
    ensures OnsIn(xs) == []
    decreases |xs|
  {
    if xs != [] {
      NoOns(xs[1..]);
    }
  }

  /** The note-ons of steps n to m - 1, each step's when it begins. */
  function Strokes(c: Config, n: nat, at: int, m: nat): (r: seq<Stamped>)
    requires c.Valid() && n <= m <= |A.Pat(c).steps|
    decreases m - n
  {
    if n == m then []
    else A.Ons(c, at, A.SoundsOf(c, n)) + Strokes(c, n + 1, at + A.TicksOf(c, n), m)
  }

  lemma StepStrokes(c: Config, at: int, next: int, xs: seq<Struck>, rest: seq<Stamped>)
    ensures OnsIn(A.Ons(c, at, xs) + A.Offs(c, next - 1, xs) + rest) == A.Ons(c, at, xs) + OnsIn(rest)
  {
    var ons, offs := A.Ons(c, at, xs), A.Offs(c, next - 1, xs);
    OnsInJoin(ons + offs, rest);
    OnsInJoin(ons, offs);
    AllOns(ons);
    NoOns(offs);
    assert ons + [] == ons;
  }

  lemma {:induction false} WholeStrokes(c: Config, n: nat, at: int, m: nat)
    requires c.Valid() && n <= m <= |A.Pat(c).steps|
    ensures OnsIn(A.Whole(c, n, at, m)) == Strokes(c, n, at, m)
    decreases m - n
  {
    if n < m {
      var next := at + A.TicksOf(c, n);
      WholeStrokes(c, n + 1, next, m);
      var xs, rest := A.SoundsOf(c, n), A.Whole(c, n + 1, next, m);
      StepStrokes(c, at, next, xs, rest);
      assert A.Whole(c, n, at, m) == A.Ons(c, at, xs) + A.Offs(c, next - 1, xs) + rest;
      assert Strokes(c, n, at, m) == A.Ons(c, at, xs) + Strokes(c, n + 1, next, m);
    }
  }

  /** The note-ons of one step more. */
  lemma {:induction false} StrokesSnoc(c: Config, n: nat, at: int, m: nat)
    requires c.Valid() && n <= m < |A.Pat(c).steps|
    ensures Strokes(c, n, at, m + 1) == Strokes(c, n, at, m) + A.Ons(c, A.StartOf(c, n, at, m), A.SoundsOf(c, m))
    ensures A.StartOf(c, n, at, m + 1) == A.StartOf(c, n, at, m) + A.TicksOf(c, m)
    decreases m - n
  {
    if n < m {
      var next := at + A.TicksOf(c, n);
      StrokesSnoc(c, n + 1, next, m);
      AssocStamped(A.Ons(c, at, A.SoundsOf(c, n)), Strokes(c, n + 1, next, m),
                   A.Ons(c, A.StartOf(c, n + 1, next, m), A.SoundsOf(c, m)));
    }
  }

  /** The pattern fzcz plays the bass when it begins, the chord two steps later, and nothing else. */
  lemma FzczPlays(c: Config, at: int, n: nat) returns (bass: seq<Stamped>, chord: seq<Stamped>)
    requires c.Valid() && c.gchordson && c.gStarted && c.gchords && c.chordnum != -1 && n == 0
    requires c.gchord.steps == "fzcz" && A.TicksOf(c, n + 3) >= 1
    ensures var t := at + A.TicksOf(c, n) + A.TicksOf(c, n + 1);
            && OnsIn(A.Perform(c, A.Acc(n, at, []), t + A.TicksOf(c, n + 2) + A.TicksOf(c, n + 3)).0) == bass + chord
            && IsBass(c, at, bass) && IsChord(c, t, chord)
  {
    var t := at + A.TicksOf(c, n) + A.TicksOf(c, n + 1);
    bass, chord := A.Ons(c, at, A.SoundsOf(c, n)), A.Ons(c, t, A.SoundsOf(c, n + 2));
    FzczMeant(c, at, t, n);
    FourStrokes(c, at, n);
    A.PlaysEachStepOnce(c, n, at, n + 4);
    WholeStrokes(c, n, at, n + 4);
    NothingAdded(bass, chord);
  }

  lemma FzczMeant(c: Config, at: int, t: int, n: nat)
    requires c.Valid() && c.gchordson && c.gStarted && c.gchords && c.chordnum != -1 && n == 0
    requires c.gchord.steps == "fzcz"
    ensures IsBass(c, at, A.Ons(c, at, A.SoundsOf(c, n))) && IsChord(c, t, A.Ons(c, t, A.SoundsOf(c, n + 2)))
    ensures A.SoundsOf(c, n + 1) == [] && A.SoundsOf(c, n + 3) == []
  {
    GchordMeant(c, n, at);
    GchordMeant(c, n + 1, at);
    GchordMeant(c, n + 2, t);
    GchordMeant(c, n + 3, at);
  }

  lemma FourStrokes(c: Config, at: int, n: nat)
    requires c.Valid() && |A.Pat(c).steps| == n + 4
    ensures var t1 := at + A.TicksOf(c, n);
            var t2 := t1 + A.TicksOf(c, n + 1);
            var t3 := t2 + A.TicksOf(c, n + 2);
            && A.StartOf(c, n, at, n + 4) == t3 + A.TicksOf(c, n + 3)
            && Strokes(c, n, at, n + 4)
            == [] + A.Ons(c, at, A.SoundsOf(c, n)) + A.Ons(c, t1, A.SoundsOf(c, n + 1))
               + A.Ons(c, t2, A.SoundsOf(c, n + 2)) + A.Ons(c, t3, A.SoundsOf(c, n + 3))
  {
    StrokesSnoc(c, n, at, n);
    StrokesSnoc(c, n, at, n + 1);
    StrokesSnoc(c, n, at, n + 2);
    StrokesSnoc(c, n, at, n + 3);
  }

  lemma NothingAdded(a: seq<Stamped>, b: seq<Stamped>)
    ensures [] + a + [] + b + [] == a + b
  {
  }
}
