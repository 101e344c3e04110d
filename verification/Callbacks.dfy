/** The callback of timestep refills the queue that timestep is emptying. When does the expiring
    entry stay at the head, so that the fatal checks of removefromQ never fire? */
module Callbacks {
  import opened Fractions
  import opened NoteQueue
  import opened Clock

  function Ticks(c: Config, num: int, denom: int): (t: int)
    requires denom != 0
  {
    CDiv(c.divFactor * num, denom)
  }

  /** The expiring entry waits for its removal. */
  predicate AtHead(q: seq<Entry>, e: Entry) {
    q != [] && q[0] == e && e.delay == 0
  }

  lemma AddedBehind(c: Config, s: Clock, num: int, denom: int, pitch: int, chan: int, d: int, e: Entry)
    requires denom > 0 && AtHead(s.q, e) && Ordered(s.q) && Ticks(c, num, denom) + d >= 0
    ensures var r := AddToQ(c, s, num, denom, pitch, chan, 0, d); AtHead(r.q, e) && Ordered(r.q)
  {
    InsertRefines(s.q, Entry(Ticks(c, num, denom) + d, pitch, chan, 0), s.notedelay);
  }

  lemma {:induction false} SavedBehind(c: Config, s: Clock, num: int, denom: int, ns: seq<Struck>, e: Entry)
    requires denom > 0 && AtHead(s.q, e) && Ordered(s.q) && (ns != [] ==> Ticks(c, num, denom) >= 1)
    ensures var r := SaveNotes(c, s, num, denom, ns); AtHead(r.q, e) && Ordered(r.q)
    decreases |ns|
  {
    if ns != [] {
      var p := if ns[0].chan == DRUMS then ns[0].pitch else ns[0].pitch + c.transpose + c.globalTranspose;
      AddedBehind(c, NoteOnData(c, s, p, 8192, ns[0].chan, ns[0].vel), num, denom, p, ns[0].chan, -1, e);
      SavedBehind(c, SaveNote(c, s, num, denom, ns[0].pitch, ns[0].chan, ns[0].vel), num, denom, ns[1..], e);
    }
  }

  lemma TicksNonNegative(c: Config, p: Pattern, n: nat)
    requires p.Valid() && n < |p.steps|
    ensures p.num * p.len[n] >= 0 && Ticks(c, p.num * p.len[n], p.denom) >= 0
  {
    assert c.divFactor * (p.num * p.len[n]) >= 0;
  }

  // ---------- Long enough steps are safe ----------

  predicate GchordStepSafe(c: Config, n: nat)
    requires c.Valid() && n < |c.gchord.steps|
  {
    StepSounds(c, c.gchord.steps[n]) == [] || Ticks(c, c.gchord.num * c.gchord.len[n], c.gchord.denom) >= 1
  }

  function Hit(c: Config, n: nat): (r: seq<Struck>)
    requires c.Valid() && n < |c.drum.steps|
  {
    if c.drum.steps[n] == 'd' && c.drumOn then [Struck(c.drumProgram[n], DRUMS, c.drumVelocity[n])] else []
  }

  predicate DrumStepSafe(c: Config, n: nat)
    requires c.Valid() && n < |c.drum.steps|
  {
    Hit(c, n) == [] || Ticks(c, c.drum.num * c.drum.len[n], c.drum.denom) >= 1
  }

  /** Every accompaniment step that starts a note lasts at least one tick. */
  ghost predicate StepsAudible(c: Config)
    requires c.Valid()
  {
    && (c.gchordson ==> forall n: nat :: n < |c.gchord.steps| ==> GchordStepSafe(c, n))
    && (c.drumson ==> forall n: nat :: n < |c.drum.steps| ==> DrumStepSafe(c, n))
  }

  lemma GchordsBehind(c: Config, s: Clock, i: int, e: Entry)
    requires c.Valid() && AtHead(s.q, e) && Ordered(s.q)
    requires s.gptr < |c.gchord.steps| ==> GchordStepSafe(c, s.gptr)
    ensures AtHead(DoGchords(c, s, i).q, e) && Ordered(DoGchords(c, s, i).q)
  {
    if i == s.gptr && s.gptr < |c.gchord.steps| {
      var num := c.gchord.num * c.gchord.len[s.gptr];
      var ns := StepSounds(c, c.gchord.steps[s.gptr]);
      TicksNonNegative(c, c.gchord, s.gptr);
      SavedBehind(c, s, num, c.gchord.denom, ns, e);
      var s1 := SaveNotes(c, s, num, c.gchord.denom, ns).(gptr := s.gptr + 1);
      AddedBehind(c, s1, num, c.gchord.denom, REQUEST, s.gptr + 1, 0, e);
    }
  }

  lemma DrumsBehind(c: Config, s: Clock, i: int, e: Entry)
    requires c.Valid() && AtHead(s.q, e) && Ordered(s.q)
    requires s.dptr < |c.drum.steps| ==> DrumStepSafe(c, s.dptr)
    ensures AtHead(DoDrums(c, s, i).q, e) && Ordered(DoDrums(c, s, i).q)
  {
    if i == s.dptr && s.dptr < |c.drum.steps| {
      var num := c.drum.num * c.drum.len[s.dptr];
      TicksNonNegative(c, c.drum, s.dptr);
      SavedBehind(c, s, num, c.drum.denom, Hit(c, s.dptr), e);
      var s1 := SaveNotes(c, s, num, c.drum.denom, Hit(c, s.dptr)).(dptr := s.dptr + 1);
      AddedBehind(c, s1, num, c.drum.denom, REQUEST, s.dptr + 1, 0, e);
    }
  }

  lemma ExpiringStaysAtHead(c: Config, s: Clock, atend: bool)
    requires c.Valid() && StepsAudible(c) && s.q != [] && Ordered(s.q)
    ensures var r := Expire(c, ToHead(s), atend);
            AtHead(r.q, s.q[0].(delay := 0)) && Ordered(r.q)
  {
    var s1, e := ToHead(s), s.q[0].(delay := 0);
    if e.pitch == REQUEST && !atend {
      if c.gchordson {
        GchordsBehind(c, s1, e.chan, e);
      }
      if c.drumson {
        DrumsBehind(c, if c.gchordson then DoGchords(c, s1, e.chan) else s1, e.chan, e);
      }
    }
  }

  /** While every sounding step lasts a tick, timestep never meets its fatal internal error,
      whatever the queue holds and however often the callback refills it. */
  lemma {:induction false} TimestepNeverFatal(c: Config, s: Clock, t: int, atend: bool)
    requires c.Valid() && StepsAudible(c) && Ordered(s.q)
    ensures Timestep(c, s, t, atend).Done?
    ensures Ordered(Timestep(c, s, t, atend).s.q)
    decreases StepsLeft(c, s), |s.q|
  {
    if s.q != [] && s.q[0].delay < t {
      ExpiringStaysAtHead(c, s, atend);
      var s1 := Expire(c, ToHead(s), atend);
      TimestepNeverFatal(c, s1.(q := s1.q[1..]), t - s.q[0].delay, atend);
    }
  }

  // ---------- Too short a step is fatal ----------

  /** The step about to be played starts a note although it is shorter than a tick. */
  predicate GchordTooShort(c: Config, s: Clock, i: int)
    requires c.Valid()
  {
    && i == s.gptr && s.gptr < |c.gchord.steps| && |s.q| < QSIZE
    && !GchordStepSafe(c, s.gptr)
  }

  /** A negative wait takes over the head, and nothing later in the step takes it back. */
  lemma {:induction false} SavedBefore(c: Config, s: Clock, num: int, denom: int, ns: seq<Struck>)
    requires denom > 0 && Ticks(c, num, denom) == 0 && s.q != []
    requires s.q[0].delay == -1 || (s.q[0].delay == 0 && ns != [] && |s.q| < QSIZE)
    ensures var r := SaveNotes(c, s, num, denom, ns); r.q != [] && r.q[0].delay == -1
    decreases |ns|
  {
    if ns != [] {
      SavedBefore(c, SaveNote(c, s, num, denom, ns[0].pitch, ns[0].chan, ns[0].vel), num, denom, ns[1..]);
    }
  }

  /** Exactly when playing a guitar-chord step displaces the entry that asked for it. */
  lemma GchordDisplacesIff(c: Config, s: Clock, i: int)
    requires c.Valid() && s.q != [] && s.q[0].delay == 0 && Ordered(s.q)
    ensures DoGchords(c, s, i).q[0].delay != 0 <==> GchordTooShort(c, s, i)
    ensures GchordTooShort(c, s, i) ==> DoGchords(c, s, i).q[0].delay == -1
    ensures !GchordTooShort(c, s, i) ==> Ordered(DoGchords(c, s, i).q)
  {
    if i == s.gptr && s.gptr < |c.gchord.steps| {
      var num := c.gchord.num * c.gchord.len[s.gptr];
      var ns := StepSounds(c, c.gchord.steps[s.gptr]);
      TicksNonNegative(c, c.gchord, s.gptr);
      if GchordStepSafe(c, s.gptr) {
        GchordsBehind(c, s, i, s.q[0]);
      } else if |s.q| < QSIZE {
        SavedBefore(c, s, num, c.gchord.denom, ns);
      } else {
        FullQueue(c, s, num, c.gchord.denom, ns);
      }
    }
  }

  /** The drum step about to be played starts a note although it is shorter than a tick. */
  predicate DrumTooShort(c: Config, s: Clock, i: int)
    requires c.Valid()
  {
    && i == s.dptr && s.dptr < |c.drum.steps| && |s.q| < QSIZE
    && !DrumStepSafe(c, s.dptr)
  }

  /** Exactly when playing a drum step displaces the entry that asked for it. */
  lemma DrumDisplacesIff(c: Config, s: Clock, i: int)
    requires c.Valid() && s.q != [] && s.q[0].delay == 0 && Ordered(s.q)
    ensures DoDrums(c, s, i).q[0].delay != 0 <==> DrumTooShort(c, s, i)
  {
    if i == s.dptr && s.dptr < |c.drum.steps| {
      var num := c.drum.num * c.drum.len[s.dptr];
      TicksNonNegative(c, c.drum, s.dptr);
      if DrumStepSafe(c, s.dptr) {
        DrumsBehind(c, s, i, s.q[0]);
      } else if |s.q| < QSIZE {
        SavedBefore(c, s, num, c.drum.denom, Hit(c, s.dptr));
      } else {
        FullQueue(c, s, num, c.drum.denom, Hit(c, s.dptr));
      }
    }
  }

  lemma {:induction false} FullQueue(c: Config, s: Clock, num: int, denom: int, ns: seq<Struck>)
    requires denom != 0 && |s.q| >= QSIZE
    ensures SaveNotes(c, s, num, denom, ns).q == s.q
    decreases |ns|
  {
    if ns != [] {
      FullQueue(c, SaveNote(c, s, num, denom, ns[0].pitch, ns[0].chan, ns[0].vel), num, denom, ns[1..]);
    }
  }

  /** A head that has taken over is not displaced by anything that waits. */
  lemma {:induction false} DisplacedStays(c: Config, s: Clock, num: int, denom: int, ns: seq<Struck>)
    requires denom > 0 && Ticks(c, num, denom) >= 0 && s.q != [] && s.q[0].delay == -1
    ensures var r := SaveNotes(c, s, num, denom, ns); r.q != [] && r.q[0].delay == -1
    decreases |ns|
  {
    if ns != [] {
      DisplacedStays(c, SaveNote(c, s, num, denom, ns[0].pitch, ns[0].chan, ns[0].vel), num, denom, ns[1..]);
    }
  }

  lemma DisplacedForDrums(c: Config, s: Clock, i: int)
    requires c.Valid() && s.q != [] && s.q[0].delay == -1
    ensures DoDrums(c, s, i).q[0].delay == -1
  {
    if i == s.dptr && s.dptr < |c.drum.steps| {
      TicksNonNegative(c, c.drum, s.dptr);
      DisplacedStays(c, s, c.drum.num * c.drum.len[s.dptr], c.drum.denom, Hit(c, s.dptr));
    }
  }

  /** What the callback is about to play, of guitar chords, drums or both, is too short. */
  predicate TooShort(c: Config, s: Clock, i: int)
    requires c.Valid()
  {
    || (c.gchordson && GchordTooShort(c, s, i))
    || (c.drumson && DrumTooShort(c, if c.gchordson then DoGchords(c, s, i) else s, i))
  }

  lemma ProgressDisplacesIff(c: Config, s: Clock, i: int)
    requires c.Valid() && s.q != [] && s.q[0].delay == 0 && Ordered(s.q)
    ensures Progress(c, s, i).q[0].delay != 0 <==> TooShort(c, s, i)
  {
    var s1 := if c.gchordson then DoGchords(c, s, i) else s;
    if c.gchordson {
      GchordDisplacesIff(c, s, i);
    }
    if c.drumson {
      if s1.q[0].delay == 0 {
        DrumDisplacesIff(c, s1, i);
      } else {
        DisplacedForDrums(c, s1, i);
      }
    }
  }

  /** On any track a due request is the end of the program exactly when its step is too short, and
      otherwise time goes on with the request gone. */
  lemma RequestFatalIff(c: Config, s: Clock, t: int)
    requires c.Valid() && Ordered(s.q) && s.q != [] && s.q[0].pitch == REQUEST && s.q[0].delay < t
    ensures TooShort(c, ToHead(s), s.q[0].chan) ==> Timestep(c, s, t, false) == Fatal
    ensures !TooShort(c, ToHead(s), s.q[0].chan) ==>
              var s1 := Progress(c, ToHead(s), s.q[0].chan);
              s1.q[0].delay == 0 && Timestep(c, s, t, false)
                  == Timestep(c, s1.(q := s1.q[1..]), t - s.q[0].delay, false)
  {
    ProgressDisplacesIff(c, ToHead(s), s.q[0].chan);
  }
}
