/** writetrack as the program runs it: a loop over the feature list with the repeat machine's
    variables and the sound state changed in place. */
module WriteTrack {
  import opened Fractions
  import opened NoteQueue
  import C = Clock
  import opened Tune
  import opened Numerals
  import opened P = Playback
  import opened Writer
  import S = Sequencer
  import T = TrackEnd
  import K = Callbacks

  /** The variables that steer the loop. */
  class RepeatMachine {
    var j: nat
    var pass: int
    var maxpass: int
    var expectRepeat: bool
    var inVarend: bool
    var now: Settings
    var savedJ: nat
    var saved: Settings
    var errors: nat

    ghost function State(): (ct: Control)
      reads this
    {
      Control(j, pass, maxpass, expectRepeat, inVarend, now, savedJ, saved, errors)
    }

    constructor (t: Features, voice: int, start: nat, env: Settings)
      requires start <= |t|
      ensures State() == Start(t, voice, start, env)
    {
      j, pass, maxpass := start, 1, 2;
      expectRepeat, inVarend := false, false;
      now, savedJ, saved, errors := env, start, env, 0;
    }

    method Save()
      modifies this
      ensures State() == SaveState(old(State()))
    {
      savedJ, saved := j, now;
    }

    method Restore()
      modifies this
      ensures State() == GoBack(old(State()))
    {
      pass := pass + 1;
      j, now := savedJ, saved;
    }

    /** The feature at j acts on the repeat state, and j moves on. */
    method Turn(t: Features, voice: int)
      requires j < |t|
      modifies this
      ensures State() == Next(t, voice, old(State()))
    {
      var f := t[j];
      if f.kind.BarRep? {
        inVarend := false;
        if pass == 1 && expectRepeat {
          errors := errors + 1;
        }
        Save();
        expectRepeat, pass, maxpass := true, 1, 2;
      } else if f.kind.RepBar? {
        TurnAtRepBar();
      } else if f.kind.DoubleRep? {
        TurnAtDoubleRep();
      } else if f.kind.PlayOnRep? {
        TurnToEnding(t, voice);
      } else if f.kind.DoubleBar? || f.kind.Part? {
        inVarend := false;
      } else if f.kind.Voice? {
        j := SearchVoice(t, j, voice);
      } else if f.kind.Channel? {
        now := now.(channel := f.pitch);
      } else if f.kind.Transpose? {
        now := now.(transpose := f.pitch);
      }
      j := j + 1;
    }

    method TurnAtRepBar()
      modifies this
      ensures State() == AtRepBar(old(State()))
    {
      inVarend := false;
      if pass == 1 {
        if !expectRepeat {
          errors := errors + 1;
        } else {
          Restore();
          expectRepeat := false;
        }
      } else if pass < maxpass {
        Restore();
        expectRepeat := false;
      }
    }

    method TurnAtDoubleRep()
      modifies this
      ensures State() == AtDoubleRep(old(State()))
    {
      inVarend := false;
      if pass > 1 {
        expectRepeat := true;
        Save();
        pass, maxpass := 1, 2;
      } else if !expectRepeat {
        errors := errors + 1;
        expectRepeat := true;
        Save();
        pass := 1;
      } else {
        Restore();
      }
    }

    method TurnToEnding(t: Features, voice: int)
      requires j < |t| && t[j].kind.PlayOnRep?
      modifies this
      ensures State() == AtPlayOnRep(t, voice, old(State()))
    {
      if inVarend {
        errors := errors + 1;
      }
      var passnum := -1;
      if expectRepeat || pass > 1 {
        passnum := pass;
      } else {
        errors := errors + 1;
        passnum := 1;
      }
      var hit, bad := Listed(t[j], passnum);
      errors := errors + bad;
      if hit {
        inVarend := true;
        if maxpass < 4 {
          maxpass := pass + 1;
        }
      } else {
        j := SearchEnd(t, j + 1, voice);
        if j == |t| {
          errors := errors + 1;
        } else if t[j].kind.Part? {
          j := j - 1;
        }
      }
    }
  }

  /** The loop of findvoice. */
  method SearchVoice(t: Features, start: nat, voice: int) returns (j: nat)
    ensures j == FindVoice(t, start, voice) && j >= start
    ensures forall k :: start <= k < j && k < |t| ==> !IsEntry(t[k], voice)
    ensures j < |t| ==> IsEntry(t[j], voice)
  {
    j := start;
    while j < |t| && !(t[j].kind.Part? && voice == 1) && !(t[j].kind.Voice? && t[j].pitch == voice)
      invariant FindVoice(t, j, voice) == FindVoice(t, start, voice)
      invariant start <= j && forall k :: start <= k < j && k < |t| ==> !IsEntry(t[k], voice)
    {
      j := j + 1;
    }
  }

  /** The loop that looks for the end of a variant ending. */
  method SearchEnd(t: Features, start: nat, voice: int) returns (j: nat)
    requires start <= |t|
    ensures j == SkipEnding(t, ToVoice(t, start, voice), voice)
  {
    j := start;
    if j < |t| && t[j].kind.Voice? {
      j := SearchVoice(t, j, voice);
    }
    while j < |t| && !ClosesEnding(t[j].kind)
      invariant start <= j <= |t|
      invariant SkipEnding(t, j, voice) == SkipEnding(t, ToVoice(t, start, voice), voice)
    {
      j := j + 1;
      if j < |t| && t[j].kind.Voice? {
        j := SearchVoice(t, j, voice);
      }
    }
  }

  /** The scanning loop of inlist; bad counts the error of a malformed list. */
  method Listed(f: Feature, pass: int) returns (hit: bool, bad: nat)
    ensures (hit, bad) == InList(f, pass)
  {
    if f.denom != 0 {
      return pass == f.denom, 0;
    }
    var p := f.passes;
    hit, bad := false, 0;
    while !hit && p != []
      invariant if hit then (true, bad) == ScanList(f.passes, pass)
                else bad == 0 && ScanList(p, pass) == ScanList(f.passes, pass)
      decreases |p|, !hit
    {
      if !IsDigit(p[0]) {
        hit, bad := true, 1;
      } else {
        var (a, rest) := ReadNum(p);
        hit := pass == a;
        if rest != [] && rest[0] == '-' {
          var (b, rest') := ReadNum(rest[1..]);
          hit := hit || a <= pass <= b;
          rest := rest';
        }
        if rest != [] && rest[0] == ',' {
          rest := rest[1..];
        }
        p := rest;
      }
    }
  }

  /** The variables of writetrack that concern sound, around the track they drive. */
  class NoteWriter {
    const track: S.Track
    const spread: int        // staticnotedelay
    var inChord: bool
    var noteCount: nat
    var noteNum: int
    var noteDenom: int
    var effect: int
    var globalTranspose: int

    ghost predicate Valid()
      reads this, track, track.queue, track.queue.Q
    {
      track.Valid() && noteDenom > 0
    }

    ghost function State(): (s: Sound)
      requires Valid()
      reads this, track, track.queue, track.queue.Q
    {
      Sound(track.State(), inChord, noteCount, noteNum, noteDenom, effect, globalTranspose)
    }

    constructor (spread: int)
      ensures Valid() && fresh(track) && fresh(track.queue) && fresh(track.queue.Q)
      ensures State() == Opening(spread) && this.spread == spread
    {
      track := new S.Track(spread);
      this.spread := spread;
      inChord, noteCount, noteNum, noteDenom, effect, globalTranspose := false, 0, 0, 1, 0, 0;
    }

    method WaitFor(c: C.Config, a: int, b: int)
      requires Valid() && NoteTrack(c) && b > 0
      modifies track, track.queue, track.queue.Q
      ensures Valid() && SoundOk(old(State()))
      ensures State() == old(State()).(clock := Wait(c, old(State()).clock, a, b))
    {
      ghost var s := track.State();
      K.TimestepNeverFatal(c, s.(err := C.DelayTicks(c, s.err, a, b).1), C.DelayTicks(c, s.err, a, b).0 + 0, false);
      var _ := track.Wait(c, a, b, 0);
    }

    method SoundNote(c: C.Config, f: Feature, num: int, denom: int, eff: int)
      requires Valid() && denom != 0
      modifies track, track.queue, track.queue.Q
      ensures Valid() && Ordered(old(State()).clock.q)
      ensures State() == old(State()).(clock := QueueOff(c, StartNote(c, old(State()).clock, f), f, num, denom, eff))
    {
      ghost var k := track.State();
      if c.channel == C.DRUMS {
        track.WriteNoteOn(c, f.pitch, f.bend, c.channel, f.vel);
        assert track.State() == StartNote(c, k, f);
        track.AddToQueue(c, num, denom, c.Mapped(f.pitch), c.channel, 0, -track.totalNoteDelay - 1);
      } else {
        var pitch := f.pitch + c.transpose + c.globalTranspose;
        track.WriteNoteOn(c, pitch, f.bend, c.channel, f.vel);
        assert track.State() == StartNote(c, k, f);
        track.AddToQueue(c, num, denom, pitch, c.channel, eff, -track.totalNoteDelay - 1);
      }
      assert track.State() == QueueOff(c, StartNote(c, k, f), f, num, denom, eff);
    }

    method StrumOn()
      requires Valid()
      modifies this, track
      ensures Valid() && State() == Strum(old(State()))
    {
      if inChord {
        noteCount := noteCount + 1;
        if noteCount > 1 {
          track.deltaTime := track.deltaTime + track.noteDelay;
          track.totalNoteDelay := track.totalNoteDelay + track.noteDelay;
        }
      }
    }

    method WriteNote(c: C.Config, f: Feature)
      requires Valid() && NoteTrack(c) && f.denom > 0
      modifies this, track, track.queue, track.queue.Q
      ensures Valid() && SoundOk(old(State()))
      ensures State() == PlayNote(c, f, old(State()))
    {
      StrumOn();
      ghost var s1 := State();
      var num, denom := f.num, f.denom;
      if c.channel != C.DRUMS && noteCount > 1 && noteNum * f.denom != noteDenom * f.num {
        num, denom := noteNum, noteDenom;
      }
      SoundNote(c, f, num, denom, effect);
      if c.channel != C.DRUMS {
        noteNum, noteDenom := num, denom;
      }
      ghost var k := QueueOff(c, StartNote(c, s1.clock, f), f, num, denom, s1.effect);
      assert State() == (if c.channel == C.DRUMS then s1 else s1.(noteNum := num, noteDenom := denom)).(clock := k);
      if !inChord {
        WaitFor(c, f.num, f.denom);
        noteCount := 0;
        track.totalNoteDelay := 0;
      }
      effect := 0;
    }

    method WriteChordEnd(c: C.Config, f: Feature)
      requires Valid() && NoteTrack(c) && f.denom > 0
      modifies this, track, track.queue, track.queue.Q
      ensures Valid() && SoundOk(old(State()))
      ensures State() == EndChord(c, spread, f, old(State()))
    {
      inChord := false;
      WaitFor(c, f.num, f.denom);
      track.totalNoteDelay, noteCount := 0, 0;
      track.noteDelay := spread;
      noteNum, noteDenom := f.num, f.denom;
    }

    method Write(c0: C.Config, f: Feature, env: Settings)
      requires Valid() && NoteTrack(c0) && (Timed(f) ==> f.denom > 0)
      modifies this, track, track.queue, track.queue.Q
      ensures Valid() && SoundOk(old(State()))
      ensures State() == Play(c0, spread, P.Event(f, env), old(State()))
    {
      var c := Under(c0, env, globalTranspose);
      if f.kind.Note? {
        WriteNote(c, f);
      } else if f.kind.TNote? {
        SoundNote(c, f, f.num, f.denom, effect);
        effect := 0;
      } else if f.kind.Rest? {
        if !inChord {
          WaitFor(c, f.num, f.denom);
        }
      } else if f.kind.ChordOn? {
        inChord := true;
      } else if f.kind.ChordOff? || f.kind.ChordOffEx? {
        WriteChordEnd(c, f);
      } else if f.kind.Arpeggio? {
        track.noteDelay := 3 * spread;
      } else if f.kind.GTranspose? {
        globalTranspose := f.pitch;
      } else if f.kind.RTranspose? {
        globalTranspose := globalTranspose + f.pitch;
      } else if f.kind.Effect? {
        effect := if f.pitch == 1 then 1 else 10;
      }
    }
  }

  /** writetrack for one note track of a tune without a P: order, from the feature at start on. It
      terminates on every feature list, plays exactly what the repeat machine calls for, and leaves
      no note sounding. */
  method WriteNotes(t: Features, voice: int, used: bool, c: C.Config, env: Settings, spread: int)
      returns (w: NoteWriter, m: RepeatMachine)
    requires NoteTrack(c) && LengthsOk(t)
    ensures w.Valid() && SoundOk(Opening(spread))
    ensures var a := Start(t, voice, Beginning(t, voice, used), env);
            var (ct, s) := Sounds(t, voice, c, spread, a, Opening(spread));
            m.State() == ct && w.State() == Cleared(c, ct, s)
  {
    w := new NoteWriter(spread);
    var start := 0;
    if used && voice != 1 {
      start := SearchVoice(t, 0, voice);
    }
    m := new RepeatMachine(t, voice, start, env);
    RunLoop(t, voice, c, w, m);
    w.track.ClearQueue(Under(c, m.now, w.globalTranspose));
  }

  function Cleared(c: C.Config, ct: Control, s: Sound): (r: Sound)
    requires NoteTrack(c)
  {
    s.(clock := T.ClearQ(Under(c, ct.now, s.globalTranspose), s.clock))
  }

  method RunLoop(t: Features, voice: int, c: C.Config, w: NoteWriter, m: RepeatMachine)
    requires NoteTrack(c) && LengthsOk(t) && w.Valid() && SoundOk(w.State()) && Inv(t, m.State())
    modifies w, w.track, w.track.queue, w.track.queue.Q, m
    ensures w.Valid()
    ensures (m.State(), w.State()) == Sounds(t, voice, c, w.spread, old(m.State()), old(w.State()))
  {
    ghost var ct, s := m.State(), w.State();
    ghost var done := Sounds(t, voice, c, w.spread, ct, s);
    while m.j < |t|
      invariant w.Valid() && w.State() == s && SoundOk(s)
      invariant m.State() == ct && Inv(t, ct)
      invariant Sounds(t, voice, c, w.spread, ct, s) == done
      decreases Max0(|t| - ct.savedJ), Max0(4 - ct.pass), Max0(|t| - ct.j)
    {
      SoundsTurn(t, voice, c, w.spread, ct, s);
      OneTurn(t, voice, c, w, m);
      ct, s := m.State(), w.State();
    }
  }

  method OneTurn(t: Features, voice: int, c: C.Config, w: NoteWriter, m: RepeatMachine)
    requires NoteTrack(c) && LengthsOk(t) && m.j < |t| && w.Valid()
    modifies w, w.track, w.track.queue, w.track.queue.Q, m
    ensures w.Valid() && SoundOk(old(w.State()))
            && w.State() == TurnSound(t, c, w.spread, old(m.State()), old(w.State()))
    ensures m.State() == Next(t, voice, old(m.State()))
  {
    if !IsMark(t[m.j].kind) {
      w.Write(c, t[m.j], m.now);
    }
    m.Turn(t, voice);
  }

  /** What one turn of the loop does to the sound. */
  function TurnSound(t: Features, c: C.Config, spread: int, ct: Control, s: Sound): (r: Sound)
    requires NoteTrack(c) && LengthsOk(t) && ct.j < |t| && SoundOk(s)
    ensures SoundOk(r)
  {
    if IsMark(t[ct.j].kind) then s else Play(c, spread, P.Event(t[ct.j], ct.now), s)
  }

  /** The state of the machine and of the sound after the loop. */
  ghost function Sounds(t: Features, voice: int, c: C.Config, spread: int, ct: Control, s: Sound): (r: (Control, Sound))
    requires NoteTrack(c) && LengthsOk(t) && Inv(t, ct) && SoundOk(s)
  {
    PlayedOk(t, voice, ct);
    (Final(t, voice, ct), PlayAll(c, spread, Played(t, voice, ct), s))
  }

  lemma SoundsTurn(t: Features, voice: int, c: C.Config, spread: int, ct: Control, s: Sound)
    requires NoteTrack(c) && LengthsOk(t) && Inv(t, ct) && SoundOk(s) && ct.j < |t|
    ensures var ct' := Next(t, voice, ct);
            && Inv(t, ct') && Smaller(t, ct', ct)
            && Sounds(t, voice, c, spread, ct, s) == Sounds(t, voice, c, spread, ct', TurnSound(t, c, spread, ct, s))
  {
    NextProgress(t, voice, ct);
    PlayedOk(t, voice, ct);
    PlayedOk(t, voice, Next(t, voice, ct));
    var rest := Played(t, voice, Next(t, voice, ct));
    if IsMark(t[ct.j].kind) {
      assert Played(t, voice, ct) == rest;
    } else {
      assert Played(t, voice, ct)[1..] == rest;
    }
  }

  lemma {:induction false} PlayedOk(t: Features, voice: int, ct: Control)
    requires Inv(t, ct) && LengthsOk(t)
    ensures EventsOk(Played(t, voice, ct))
    decreases Max0(|t| - ct.savedJ), Max0(4 - ct.pass), Max0(|t| - ct.j)
  {
    if ct.j < |t| {
      NextProgress(t, voice, ct);
      var ct' := Next(t, voice, ct);
      PlayedOk(t, voice, ct');
      var fst, rest := Emitted(t, ct), Played(t, voice, ct');
      EmittedOk(t, ct);
      OkJoin(fst, rest);
      assert Played(t, voice, ct) == fst + rest;
    }
  }

  lemma EmittedOk(t: Features, ct: Control)
    requires ct.j < |t| && LengthsOk(t)
    ensures EventsOk(Emitted(t, ct))
  {
  }

  lemma OkJoin(a: seq<P.Event>, b: seq<P.Event>)
    requires EventsOk(a) && EventsOk(b)
    ensures EventsOk(a + b)
  {
  }
}
