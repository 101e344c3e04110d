/** The MIDI clock of a track: what adding to the queue, letting time pass and playing a step of the
    accompaniment do to the clock, the queue and the stream of MIDI events. */
module Clock {
  import opened Fractions
  import opened NoteQueue

  const MAXCHANS := 16
  const DRUMS := 9

  datatype Event =
    | NoteOn(delta: int, pitch: int, chan: int, vel: int)
    | NoteOff(delta: int, pitch: int, chan: int)
    | Wheel(delta: int, chan: int, bend: int)
    | Shaped(delta: int, pitch: int, chan: int, effect: int)  // the events of a bent note, ending it

  datatype Instrument = Instrument(base: int, chan: int, vel: int)

  /** An accompaniment pattern: one action and one length for each step, and the unit of length. */
  datatype Pattern = Pattern(steps: string, len: seq<nat>, num: int, denom: int) {
    predicate Valid() {
      |len| == |steps| && num >= 0 && denom > 0
    }
  }

  /** The settings timestep reads and never changes. */
  datatype Config = Config(
    divFactor: nat, transpose: int, globalTranspose: int, channel: int, drumMap: seq<int>,
    gchordson: bool, drumson: bool,
    gchord: Pattern, gStarted: bool, gchords: bool, chordnum: int, inversion: int, basepitch: int,
    fun: Instrument, chord: Instrument, chordNotes: seq<int>, chordSize: nat,
    drum: Pattern, drumOn: bool, drumProgram: seq<int>, drumVelocity: seq<int>)
  {
    predicate Valid() {
      && gchord.Valid() && drum.Valid()
      && chordSize < |chordNotes|
      && |drumProgram| == |drum.steps| && |drumVelocity| == |drum.steps|
    }

    function Mapped(pitch: int): (p: int) {
      if 0 <= pitch < |drumMap| then drumMap[pitch] else pitch
    }

    /** The pitch as it is written to the stream. */
    function Written(pitch: int, chan: int): (p: int) {
      if chan == DRUMS then Mapped(pitch) else pitch
    }
  }

  datatype Clock = Clock(
    q: seq<Entry>, delta: int, delta0: int, tracklen: int, totalDelay: int, notedelay: int,
    err: Frac, gptr: nat, dptr: nat, bends: map<int, int>, log: seq<Event>, errors: nat)

  /** Either the source's fatal internal error, or the new state. */
  datatype Outcome = Fatal | Done(s: Clock)

  // ---------- Single events ----------

  function AddToQ(c: Config, s: Clock, num: int, denom: int, pitch: int, chan: int, effect: int, d: int): (r: Clock)
    requires denom != 0
  {
    if |s.q| < QSIZE then
      s.(q := Insert(s.q, Entry(CDiv(c.divFactor * num, denom) + d, pitch, chan, effect), s.notedelay))
    else
      s.(errors := s.errors + 1)
  }

  function Bend(s: Clock, chan: int): (b: int) {
    if chan in s.bends then s.bends[chan] else 8192
  }

  function Emit(s: Clock, e: Event): (r: Clock) {
    s.(log := s.log + [e])
  }

  function Stamp(s: Clock): (r: Clock) {
    s.(tracklen := s.tracklen + s.delta, delta := 0)
  }

  /** noteon_data: a change of pitch bend is written first and takes the waiting time. */
  function NoteOnData(c: Config, s: Clock, pitch: int, bend: int, chan: int, vel: int): (r: Clock) {
    if c.channel >= MAXCHANS then
      Stamp(s.(errors := s.errors + 1))
    else
      var s1 := if 0 <= bend <= 16383 then s else s.(errors := s.errors + 1);
      if bend != Bend(s, c.channel) && chan != DRUMS then
        Stamp(Emit(Emit(s1.(bends := s.bends[c.channel := bend]), Wheel(s.delta, chan, bend)),
                   NoteOn(0, c.Written(pitch, chan), chan, vel)))
      else
        Stamp(Emit(s1, NoteOn(s.delta, c.Written(pitch, chan), chan, vel)))
  }

  function MidiNoteOff(c: Config, s: Clock, pitch: int, chan: int): (r: Clock) {
    if c.channel >= MAXCHANS then s.(errors := s.errors + 1)
    else Emit(s, NoteOff(s.delta, c.Written(pitch, chan), chan))
  }

  /** save_note: note on now, note off queued for one tick before its full length. */
  function SaveNote(c: Config, s: Clock, num: int, denom: int, pitch: int, chan: int, vel: int): (r: Clock)
    requires denom != 0
  {
    var p := if chan == DRUMS then pitch else pitch + c.transpose + c.globalTranspose;
    AddToQ(c, NoteOnData(c, s, p, 8192, chan, vel), num, denom, p, chan, 0, -1)
  }

  // ---------- The accompaniment ----------

  datatype Struck = Struck(pitch: int, chan: int, vel: int)

  /** The n-th note of the guitar chord, or what lies behind its last note. */
  function ChordNote(c: Config, n: nat, shift: int): (r: seq<Struck>)
    requires c.Valid()
  {
    if c.chordSize > n && c.gStarted && c.gchords then
      [Struck(c.chordNotes[n] + shift, c.chord.chan, c.chord.vel)]
    else
      [Struck(c.chordNotes[c.chordSize], c.chord.chan, c.chord.vel)]
  }

  function Fundamental(c: Config): (r: Struck) {
    Struck((if c.inversion == -1 then c.basepitch else c.inversion) + c.fun.base, c.fun.chan, c.fun.vel)
  }

  function FullChord(c: Config): (r: seq<Struck>)
    requires c.Valid()
  {
    seq(c.chordSize, k requires 0 <= k < c.chordSize => Struck(c.chordNotes[k], c.chord.chan, c.chord.vel))
  }

  /** The notes a guitar-chord action starts. */
  function StepSounds(c: Config, action: char): (r: seq<Struck>)
    requires c.Valid()
  {
    var a := if c.chordnum == -1 && action == 'c' then 'f' else action;
    var playing := c.gStarted && c.gchords;
    match a
    case 'f' => if playing then [Fundamental(c)] else []
    case 'b' => if playing then [Fundamental(c)] + FullChord(c) else []
    case 'c' => if playing then FullChord(c) else []
    case 'g' => ChordNote(c, 0, 0)
    case 'h' => ChordNote(c, 1, 0)
    case 'i' => ChordNote(c, 2, 0)
    case 'j' => ChordNote(c, 3, 0)
    case 'G' => ChordNote(c, 0, -12)
    case 'H' => ChordNote(c, 1, -12)
    case 'I' => ChordNote(c, 2, -12)
    case 'J' => ChordNote(c, 3, -12)
    case _ => []
  }

  function SaveNotes(c: Config, s: Clock, num: int, denom: int, ns: seq<Struck>): (r: Clock)
    requires denom != 0
    ensures r.gptr == s.gptr && r.dptr == s.dptr && |r.q| >= |s.q|
    decreases |ns|
  {
    if ns == [] then s
    else SaveNotes(c, SaveNote(c, s, num, denom, ns[0].pitch, ns[0].chan, ns[0].vel), num, denom, ns[1..])
  }

  function DoGchords(c: Config, s: Clock, i: int): (r: Clock)
    requires c.Valid()
    ensures |r.q| >= |s.q| && r.dptr == s.dptr
    ensures r == s || s.gptr < r.gptr == s.gptr + 1 <= |c.gchord.steps|
  {
    if i == s.gptr && s.gptr < |c.gchord.steps| then
      var num := c.gchord.num * c.gchord.len[s.gptr];
      var s1 := SaveNotes(c, s, num, c.gchord.denom, StepSounds(c, c.gchord.steps[s.gptr]));
      AddToQ(c, s1.(gptr := s.gptr + 1), num, c.gchord.denom, REQUEST, s.gptr + 1, 0, 0)
    else s
  }

  function DoDrums(c: Config, s: Clock, i: int): (r: Clock)
    requires c.Valid()
    ensures |r.q| >= |s.q| && r.gptr == s.gptr
    ensures r == s || s.dptr < r.dptr == s.dptr + 1 <= |c.drum.steps|
  {
    if i == s.dptr && s.dptr < |c.drum.steps| then
      var num := c.drum.num * c.drum.len[s.dptr];
      var hit := if c.drum.steps[s.dptr] == 'd' && c.drumOn
                 then [Struck(c.drumProgram[s.dptr], DRUMS, c.drumVelocity[s.dptr])] else [];
      var s1 := SaveNotes(c, s, num, c.drum.denom, hit);
      AddToQ(c, s1.(dptr := s.dptr + 1), num, c.drum.denom, REQUEST, s.dptr + 1, 0, 0)
    else s
  }

  /** The callback of timestep: play the step a request asks for and queue the next request. */
  function Progress(c: Config, s: Clock, i: int): (r: Clock)
    requires c.Valid()
    ensures |r.q| >= |s.q|
    ensures r == s || StepsLeft(c, r) < StepsLeft(c, s)
  {
    var s1 := if c.gchordson then DoGchords(c, s, i) else s;
    if c.drumson then DoDrums(c, s1, i) else s1
  }

  /** How many accompaniment steps can still be played: callbacks cannot refill the queue for ever. */
  function StepsLeft(c: Config, s: Clock): (n: nat) {
    (if s.gptr < |c.gchord.steps| then |c.gchord.steps| - s.gptr else 0)
    + (if s.dptr < |c.drum.steps| then |c.drum.steps| - s.dptr else 0)
  }

  // ---------- The passing of time ----------

  /** Moves the clock to the moment the head expires. */
  function ToHead(s: Clock): (r: Clock)
    requires s.q != []
  {
    s.(q := [s.q[0].(delay := 0)] + s.q[1..], delta := s.delta + s.q[0].delay, delta0 := s.delta0 + s.q[0].delay)
  }

  predicate HasShape(effect: int) {
    effect == 1 || effect == 2 || effect == 3 || effect == 10
  }

  /** What the expiring head does before it is removed. */
  function Expire(c: Config, s: Clock, atend: bool): (r: Clock)
    requires c.Valid() && s.q != []
    ensures |r.q| >= |s.q|
    ensures StepsLeft(c, r) < StepsLeft(c, s) || (StepsLeft(c, r) == StepsLeft(c, s) && r.q == s.q)
  {
    var e := s.q[0];
    if e.pitch == REQUEST then
      if atend then s else Progress(c, s, e.chan)
    else if e.effect == 0 then
      Stamp(MidiNoteOff(c, s, e.pitch, e.chan))
    else if HasShape(e.effect) then
      Stamp(Emit(s, Shaped(s.delta, e.pitch, e.chan, e.effect)))
    else
      Stamp(s)
  }

  function Timestep(c: Config, s: Clock, t: int, atend: bool): (r: Outcome)
    requires c.Valid()
    decreases StepsLeft(c, s), |s.q|
  {
    if s.q != [] && s.q[0].delay < t then
      match Pop(c, s, atend)
      case Fatal => Fatal
      case Done(s1) => Timestep(c, s1, t - s.q[0].delay, atend)
    else
      Done(Idle(s, t))
  }

  /** The head expires and is removed: fatal if something else has taken its place. */
  function Pop(c: Config, s: Clock, atend: bool): (r: Outcome)
    requires c.Valid() && s.q != []
    ensures r.Done? ==> StepsLeft(c, r.s) <= StepsLeft(c, s)
    ensures r.Done? && StepsLeft(c, r.s) == StepsLeft(c, s) ==> |r.s.q| < |s.q|
  {
    var s1 := Expire(c, ToHead(s), atend);
    if s1.q[0].delay != 0 then Fatal else Done(s1.(q := s1.q[1..]))
  }

  /** Time passes without anything falling due. */
  function Idle(s: Clock, t: int): (r: Clock) {
    s.(q := if s.q == [] then [] else [s.q[0].(delay := s.q[0].delay - t)] + s.q[1..],
       delta := s.delta + t - s.totalDelay, delta0 := s.delta0 + t - s.totalDelay)
  }

  /** The ticks delay waits for a/b, and the fraction of a tick it carries over to the next call. */
  function DelayTicks(c: Config, err: Frac, a: int, b: int): (r: (int, Frac))
    requires b > 0 && err.Ok()
    ensures r.1.Ok()
  {
    var e := Frac(err.num * b + CMod(c.divFactor * a, b) * err.denom, err.denom * b);
    ReduceSound(e);
    var e' := Reduced(e);
    (CDiv(c.divFactor * a, b) + CDiv(e'.num, e'.denom), Frac(CMod(e'.num, e'.denom), e'.denom))
  }

  function Delay(c: Config, s: Clock, a: int, b: int, d: int): (r: Outcome)
    requires c.Valid() && b > 0 && s.err.Ok()
  {
    var (dt, err) := DelayTicks(c, s.err, a, b);
    Timestep(c, s.(err := err), dt + d, false)
  }
}
