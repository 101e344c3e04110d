/** writetrack on a note track: the repeat machine decides what is played, and playing it drives the
    clock, the queue and the stream of MIDI events. */
module Writer {
  import opened Fractions
  import opened NoteQueue
  import C = Clock
  import opened Callbacks
  import opened Tune
  import P = Playback
  import opened TrackEnd

  /** The state that playing changes. */
  datatype Sound = Sound(clock: C.Clock, inChord: bool, noteCount: nat, noteNum: int, noteDenom: int,
                         effect: int, globalTranspose: int)

  predicate NoteTrack(c: C.Config) {
    c.Valid() && !c.gchordson && !c.drumson
  }

  ghost predicate SoundOk(s: Sound) {
    s.clock.err.Ok() && Ordered(s.clock.q) && s.noteDenom > 0
  }

  /** The configuration under the settings of one played feature. */
  function Under(c: C.Config, env: P.Settings, globalTranspose: int): (r: C.Config) {
    c.(divFactor := env.divFactor, transpose := env.transpose, channel := env.channel,
       globalTranspose := globalTranspose)
  }

  /** delay on a note track, where no callback can fail. */
  function Wait(c: C.Config, s: C.Clock, a: int, b: int): (r: C.Clock)
    requires NoteTrack(c) && b > 0 && s.err.Ok() && Ordered(s.q)
    ensures r.err.Ok() && Ordered(r.q)
  {
    var (dt, err) := C.DelayTicks(c, s.err, a, b);
    TimestepNeverFatal(c, s.(err := err), dt + 0, false);
    TimestepKeepsErr(c, s.(err := err), dt + 0, false);
    C.Delay(c, s, a, b, 0).s
  }

  lemma {:induction false} TimestepKeepsErr(c: C.Config, s: C.Clock, t: int, atend: bool)
    requires NoteTrack(c)
    ensures var r := C.Timestep(c, s, t, atend); r.Done? ==> r.s.err == s.err
    decreases |s.q|
  {
    if s.q != [] && s.q[0].delay < t {
      var r := C.Pop(c, s, atend);
      if r.Done? {
        TimestepKeepsErr(c, r.s, t - s.q[0].delay, atend);
      }
    }
  }

  lemma OrderedAdd(c: C.Config, s: C.Clock, num: int, denom: int, pitch: int, chan: int, effect: int, d: int)
    requires denom != 0 && Ordered(s.q)
    ensures Ordered(C.AddToQ(c, s, num, denom, pitch, chan, effect, d).q)
  {
    InsertRefines(s.q, Entry(CDiv(c.divFactor * num, denom) + d, pitch, chan, effect), s.notedelay);
  }

  /** noteon */
  function StartNote(c: C.Config, s: C.Clock, f: Feature): (r: C.Clock)
    ensures r.q == s.q && r.err == s.err && r.totalDelay == s.totalDelay
  {
    C.NoteOnData(c, s, if c.channel == C.DRUMS then f.pitch else f.pitch + c.transpose + c.globalTranspose,
                 f.bend, c.channel, f.vel)
  }

  /** Queues the note off, one tick early and counted from the start of a strummed chord. On the drum
      channel the pitch goes through the drum map here, and once more when it is written. */
  function QueueOff(c: C.Config, s: C.Clock, f: Feature, num: int, denom: int, effect: int): (r: C.Clock)
    requires denom != 0 && Ordered(s.q)
    ensures r.err == s.err && Ordered(r.q)
  {
    var drum := c.channel == C.DRUMS;
    var pitch := if drum then c.Mapped(f.pitch) else f.pitch + c.transpose + c.globalTranspose;
    OrderedAdd(c, s, num, denom, pitch, c.channel, if drum then 0 else effect, -s.totalDelay - 1);
    C.AddToQ(c, s, num, denom, pitch, c.channel, if drum then 0 else effect, -s.totalDelay - 1)
  }

  /** The second and later notes of a chord start notedelay after the one before. */
  function Strum(s: Sound): (r: Sound) {
    if !s.inChord then s
    else if s.noteCount == 0 then s.(noteCount := 1)
    else s.(noteCount := s.noteCount + 1,
            clock := s.clock.(delta := s.clock.delta + s.clock.notedelay,
                              totalDelay := s.clock.totalDelay + s.clock.notedelay))
  }

  function PlayNote(c: C.Config, f: Feature, s: Sound): (r: Sound)
    requires NoteTrack(c) && SoundOk(s) && f.denom > 0
    ensures SoundOk(r)
  {
    var s1 := Strum(s);
    var odd := c.channel != C.DRUMS && s1.noteCount > 1 && s1.noteNum * f.denom != s1.noteDenom * f.num;
    var (n, d) := if odd then (s1.noteNum, s1.noteDenom) else (f.num, f.denom);
    var k := QueueOff(c, StartNote(c, s1.clock, f), f, n, d, s.effect);
    var s2 := if c.channel == C.DRUMS then s1 else s1.(noteNum := n, noteDenom := d);
    if s.inChord then s2.(clock := k, effect := 0)
    else s2.(clock := Wait(c, k, f.num, f.denom).(totalDelay := 0), noteCount := 0, effect := 0)
  }

  /** One turn of the loop of writetrack, as far as it concerns sound. */
  function Play(c0: C.Config, spread: int, e: P.Event, s: Sound): (r: Sound)
    requires NoteTrack(c0) && SoundOk(s) && (Timed(e.f) ==> e.f.denom > 0)
    ensures SoundOk(r)
  {
    var f := e.f;
    var c := Under(c0, e.env, s.globalTranspose);
    if f.kind.Note? then PlayNote(c, f, s)
    else if f.kind.TNote? then
      s.(clock := QueueOff(c, StartNote(c, s.clock, f), f, f.num, f.denom, s.effect), effect := 0)
    else if f.kind.Rest? then
      if s.inChord then s else s.(clock := Wait(c, s.clock, f.num, f.denom))
    else if f.kind.ChordOn? then s.(inChord := true)
    else if f.kind.ChordOff? || f.kind.ChordOffEx? then EndChord(c, spread, f, s)
    else if f.kind.Arpeggio? then s.(clock := s.clock.(notedelay := 3 * spread))
    else if f.kind.GTranspose? then s.(globalTranspose := f.pitch)
    else if f.kind.RTranspose? then s.(globalTranspose := s.globalTranspose + f.pitch)
    else if f.kind.Effect? then s.(effect := if f.pitch == 1 then 1 else 10)
    else s
  }

  function EndChord(c: C.Config, spread: int, f: Feature, s: Sound): (r: Sound)
    requires NoteTrack(c) && SoundOk(s) && f.denom > 0
    ensures SoundOk(r)
  {
    s.(inChord := false, clock := Wait(c, s.clock, f.num, f.denom).(totalDelay := 0, notedelay := spread),
       noteCount := 0, noteNum := f.num, noteDenom := f.denom)
  }

  ghost predicate EventsOk(ev: seq<P.Event>) {
    forall k :: 0 <= k < |ev| && Timed(ev[k].f) ==> ev[k].f.denom > 0
  }

  /** The sound of a whole run. */
  function PlayAll(c: C.Config, spread: int, ev: seq<P.Event>, s: Sound): (r: Sound)
    requires NoteTrack(c) && SoundOk(s) && EventsOk(ev)
    ensures SoundOk(r)
    decreases |ev|
  {
    if ev == [] then s else PlayAll(c, spread, ev[1..], Play(c, spread, ev[0], s))
  }

  function Opening(spread: int): (s: Sound) {
    Sound(C.Clock([], 1, 0, 0, 0, spread, Frac(0, 1), 0, 0, map[], [], 0), false, 0, 0, 1, 0, 0)
  }
}
