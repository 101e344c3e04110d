/** Pitch bend: every note off the drum channel sounds under its own. */
module Bends {
  import opened NoteQueue
  import opened Clock
  import opened ClockLaws
  import opened Callbacks
  import opened Writer
  import opened Phrases
  import opened Tune
  import P = Playback

  /** The bend a channel of the stream has come to. */
  function BendIn(log: seq<Event>, chan: int): (b: int)
    decreases |log|
  {
    if log == [] then 8192
    else
      var e := log[|log| - 1];
      if e.Wheel? && e.chan == chan then e.bend else BendIn(log[..|log| - 1], chan)
  }

  lemma BendInSnoc(log: seq<Event>, e: Event, chan: int)
    ensures BendIn(log + [e], chan) == if e.Wheel? && e.chan == chan then e.bend else BendIn(log, chan)
  {
    assert (log + [e])[..|log|] == log;
  }

  /** What is remembered of the bends is what has been written, and k goes on from log. */
  ghost predicate BendsTrue(k: Clock, log: seq<Event>) {
    log <= k.log && forall chan :: Bend(k, chan) == BendIn(k.log, chan)
  }

  lemma EmitKeeps(k: Clock, k': Clock, e: Event, log: seq<Event>)
    requires BendsTrue(k, log) && k'.bends == k.bends && k'.log == k.log + [e] && !e.Wheel?
    ensures BendsTrue(k', log)
  {
    forall chan
      ensures Bend(k', chan) == BendIn(k'.log, chan)
    {
      BendInSnoc(k.log, e, chan);
    }
  }

  /** A note-on off the drum channel is written under the bend of its note. */
  lemma NoteUnderBend(c: Config, k: Clock, f: Feature, log: seq<Event>)
    requires Voiced(c) && BendsTrue(k, log)
    ensures var k' := StartNote(c, k, f);
            var n := |k'.log| - 1;
            && BendsTrue(k', log) && n >= |k.log| && k'.log[n].NoteOn?
            && k'.log[n].pitch == Pitched(c, f) && k'.log[n].chan == c.channel && k'.log[n].vel == f.vel
            && (c.channel != DRUMS ==> BendIn(k'.log[..n], c.channel) == f.bend)
  {
    var k' := StartNote(c, k, f);
    var n := |k'.log| - 1;
    var bent := f.bend != Bend(k, c.channel) && c.channel != DRUMS;
    var k1 := if bent then Emit(k.(bends := k.bends[c.channel := f.bend]), Wheel(k.delta, c.channel, f.bend)) else k;
    forall chan
      ensures Bend(k1, chan) == BendIn(k1.log, chan)
    {
      if bent {
        BendInSnoc(k.log, Wheel(k.delta, c.channel, f.bend), chan);
      }
    }
    assert k'.log == k1.log + [k'.log[n]] && k'.bends == k1.bends;
    assert k'.log[..n] == k1.log;
    EmitKeeps(k1, k', k'.log[n], log);
  }

  lemma PopKeeps(c: Config, k: Clock, atend: bool, log: seq<Event>)
    requires NoteTrack(c) && k.q != [] && BendsTrue(k, log) && Pop(c, k, atend).Done?
    ensures BendsTrue(Pop(c, k, atend).s, log)
  {
    var k1, k' := ToHead(k), Pop(c, k, atend).s;
    if k'.log != k1.log {
      var e := k'.log[|k1.log|];
      EmitKeeps(k, k', e, log);
    }
  }

  lemma {:induction false} TimestepKeeps(c: Config, k: Clock, t: int, atend: bool, log: seq<Event>)
    requires NoteTrack(c) && BendsTrue(k, log)
    ensures var r := Timestep(c, k, t, atend); r.Done? ==> BendsTrue(r.s, log)
    decreases |k.q|
  {
    if k.q != [] && k.q[0].delay < t {
      var r := Pop(c, k, atend);
      if r.Done? {
        PopKeeps(c, k, atend, log);
        TimestepKeeps(c, r.s, t - k.q[0].delay, atend, log);
      }
    }
  }

  lemma WaitKeeps(c: Config, k: Clock, a: int, b: int, log: seq<Event>)
    requires NoteTrack(c) && b > 0 && k.err.Ok() && Ordered(k.q) && BendsTrue(k, log)
    ensures BendsTrue(Wait(c, k, a, b), log)
  {
    var (dt, err) := DelayTicks(c, k.err, a, b);
    var k1 := k.(err := err);
    TimestepNeverFatal(c, k1, dt + 0, false);
    TimestepKeeps(c, k1, dt + 0, false, log);
    var r := Timestep(c, k1, dt + 0, false);
    assert Wait(c, k, a, b) == r.s;
  }

  lemma StartKeeps(c: Config, k: Clock, f: Feature, num: int, denom: int, effect: int, log: seq<Event>)
    requires Voiced(c) && BendsTrue(k, log) && Ordered(k.q) && denom != 0
    ensures BendsTrue(QueueOff(c, StartNote(c, k, f), f, num, denom, effect), log)
    ensures StartNote(c, k, f).log <= QueueOff(c, StartNote(c, k, f), f, num, denom, effect).log
  {
    NoteUnderBend(c, k, f, log);
  }

  /** A turn of the loop writes behind what has been written, and keeps account of the bends. */
  lemma PlayKeeps(c0: Config, gap: int, e: P.Event, s: Sound, log: seq<Event>)
    requires NoteTrack(c0) && SoundOk(s) && (Timed(e.f) ==> e.f.denom > 0) && 0 <= e.env.channel < MAXCHANS
    requires BendsTrue(s.clock, log)
    ensures BendsTrue(Play(c0, gap, e, s).clock, log)
  {
    var f, c := e.f, Under(c0, e.env, s.globalTranspose);
    if f.kind.Note? {
      NoteKeeps(c, f, s, log);
    } else if f.kind.TNote? {
      StartKeeps(c, s.clock, f, f.num, f.denom, s.effect, log);
    } else if f.kind.Rest? || f.kind.ChordOff? || f.kind.ChordOffEx? {
      WaitKeeps(c, s.clock, f.num, f.denom, log);
    }
  }

  lemma NoteKeeps(c: Config, f: Feature, s: Sound, log: seq<Event>)
    requires Voiced(c) && SoundOk(s) && f.denom > 0 && BendsTrue(s.clock, log)
    ensures BendsTrue(PlayNote(c, f, s).clock, log)
  {
    var s1 := Strum(s);
    var odd := c.channel != DRUMS && s1.noteCount > 1 && s1.noteNum * f.denom != s1.noteDenom * f.num;
    var (n, d) := if odd then (s1.noteNum, s1.noteDenom) else (f.num, f.denom);
    StartKeeps(c, s1.clock, f, n, d, s.effect, log);
    if !s.inChord {
      WaitKeeps(c, QueueOff(c, StartNote(c, s1.clock, f), f, n, d, s.effect), f.num, f.denom, log);
    }
  }

  lemma {:induction false} PlayAllKeeps(c0: Config, gap: int, ev: seq<P.Event>, s: Sound, log: seq<Event>)
    requires NoteTrack(c0) && SoundOk(s) && EventsOk(ev) && BendsTrue(s.clock, log)
    requires forall k :: 0 <= k < |ev| ==> 0 <= ev[k].env.channel < MAXCHANS
    ensures BendsTrue(PlayAll(c0, gap, ev, s).clock, log)
    decreases |ev|
  {
    if ev != [] {
      PlayKeeps(c0, gap, ev[0], s, log);
      PlayAllKeeps(c0, gap, ev[1..], Play(c0, gap, ev[0], s), log);
    }
  }

  /** The note-on at place n of the stream is that of e, under its bend. */
  predicate NoteAt(log: seq<Event>, n: nat, e: P.Event) {
    && n < |log| && log[n].NoteOn? && log[n].chan == e.env.channel && log[n].vel == e.f.vel
    && BendIn(log[..n], e.env.channel) == e.f.bend
  }

  lemma NoteAtStays(log: seq<Event>, log': seq<Event>, n: nat, e: P.Event)
    requires NoteAt(log, n, e) && log <= log'
    ensures NoteAt(log', n, e)
  {
    assert log'[..n] == log[..n];
  }

  /** The note that is played begins at once. */
  lemma FirstNoteAt(c0: Config, gap: int, e: P.Event, s: Sound, log: seq<Event>) returns (n: nat)
    requires NoteTrack(c0) && SoundOk(s) && (e.f.kind.Note? || e.f.kind.TNote?) && e.f.denom > 0
    requires 0 <= e.env.channel < MAXCHANS && e.env.channel != DRUMS && BendsTrue(s.clock, log)
    ensures NoteAt(Play(c0, gap, e, s).clock.log, n, e) && n >= |s.clock.log|
  {
    var f, c := e.f, Under(c0, e.env, s.globalTranspose);
    var s1 := if f.kind.Note? then Strum(s) else s;
    var begun := StartNote(c, s1.clock, f).log;
    NoteUnderBend(c, s1.clock, f, log);
    n := |begun| - 1;
    assert begun <= begun && BendsTrue(StartNote(c, s1.clock, f), begun);
    if f.kind.Note? {
      NoteGoesOn(c, f, s, begun);
    }
    NoteAtStays(begun, Play(c0, gap, e, s).clock.log, n, e);
  }

  lemma NoteGoesOn(c: Config, f: Feature, s: Sound, begun: seq<Event>)
    requires Voiced(c) && SoundOk(s) && f.denom > 0 && BendsTrue(StartNote(c, Strum(s).clock, f), begun)
    ensures begun <= PlayNote(c, f, s).clock.log
  {
    var s1 := Strum(s);
    var odd := c.channel != DRUMS && s1.noteCount > 1 && s1.noteNum * f.denom != s1.noteDenom * f.num;
    var (n, d) := if odd then (s1.noteNum, s1.noteDenom) else (f.num, f.denom);
    if !s.inChord {
      WaitKeeps(c, QueueOff(c, StartNote(c, s1.clock, f), f, n, d, s.effect), f.num, f.denom, begun);
    }
  }

  /** Over a whole run: each note played off the drum channel has its note-on in the stream, under its own bend. */
  lemma {:induction false} EachUnderItsBend(c0: Config, gap: int, ev: seq<P.Event>, s: Sound, log: seq<Event>, i: nat)
      returns (n: nat)
    requires NoteTrack(c0) && SoundOk(s) && EventsOk(ev) && BendsTrue(s.clock, log) && i < |ev|
    requires forall k :: 0 <= k < |ev| ==> 0 <= ev[k].env.channel < MAXCHANS
    requires (ev[i].f.kind.Note? || ev[i].f.kind.TNote?) && ev[i].env.channel != DRUMS
    ensures NoteAt(PlayAll(c0, gap, ev, s).clock.log, n, ev[i]) && n >= |s.clock.log|
    decreases |ev|
  {
    var s1 := Play(c0, gap, ev[0], s);
    PlayKeeps(c0, gap, ev[0], s, log);
    if i == 0 {
      n := FirstNoteAt(c0, gap, ev[0], s, log);
      PlayKeeps(c0, gap, ev[0], s, s.clock.log);
      assert BendsTrue(s1.clock, s1.clock.log);
      PlayAllKeeps(c0, gap, ev[1..], s1, s1.clock.log);
      NoteAtStays(s1.clock.log, PlayAll(c0, gap, ev[1..], s1).clock.log, n, ev[0]);
    } else {
      PlayKeeps(c0, gap, ev[0], s, s.clock.log);
      n := EachUnderItsBend(c0, gap, ev[1..], s1, log, i - 1);
    }
  }
}
