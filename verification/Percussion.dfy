/** The drum channel, where a note-off has been through the drum map once more than its note-on. */
module Percussion {
  import opened Fractions
  import opened NoteQueue
  import opened Clock
  import opened ClockLaws
  import opened Writer
  import opened Reader
  import opened Phrases
  import opened Deltas
  import opened EndToEnd
  import opened Tune
  import P = Playback

  /** With this map, percussion note 0 begins at pitch 1 and ends at pitch 2. */
  lemma MapTwice(c: Config, k: Clock, f: Feature)
    requires Voiced(c) && c.channel == 9 && c.drumMap == [1, 2, 2] && f.pitch == 0 && f.denom > 0 && k.q == []
    ensures Ordered(k.q)
    ensures var k1 := StartNote(c, k, f);
            var k2 := QueueOff(c, k1, f, f.num, f.denom, 0);
            && k1.log == k.log + [NoteOn(k.delta, 1, 9, f.vel)]
            && k2.q[0].pitch == 1
            && MidiNoteOff(c, k2, k2.q[0].pitch, 9).log == k2.log + [NoteOff(k2.delta, 2, 9)]
  {
  }

  /** A note-off at another pitch ends nothing. */
  lemma EndsElsewhere(c: Config, k: Clock, rd: Score, b: Begun, chan: int, w: int, t: int) returns (rd': Score)
    requires NoteTrack(c) && c.channel < MAXCHANS && Heard(k, rd) && k.q == QueueOf([b], chan, w) && w < t
    requires Sounding(rd, [b], chan) && b.pitch >= 0 && c.Written(b.pitch, chan) != b.pitch
    ensures Timestep(c, k, t, false).Done?
    ensures Heard(Timestep(c, k, t, false).s, rd') && rd'.tones == rd.tones && rd'.active == rd.active
  {
    assert [b][1..] == [];
    QueueOfOrdered([b], chan, w);
    QueueOfExpires([b], chan, w, t);
    TimestepEndsNotes(c, k, t, false);
    var k' := Timestep(c, k, t, false).s;
    HeardMore(k, rd, k');
    var off := Off(Now(k) + w, c.Written(b.pitch, chan), chan);
    assert Ended(c, Now(k), k.q, 0) == [];
    assert Timeline(k.tracklen, k'.log[|k.log|..]) == [off];
    assert ReadTimeline(rd, [off]) == ReadTimeline(ReadStamped(rd, off), [off][1..]) == ReadStamped(rd, off);
    assert Key(off.pitch, chan) !in rd.active;
    rd' := ReadStamped(rd, off).(position := k'.tracklen);
  }

  /** What the reader makes of a stream that came to it in good time up to rd. */
  lemma HeardOn(k: Clock, rd: Score, k': Clock, rd': Score)
    requires Heard(k, rd) && Onward(k) && Heard(k', rd') && k.log <= k'.log
    ensures var r := ReadAll(Score(0, map[], map[], []), k'.log);
            && rd.tones <= r.tones && Lasting(r.tones) && |r.tones| == |rd'.tones| && r.active == rd'.active
            && (Onward(k') ==> r == rd')
  {
    var rd0 := Score(0, map[], map[], []);
    var more := k'.log[|k.log|..];
    assert k'.log == k.log + more;
    ReadAllJoin(rd0, k.log, more);
    ReadForward(rd0, k.log);
    ReadLasting(rd0, k.log);
    ReadLasting(rd, more);
    PairedAlike(rd0, rd0, k'.log);
    if Onward(k') {
      ReadForward(rd0, k'.log);
    }
  }

  /** A note played from silence is read back as its tone exactly when it lasts a tick and the drum map leaves
      the mapped pitch as it is, which off the drum channel is always. When the map does not, it is not read
      back and never ends. */
  lemma ToneIffEndsAsBegun(c0: Config, gap: int, e: P.Event, s: Sound, rd: Score, at: real, divFactor: nat, g: Tuning)
    requires Tuned(c0, g) && e.f.kind.Note? && Playable(e, divFactor) && PitchOf(e, g) >= 0
    requires Between(s, rd, at, g, gap, None) && Onward(s.clock)
    ensures SoundOk(s)
    ensures var r := ReadAll(Score(0, map[], map[], []), Play(c0, gap, e, s).clock.log);
            && (r.tones == rd.tones + [ToneOf(e, divFactor, at, g)] <==>
                EndsAsBegun(e, g) && Outlasts(e.f, divFactor, 0))
            && (!EndsAsBegun(e, g) ==> r.tones == rd.tones && r.active != map[])
  {
    var tone := ToneOf(e, divFactor, at, g);
    NoteGrows(c0, gap, e, s, rd, at, divFactor, g);
    assert (rd.tones + [tone])[|rd.tones|] == tone;
    if EndsAsBegun(e, g) {
      var rd' := NoteStep(c0, gap, e, s, rd, at, divFactor, g);
      if Outlasts(e.f, divFactor, 0) {
        NoteOnward(c0, gap, e, s, rd, at, divFactor, g);
      }
      HeardOn(s.clock, rd, Play(c0, gap, e, s).clock, rd');
    } else {
      var c, k, f := Under(c0, e.env, g.shift), s.clock, e.f;
      var rd1, b := NoteQueued(c, k, f, rd, at);
      var k2 := QueueOff(c, StartNote(c, k, f), f, f.num, f.denom, 0);
      var rd' := NeverEnds(c, k, k2, f, rd, rd1, b, at);
      HeardOn(k, rd, Play(c0, gap, e, s).clock, rd');
    }
  }

  /** What has been written stays. */
  lemma NoteGrows(c0: Config, gap: int, e: P.Event, s: Sound, rd: Score, at: real, divFactor: nat, g: Tuning)
    requires Tuned(c0, g) && e.f.kind.Note? && Playable(e, divFactor) && Between(s, rd, at, g, gap, None)
    ensures SoundOk(s) && s.clock.log <= Play(c0, gap, e, s).clock.log
  {
    var c, k, f := Under(c0, e.env, g.shift), s.clock, e.f;
    var rd1, b := NoteQueued(c, k, f, rd, at);
    StartGrows(c, k, f);
    var k2 := QueueOff(c, StartNote(c, k, f), f, f.num, f.denom, 0);
    var (dt, err) := DelayTicks(c, k2.err, f.num, f.denom);
    QueueOfOrdered([b], c.channel, TicksOf(f, divFactor) - 1);
    TimestepEndsNotes(c, k2.(err := err), dt + 0, false);
  }

  lemma StartGrows(c: Config, k: Clock, f: Feature)
    ensures k.log <= StartNote(c, k, f).log
  {
  }

  lemma NeverEnds(c: Config, k: Clock, k2: Clock, f: Feature, rd: Score, rd1: Score, b: Begun, at: real)
      returns (rd': Score)
    requires Voiced(c) && f.denom > 0 && f.num >= 0 && b.pitch >= 0 && k.totalDelay == 0
    requires c.Written(b.pitch, c.channel) != b.pitch && Begun1(c, k, k2, rd, rd1, f, b, at)
    ensures Ordered(k2.q)
    ensures Heard(Wait(c, k2, f.num, f.denom), rd') && rd'.tones == rd.tones && rd'.active != map[]
  {
    var (dt, err) := DelayTicks(c, k2.err, f.num, f.denom);
    var w := TicksOf(f, c.divFactor) - 1;
    QueueOfOrdered([b], c.channel, w);
    WaitOnTime(c, k2, f.num, f.denom, at);
    rd' := EndsElsewhere(c, k2.(err := err), rd1, b, c.channel, w, dt + 0);
    assert Known(rd1, b, c.channel) by { assert [b][0] == b; }
  }
}
