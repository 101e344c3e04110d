/** The reader of the MIDI stream: note-ons and note-offs are paired by pitch and channel, and each
    pair becomes one note with its position and duration, here counted in ticks. */
module Reader {
  import opened Clock
  import opened ClockLaws

  datatype Key = Key(pitch: int, chan: int)

  /** A note of the finished tune. */
  datatype Tone = Tone(pitch: int, chan: int, vel: int, start: int, duration: int)

  datatype Score = Score(position: int, active: map<Key, int>, started: map<Key, int>, tones: seq<Tone>)

  /** A note-on at a time: the first of two equal notes stays active, but its start is overwritten. */
  function Begin(s: Score, k: Key, vel: int): (r: Score) {
    s.(active := if k in s.active then s.active else s.active[k := vel], started := s.started[k := s.position])
  }

  function End(s: Score, k: Key): (r: Score) {
    if k in s.active && k in s.started then
      s.(tones := s.tones + [Tone(k.pitch, k.chan, s.active[k], s.started[k], s.position - s.started[k])],
         active := s.active - {k})
    else s
  }

  function Receive(s: Score, e: Event): (r: Score) {
    match e
    case NoteOn(_, pitch, chan, vel) => Begin(s, Key(pitch, chan), vel)
    case NoteOff(_, pitch, chan) => End(s, Key(pitch, chan))
    case _ => s
  }

  /** The time the reader lets pass before an event: a negative wait is taken for an unsigned number. */
  function Elapsed(delta: int): (t: nat) {
    if delta >= 0 then delta else delta % 0x1_0000_0000
  }

  function Read(s: Score, e: Event): (r: Score) {
    Receive(s.(position := s.position + Elapsed(e.delta)), e)
  }

  function ReadAll(s: Score, log: seq<Event>): (r: Score)
    decreases |log|
  {
    if log == [] then s else ReadAll(Read(s, log[0]), log[1..])
  }

  /** Reading by the clock of the writer, which also runs backwards. */
  function ReadExact(s: Score, e: Event): (r: Score) {
    Receive(s.(position := s.position + e.delta), e)
  }

  function ReadAllExact(s: Score, log: seq<Event>): (r: Score)
    decreases |log|
  {
    if log == [] then s else ReadAllExact(ReadExact(s, log[0]), log[1..])
  }

  /** The same, read from absolute times. */
  function ReadStamped(s: Score, e: Stamped): (r: Score) {
    var s := s.(position := e.at);
    match e
    case On(_, pitch, chan, vel) => Begin(s, Key(pitch, chan), vel)
    case Off(_, pitch, chan) => End(s, Key(pitch, chan))
    case Other(_) => s
  }

  function ReadTimeline(s: Score, tl: seq<Stamped>): (r: Score)
    decreases |tl|
  {
    if tl == [] then s else ReadTimeline(ReadStamped(s, tl[0]), tl[1..])
  }

  /** Reading deltas and reading the timeline come to the same. */
  lemma {:induction false} ReadIsTimeline(s: Score, log: seq<Event>)
    ensures ReadAllExact(s, log) == ReadTimeline(s, Timeline(s.position, log))
    ensures ReadAllExact(s, log).position == s.position + Total(log)
    decreases |log|
  {
    if log != [] {
      ReadIsTimeline(ReadExact(s, log[0]), log[1..]);
      assert Timeline(s.position, log)[1..] == Timeline(s.position + log[0].delta, log[1..]);
    }
  }

  lemma {:induction false} ReadAllExactJoin(s: Score, a: seq<Event>, b: seq<Event>)
    ensures ReadAllExact(s, a + b) == ReadAllExact(ReadAllExact(s, a), b)
    decreases |a|
  {
    if a == [] {
      assert a + b == b;
    } else {
      assert (a + b)[1..] == a[1..] + b;
      ReadAllExactJoin(ReadExact(s, a[0]), a[1..], b);
    }
  }

  lemma {:induction false} ReadTimelineJoin(s: Score, a: seq<Stamped>, b: seq<Stamped>)
    ensures ReadTimeline(s, a + b) == ReadTimeline(ReadTimeline(s, a), b)
    decreases |a|
  {
    if a == [] {
      assert a + b == b;
    } else {
      assert (a + b)[1..] == a[1..] + b;
      ReadTimelineJoin(ReadStamped(s, a[0]), a[1..], b);
    }
  }

  // ---------- Waits that are not negative ----------

  ghost predicate Forward(log: seq<Event>) {
    forall i :: 0 <= i < |log| ==> log[i].delta >= 0
  }

  /** Without negative waits the reader keeps the time of the writer. */
  lemma {:induction false} ReadForward(s: Score, log: seq<Event>)
    requires Forward(log)
    ensures ReadAll(s, log) == ReadAllExact(s, log) == ReadTimeline(s, Timeline(s.position, log))
    decreases |log|
  {
    ReadIsTimeline(s, log);
    if log != [] {
      ReadForward(Read(s, log[0]), log[1..]);
    }
  }

  lemma {:induction false} ReadAllJoin(s: Score, a: seq<Event>, b: seq<Event>)
    ensures ReadAll(s, a + b) == ReadAll(ReadAll(s, a), b)
    decreases |a|
  {
    if a == [] {
      assert a + b == b;
    } else {
      assert (a + b)[1..] == a[1..] + b;
      ReadAllJoin(Read(s, a[0]), a[1..], b);
    }
  }

  /** Two scores of notes paired alike, at whatever times. */
  ghost predicate SamePairs(s: Score, s': Score) {
    s.active == s'.active && s.started.Keys == s'.started.Keys && |s.tones| == |s'.tones|
  }

  /** Notes are paired without regard to time. */
  lemma {:induction false} PairedAlike(s: Score, s': Score, log: seq<Event>)
    requires SamePairs(s, s')
    ensures SamePairs(ReadAll(s, log), ReadAllExact(s', log))
    decreases |log|
  {
    if log != [] {
      PairedAlike(Read(s, log[0]), ReadExact(s', log[0]), log[1..]);
    }
  }

  ghost predicate Lasting(ts: seq<Tone>) {
    forall i :: 0 <= i < |ts| ==> ts[i].duration >= 0
  }

  /** No note that sounds began later than now. */
  ghost predicate Unfolding(s: Score) {
    Lasting(s.tones) && forall k :: k in s.started ==> s.started[k] <= s.position
  }

  /** Whatever the stream, what has been read stays, and the reader makes no note of negative length. */
  lemma {:induction false} ReadLasting(s: Score, log: seq<Event>)
    requires Unfolding(s)
    ensures Unfolding(ReadAll(s, log)) && s.tones <= ReadAll(s, log).tones
    decreases |log|
  {
    if log != [] {
      ReadLasting(Read(s, log[0]), log[1..]);
    }
  }

  /** ABCReader: the fields each callback of the stream updates. */
  class AbcReader {
    var currentPosition: int
    var activeNote: map<Key, int>
    var noteStart: map<Key, int>
    var tones: seq<Tone>

    ghost function State(): (s: Score)
      reads this
    {
      Score(currentPosition, activeNote, noteStart, tones)
    }

    constructor ()
      ensures State() == Score(0, map[], map[], [])
    {
      currentPosition, activeNote, noteStart, tones := 0, map[], map[], [];
    }

    method StartTrack()
      modifies this
      ensures State() == old(State()).(position := 0, active := map[])
    {
      currentPosition, activeNote := 0, map[];
    }

    method WriteMidiEvent(e: Event)
      modifies this
      ensures State() == Read(old(State()), e)
    {
      currentPosition := currentPosition + Elapsed(e.delta);
      match e {
        case NoteOn(_, pitch, chan, vel) =>
          var key := Key(pitch, chan);
          if key !in activeNote {
            activeNote := activeNote[key := vel];
          }
          noteStart := noteStart[key := currentPosition];
        case NoteOff(_, pitch, chan) =>
          var key := Key(pitch, chan);
          if key in activeNote && key in noteStart {
            tones := tones + [Tone(pitch, chan, activeNote[key], noteStart[key], currentPosition - noteStart[key])];
            activeNote := activeNote - {key};
          }
        case _ =>
      }
    }

    method ReadTrack(log: seq<Event>)
      modifies this
      ensures State() == ReadAll(old(State()).(position := 0, active := map[]), log)
    {
      StartTrack();
      ghost var s0 := State();
      var i := 0;
      assert log[0..] == log;
      while i < |log|
        invariant 0 <= i <= |log|
        invariant ReadAll(State(), log[i..]) == ReadAll(s0, log)
      {
        assert log[i..][1..] == log[i + 1..];
        WriteMidiEvent(log[i]);
        i := i + 1;
      }
    }
  }

  // ---------- A group of notes, begun one after the other and ended together ----------

  /** A note that has begun: its pitch and velocity, and when it began. */
  datatype Begun = Begun(pitch: int, vel: int, start: int)

  ghost predicate Different(bs: seq<Begun>) {
    forall i, j :: 0 <= i < j < |bs| ==> bs[i].pitch != bs[j].pitch
  }

  ghost predicate Has(bs: seq<Begun>, pitch: int) {
    exists i :: 0 <= i < |bs| && bs[i].pitch == pitch
  }

  /** The notes bs sound on chan, and nothing else does. */
  ghost predicate Sounding(s: Score, bs: seq<Begun>, chan: int) {
    && (forall k: Key :: k in s.active <==> k.chan == chan && Has(bs, k.pitch))
    && (forall i :: 0 <= i < |bs| ==> Known(s, bs[i], chan))
  }

  ghost predicate Known(s: Score, b: Begun, chan: int) {
    var k := Key(b.pitch, chan);
    k in s.active && s.active[k] == b.vel && k in s.started && s.started[k] == b.start
  }

  /** bs' is bs with b put before or behind. */
  predicate Joined(bs: seq<Begun>, b: Begun, bs': seq<Begun>) {
    bs' == [b] + bs || bs' == bs + [b]
  }

  lemma JoinedHas(bs: seq<Begun>, b: Begun, bs': seq<Begun>, pitch: int)
    requires Joined(bs, b, bs')
    ensures Has(bs', pitch) <==> Has(bs, pitch) || b.pitch == pitch
  {
    var m := if bs' == [b] + bs then 1 else 0;
    assert bs'[if m == 1 then 0 else |bs|] == b;
    assert forall i :: 0 <= i < |bs| ==> bs'[i + m] == bs[i];
    if Has(bs, pitch) {
      var i :| 0 <= i < |bs| && bs[i].pitch == pitch;
      assert bs'[i + m].pitch == pitch;
    }
    if Has(bs', pitch) && b.pitch != pitch {
      var i :| 0 <= i < |bs'| && bs'[i].pitch == pitch;
      assert bs[i - m].pitch == pitch;
    }
  }

  /** A note-on of a new pitch joins the notes that sound. */
  lemma BeginJoins(s: Score, bs: seq<Begun>, b: Begun, bs': seq<Begun>, chan: int)
    requires Sounding(s, bs, chan) && Joined(bs, b, bs') && !Has(bs, b.pitch)
    ensures Sounding(ReadStamped(s, On(b.start, b.pitch, chan, b.vel)), bs', chan)
  {
    var r := ReadStamped(s, On(b.start, b.pitch, chan, b.vel));
    forall k: Key
      ensures k in r.active <==> k.chan == chan && Has(bs', k.pitch)
    {
      JoinedHas(bs, b, bs', k.pitch);
    }
    forall i | 0 <= i < |bs'|
      ensures Known(r, bs'[i], chan)
    {
      if bs'[i] != b {
        assert bs'[i] in bs;
        var j :| 0 <= j < |bs| && bs[j] == bs'[i];
        assert Known(s, bs[j], chan) && Has(bs, bs[j].pitch);
      }
    }
  }

  /** What reading the note-offs of bs adds to the tune. */
  function Tones(bs: seq<Begun>, chan: int, end: int): (r: seq<Tone>)
    decreases |bs|
  {
    if bs == [] then []
    else [Tone(bs[0].pitch, chan, bs[0].vel, bs[0].start, end - bs[0].start)] + Tones(bs[1..], chan, end)
  }

  function Offs(bs: seq<Begun>, chan: int, end: int): (r: seq<Stamped>)
    decreases |bs|
  {
    if bs == [] then [] else [Off(end, bs[0].pitch, chan)] + Offs(bs[1..], chan, end)
  }

  /** Ending all the notes that sound gives one tone for each, in the order of their note-offs. */
  lemma {:induction false} EndAll(s: Score, bs: seq<Begun>, chan: int, end: int)
    requires Sounding(s, bs, chan) && Different(bs)
    ensures var r := ReadTimeline(s, Offs(bs, chan, end));
            && Sounding(r, [], chan)
            && r.tones == s.tones + Tones(bs, chan, end)
    decreases |bs|
  {
    if bs != [] {
      var s1 := ReadStamped(s, Off(end, bs[0].pitch, chan));
      assert Known(s, bs[0], chan);
      EndFirst(s, bs, chan, end);
      EndAll(s1, bs[1..], chan, end);
      assert Offs(bs, chan, end)[1..] == Offs(bs[1..], chan, end);
    }
  }

  lemma EndFirst(s: Score, bs: seq<Begun>, chan: int, end: int)
    requires bs != [] && Sounding(s, bs, chan) && Different(bs)
    ensures Sounding(ReadStamped(s, Off(end, bs[0].pitch, chan)), bs[1..], chan)
  {
    var r := ReadStamped(s, Off(end, bs[0].pitch, chan));
    assert Known(s, bs[0], chan);
    assert Joined(bs[1..], bs[0], bs) by { assert bs == [bs[0]] + bs[1..]; }
    assert forall i :: 0 <= i < |bs[1..]| ==> bs[1..][i] == bs[i + 1] && bs[i + 1].pitch != bs[0].pitch;
    assert !Has(bs[1..], bs[0].pitch);
    forall k: Key
      ensures k in r.active <==> k.chan == chan && Has(bs[1..], k.pitch)
    {
      JoinedHas(bs[1..], bs[0], bs, k.pitch);
    }
    forall i | 0 <= i < |bs[1..]|
      ensures Known(r, bs[1..][i], chan)
    {
      assert Known(s, bs[i + 1], chan);
    }
  }

  /** Two notes of one pitch that sound together are read back as one: it has the first one's velocity and the
      second one's start, and the second note-off ends nothing. */
  lemma UnisonMerges(s: Score, k: Key, vel1: int, vel2: int, start1: int, start2: int, end: int)
    requires k !in s.active
    ensures var r := ReadTimeline(s, [On(start1, k.pitch, k.chan, vel1), On(start2, k.pitch, k.chan, vel2),
                                      Off(end, k.pitch, k.chan), Off(end, k.pitch, k.chan)]);
            r.tones == s.tones + [Tone(k.pitch, k.chan, vel1, start2, end - start2)] && r.active == s.active
  {
    var a, b, o := On(start1, k.pitch, k.chan, vel1), On(start2, k.pitch, k.chan, vel2), Off(end, k.pitch, k.chan);
    var s1 := ReadStamped(s, a);
    var s2 := ReadStamped(s1, b);
    var s3 := ReadStamped(s2, o);
    var l := [a, b, o, o];
    assert l[1..] == [b, o, o] && [b, o, o][1..] == [o, o] && [o, o][1..] == [o] && [o][1..] == [];
    assert ReadTimeline(s, l) == ReadTimeline(s1, [b, o, o]);
    assert ReadTimeline(s1, [b, o, o]) == ReadTimeline(s2, [o, o]);
    assert ReadTimeline(s2, [o, o]) == ReadTimeline(s3, [o]);
    assert ReadTimeline(s3, [o]) == ReadTimeline(ReadStamped(s3, o), []);
    assert Key(k.pitch, k.chan) == k;
    assert s3.active == s.active;
  }
}
