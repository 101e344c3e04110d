/** Single notes and strummed chords on their way through the queue: how they begin, how they wait,
    and how they all end at one moment. */
module Phrases {
  import opened Fractions
  import opened NoteQueue
  import opened Clock
  import opened ClockLaws
  import opened Writer
  import opened Reader
  import opened Tune
  import P = Playback

  /** rd is what the reader makes of the stream so far. */
  ghost predicate Heard(k: Clock, rd: Score) {
    rd == ReadAllExact(Score(0, map[], map[], []), k.log) && rd.position == k.tracklen
  }

  /** A channel of a note track. */
  predicate Voiced(c: Config) {
    NoteTrack(c) && 0 <= c.channel < MAXCHANS
  }

  /** The pitch a note begins at: on the drum channel that of the drum map. */
  function Pitched(c: Config, f: Feature): (p: int) {
    if c.channel == DRUMS then c.Mapped(f.pitch) else f.pitch + c.transpose + c.globalTranspose
  }

  /** What a drum map makes of a pitch on its way to the stream. */
  function WrittenBy(drums: seq<int>, pitch: int, chan: int): (p: int) {
    if chan == 9 && 0 <= pitch < |drums| then drums[pitch] else pitch
  }

  lemma HeardMore(k: Clock, rd: Score, k': Clock)
    requires Heard(k, rd) && k.log <= k'.log && k'.tracklen == k.tracklen + Total(k'.log[|k.log|..])
    ensures Heard(k', ReadTimeline(rd, Timeline(k.tracklen, k'.log[|k.log|..])).(position := k'.tracklen))
  {
    var new' := k'.log[|k.log|..];
    assert k'.log == k.log + new';
    ReadAllExactJoin(Score(0, map[], map[], []), k.log, new');
    ReadIsTimeline(rd, new');
  }

  /** A note-on reaches the reader at the present moment, whether or not a pitch bend goes ahead. */
  lemma NoteOnHeard(c: Config, k: Clock, f: Feature, rd: Score)
    requires Voiced(c) && Heard(k, rd)
    ensures var k' := StartNote(c, k, f);
            && Heard(k', ReadStamped(rd, On(Now(k), Pitched(c, f), c.channel, f.vel)))
            && k'.delta == 0 && Now(k') == Now(k) && k'.notedelay == k.notedelay
  {
    var k' := StartNote(c, k, f);
    var pitch := Pitched(c, f);
    var bent := f.bend != Bend(k, c.channel) && c.channel != DRUMS;
    var new' := if bent then [Wheel(k.delta, c.channel, f.bend)] + [NoteOn(0, pitch, c.channel, f.vel)]
                else [NoteOn(k.delta, pitch, c.channel, f.vel)];
    assert k'.log == k.log + new';
    ReadAllExactJoin(Score(0, map[], map[], []), k.log, new');
    if bent {
      var rd1 := ReadExact(rd, new'[0]);
      assert new'[1..] == [NoteOn(0, pitch, c.channel, f.vel)];
      assert ReadAllExact(rd1, new'[1..]) == ReadAllExact(ReadExact(rd1, new'[1]), new'[1..][1..]);
    } else {
      assert new'[1..] == [];
    }
  }

  // ---------- Notes that end together ----------

  /** The queue entries of notes that all end after w ticks. */
  function QueueOf(bs: seq<Begun>, chan: int, w: int): (q: seq<Entry>)
    ensures |q| == |bs|
    decreases |bs|
  {
    if bs == [] then [] else [Entry(w, bs[0].pitch, chan, 0)] + QueueOf(bs[1..], chan, 0)
  }

  lemma {:induction false} QueueOfAt(bs: seq<Begun>, chan: int, w: int, k: nat)
    requires k < |bs|
    ensures QueueOf(bs, chan, w)[k] == Entry(if k == 0 then w else 0, bs[k].pitch, chan, 0)
    ensures Deadline(QueueOf(bs, chan, w), k) == w
    decreases k
  {
    var q := QueueOf(bs, chan, w);
    if k > 0 {
      QueueOfAt(bs[1..], chan, 0, k - 1);
      assert q[1..] == QueueOf(bs[1..], chan, 0);
      DeadlineTail(q, k);
    }
  }

  /** Notes that are not taken for requests, and end at the pitch they began at: on the drum channel
      the end goes through the map once more. */
  ghost predicate Audible(drums: seq<int>, bs: seq<Begun>, chan: int) {
    forall i :: 0 <= i < |bs| ==> bs[i].pitch >= 0 && WrittenBy(drums, bs[i].pitch, chan) == bs[i].pitch
  }

  lemma QueueOfOrdered(bs: seq<Begun>, chan: int, w: int)
    ensures Ordered(QueueOf(bs, chan, w))
    ensures forall k :: 0 <= k < |bs| ==> QueueOf(bs, chan, w)[k].effect == 0
  {
    forall k: nat | k < |bs|
      ensures QueueOf(bs, chan, w)[k] == Entry(if k == 0 then w else 0, bs[k].pitch, chan, 0)
    {
      QueueOfAt(bs, chan, w, k);
    }
  }

  /** All of them expire in any stretch longer than w. */
  lemma QueueOfExpires(bs: seq<Begun>, chan: int, w: int, t: int)
    requires w < t
    ensures Expired(QueueOf(bs, chan, w), t - 1) == |bs|
  {
    QueueOfOrdered(bs, chan, w);
    ExpiredIsCount(QueueOf(bs, chan, w), t - 1);
    var n := Expired(QueueOf(bs, chan, w), t - 1);
    if n < |bs| {
      QueueOfAt(bs, chan, w, n);
      assert false;
    }
  }

  lemma {:induction false} QueueOfEnded(c: Config, now: int, bs: seq<Begun>, chan: int, w: int)
    requires Audible(c.drumMap, bs, chan)
    ensures Ended(c, now, QueueOf(bs, chan, w), |bs|) == Offs(bs, chan, now + w)
    decreases |bs|
  {
    if bs != [] {
      var q := QueueOf(bs, chan, w);
      assert q[1..] == QueueOf(bs[1..], chan, 0);
      EndedTail(c, now, q, |bs|);
      assert forall i :: 0 <= i < |bs[1..]| ==> bs[1..][i] == bs[i + 1];
      QueueOfEnded(c, now + w, bs[1..], chan, 0);
      assert Ended(c, now, q, 0) == [];
      assert Ended(c, now, q, 1) == Ending(c, now + w, q[0]);
    }
  }

  /** Notes that sound together are all ended, and the reader has them all, once time passes them. */
  lemma Release(c: Config, k: Clock, rd: Score, bs: seq<Begun>, chan: int, w: int, t: int)
    requires NoteTrack(c) && c.channel < MAXCHANS && Heard(k, rd) && k.q == QueueOf(bs, chan, w) && w < t
    requires Sounding(rd, bs, chan) && Different(bs) && Audible(c.drumMap, bs, chan)
    ensures Timestep(c, k, t, false).Done?
    ensures var k' := Timestep(c, k, t, false).s;
            && k'.q == [] && Now(k') == Now(k) + t - k.totalDelay && Untouched(k, k')
            && exists rd' :: Heard(k', rd') && rd'.active == map[]
                          && rd'.tones == rd.tones + Tones(bs, chan, Now(k) + w)
  {
    QueueOfOrdered(bs, chan, w);
    QueueOfExpires(bs, chan, w, t);
    TimestepEndsNotes(c, k, t, false);
    ReleaseHeard(c, k, Timestep(c, k, t, false).s, rd, bs, chan, w, t);
  }

  lemma ReleaseHeard(c: Config, k: Clock, k': Clock, rd: Score, bs: seq<Begun>, chan: int, w: int, t: int)
    requires Heard(k, rd) && k.q == QueueOf(bs, chan, w)
    requires Sounding(rd, bs, chan) && Different(bs) && Audible(c.drumMap, bs, chan)
    requires Passed(c, k, k', t, |bs|)
    ensures exists rd' :: Heard(k', rd') && rd'.active == map[]
                       && rd'.tones == rd.tones + Tones(bs, chan, Now(k) + w)
  {
    QueueOfEnded(c, Now(k), bs, chan, w);
    HeardMore(k, rd, k');
    EndAll(rd, bs, chan, Now(k) + w);
    var rd' := ReadTimeline(rd, Offs(bs, chan, Now(k) + w)).(position := k'.tracklen);
    assert Heard(k', rd');
    assert Sounding(rd', [], chan) && forall x: Key :: x !in rd'.active;
    assert rd'.active == map[];
  }

  // ---------- Building up a strummed chord ----------

  /** The notes begun so far, in queue order: a later note goes first when it is delayed, and last
      when the chord is struck at once. */
  function Strummed(bs: seq<Begun>, b: Begun, gap: int): (r: seq<Begun>) {
    if gap > 0 then [b] + bs else bs + [b]
  }

  /** A note that ends gap earlier, in its own time, takes its place without moving the others. */
  lemma StrumQueue(bs: seq<Begun>, b: Begun, chan: int, w: int, gap: int)
    requires bs != [] && gap >= 0
    ensures Insert(QueueOf(bs, chan, w), Entry(w - gap, b.pitch, chan, 0), gap)
         == QueueOf(Strummed(bs, b, gap), chan, w - gap)
  {
    if gap > 0 {
      var r := QueueOf([b] + bs, chan, w - gap);
      assert ([b] + bs)[1..] == bs;
      assert QueueOf(bs, chan, w)[1..] == QueueOf(bs, chan, 0)[1..];
    } else {
      AppendQueue(bs, b, chan, w);
    }
  }

  lemma {:induction false} AppendQueue(bs: seq<Begun>, b: Begun, chan: int, w: int)
    ensures Insert(QueueOf(bs, chan, w), Entry(w, b.pitch, chan, 0), 0) == QueueOf(bs + [b], chan, w)
    decreases |bs|
  {
    if bs == [] {
      assert bs + [b] == [b] && [b][1..] == [];
    } else {
      AppendQueue(bs[1..], b, chan, 0);
      assert (bs + [b])[1..] == bs[1..] + [b];
      assert QueueOf(bs, chan, w)[1..] == QueueOf(bs[1..], chan, 0);
    }
  }
}
