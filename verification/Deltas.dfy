/** The waits that go into the stream: which steps of the clock leave them all non-negative. */
module Deltas {
  import opened Fractions
  import opened NoteQueue
  import opened Clock
  import opened ClockLaws
  import opened Writer
  import opened Reader
  import opened Phrases
  import opened Tune

  /** Nothing has been written with a negative wait, and the wait under way is not negative. */
  ghost predicate Onward(k: Clock) {
    Forward(k.log) && k.delta >= 0
  }

  lemma StartOnward(c: Config, k: Clock, f: Feature)
    requires Onward(k)
    ensures Onward(StartNote(c, k, f))
  {
  }

  /** Time that ends the notes bs after w ticks, or does not reach their end. */
  lemma {:induction false} TimestepOnward(c: Config, k: Clock, bs: seq<Begun>, chan: int, w: nat, t: int)
    requires NoteTrack(c) && c.channel < MAXCHANS && k.q == QueueOf(bs, chan, w) && Onward(k)
    requires k.totalDelay <= t && (w >= t || w + k.totalDelay <= t)
    ensures Timestep(c, k, t, false).Done? && Onward(Timestep(c, k, t, false).s)
    decreases |bs|
  {
    QueueOfOrdered(bs, chan, w);
    if bs != [] && w < t {
      var k2 := HeadExpires(c, k, t, false);
      assert k.q[1..] == QueueOf(bs[1..], chan, 0);
      TimestepOnward(c, k2, bs[1..], chan, 0, t - w);
    }
  }

  lemma WaitOnward(c: Config, k: Clock, bs: seq<Begun>, chan: int, w: nat, a: int, b: int)
    requires NoteTrack(c) && c.channel < MAXCHANS && b > 0 && k.err.Ok() && k.q == QueueOf(bs, chan, w) && Onward(k)
    requires var t := DelayTicks(c, k.err, a, b).0; k.totalDelay <= t && (w >= t || w + k.totalDelay <= t)
    ensures Ordered(k.q) && Onward(Wait(c, k, a, b))
  {
    QueueOfOrdered(bs, chan, w);
    var (dt, err) := DelayTicks(c, k.err, a, b);
    TimestepOnward(c, k.(err := err), bs, chan, w, dt + 0);
  }
}
