/** What the MIDI clock guarantees: exact time keeping, note-offs at their deadlines, and when the
    queue's internal checks can fire. */
module ClockLaws {
  import opened Fractions
  import opened NoteQueue
  import opened Clock

  // ---------- delay never drifts ----------

  /** Over any rational delay, whole ticks plus the carried fraction are exact: nothing is lost
      and the carry stays below one tick. */
  lemma DelayExact(c: Config, err: Frac, a: int, b: int)
    requires b > 0 && err.Ok()
    ensures var (dt, err') := DelayTicks(c, err, a, b);
            && dt as real + err'.Val() == (c.divFactor * a) as real / b as real + err.Val()
            && -1.0 < err'.Val() < 1.0
            && (a >= 0 && err.num >= 0 ==> err'.num >= 0)
  {
    var x := c.divFactor * a;
    var e := Frac(err.num * b + CMod(x, b) * err.denom, err.denom * b);
    ReduceSound(e);
    var e' := Reduced(e);
    CDivMod(x, b);
    CDivMod(e'.num, e'.denom);
    SplitVal(x, b, CDiv(x, b), CMod(x, b));
    SplitVal(e'.num, e'.denom, CDiv(e'.num, e'.denom), CMod(e'.num, e'.denom));
    FracSum(err, Frac(CMod(x, b), b));
    UnitVal(Frac(CMod(e'.num, e'.denom), e'.denom));
    if a >= 0 && err.num >= 0 {
      assert e.num >= 0 by { assert CMod(x, b) * err.denom >= 0 && err.num * b >= 0; }
      assert e'.num >= 0;
    }
  }

  // ---------- What a stretch of time does to the queue ----------

  /** An event of the stream with its absolute time. */
  datatype Stamped = On(at: int, pitch: int, chan: int, vel: int) | Off(at: int, pitch: int, chan: int) | Other(at: int)

  function StampOf(at: int, e: Event): (r: Stamped) {
    match e
    case NoteOn(_, pitch, chan, vel) => On(at, pitch, chan, vel)
    case NoteOff(_, pitch, chan) => Off(at, pitch, chan)
    case _ => Other(at)
  }

  /** The stream read against the clock, starting at base. */
  function Timeline(base: int, log: seq<Event>): (r: seq<Stamped>)
    decreases |log|
  {
    if log == [] then [] else
    [StampOf(base + log[0].delta, log[0])] + Timeline(base + log[0].delta, log[1..])
  }

  function Total(log: seq<Event>): (t: int)
    decreases |log|
  {
    if log == [] then 0 else log[0].delta + Total(log[1..])
  }

  lemma {:induction false} TimelineJoin(base: int, a: seq<Event>, b: seq<Event>)
    ensures Timeline(base, a + b) == Timeline(base, a) + Timeline(base + Total(a), b)
    ensures Total(a + b) == Total(a) + Total(b)
    decreases |a|
  {
    if a == [] {
      assert a + b == b;
    } else {
      TimelineJoin(base + a[0].delta, a[1..], b);
      assert (a + b)[1..] == a[1..] + b;
      assert (a + b)[0] == a[0];
      assert Timeline(base, a) == [StampOf(base + a[0].delta, a[0])] + Timeline(base + a[0].delta, a[1..]);
    }
  }

  lemma TimelineOne(base: int, e: Event)
    ensures Timeline(base, [e]) == [StampOf(base + e.delta, e)] && Total([e]) == e.delta
  {
    assert [e][1..] == [];
  }

  function Now(s: Clock): (t: int) {
    s.tracklen + s.delta
  }

  /** No entry of the queue calls back: plain notes, and requests only where they are ignored. */
  predicate Plain(c: Config, s: Clock, atend: bool) {
    && c.channel < MAXCHANS
    && (atend || (!c.gchordson && !c.drumson))
    && forall k :: 0 <= k < |s.q| ==> s.q[k].pitch == REQUEST || s.q[k].effect == 0
  }

  function Ending(c: Config, at: int, e: Entry): (r: seq<Stamped>) {
    if e.pitch == REQUEST then [] else [Off(at, c.Written(e.pitch, e.chan), e.chan)]
  }

  /** The note-offs of the first n entries, each at its own deadline. */
  function Ended(c: Config, now: int, q: seq<Entry>, n: nat): (r: seq<Stamped>)
    requires n <= |q|
    decreases n
  {
    if n == 0 then [] else Ended(c, now, q, n - 1) + Ending(c, now + Deadline(q, n - 1), q[n - 1])
  }

  lemma {:induction false} EndedTail(c: Config, now: int, q: seq<Entry>, n: nat)
    requires 0 < n <= |q|
    ensures Ended(c, now, q, n) == Ended(c, now, q, 1) + Ended(c, now + q[0].delay, q[1..], n - 1)
    decreases n
  {
    if n > 1 {
      EndedTail(c, now, q, n - 1);
      DeadlineTail(q, n - 1);
      AssocStamped(Ended(c, now, q, 1), Ended(c, now + q[0].delay, q[1..], n - 2),
                   Ending(c, now + Deadline(q, n - 1), q[n - 1]));
    }
  }

  lemma AssocStamped(a: seq<Stamped>, b: seq<Stamped>, d: seq<Stamped>)
    ensures a + b + d == a + (b + d)
  {
  }

  /** The queue as seen t ticks later, its first n entries gone. */
  function Later(q: seq<Entry>, n: nat, t: int): (r: seq<Entry>)
    requires n <= |q|
  {
    if n == |q| then [] else [q[n].(delay := Deadline(q, n) - t)] + q[n + 1..]
  }

  /** All timestep may change besides the queue, the clock and the stream: nothing. */
  predicate Untouched(s: Clock, r: Clock) {
    && r.totalDelay == s.totalDelay && r.notedelay == s.notedelay && r.err == s.err
    && r.gptr == s.gptr && r.dptr == s.dptr && r.bends == s.bends && r.errors == s.errors
  }

  /** s becomes r by letting t ticks pass, in which exactly the first n entries end. */
  ghost predicate Passed(c: Config, s: Clock, r: Clock, t: int, n: nat) {
    && n <= |s.q| && s.log <= r.log
    && r.q == Later(s.q, n, t)
    && Timeline(s.tracklen, r.log[|s.log|..]) == Ended(c, Now(s), s.q, n)
    && r.tracklen == s.tracklen + Total(r.log[|s.log|..])
    && Now(r) == Now(s) + t - s.totalDelay
    && Untouched(s, r)
  }

  /** timestep removes exactly the entries whose deadline lies before t, ends each plain note at its
      own deadline, and advances the clock by t less what the strummed chord had already taken. */
  lemma {:induction false} TimestepEndsNotes(c: Config, s: Clock, t: int, atend: bool)
    requires c.Valid() && Ordered(s.q) && Plain(c, s, atend)
    ensures Timestep(c, s, t, atend).Done?
    ensures Passed(c, s, Timestep(c, s, t, atend).s, t, Expired(s.q, t - 1))
    decreases |s.q|
  {
    if s.q != [] && s.q[0].delay < t {
      var s2 := HeadExpires(c, s, t, atend);
      var u := t - s.q[0].delay;
      TimestepEndsNotes(c, s2, u, atend);
      PassedOn(c, s, s2, Timestep(c, s2, u, atend).s, t, u);
    } else {
      NothingDue(c, s, t, atend);
    }
  }

  lemma NothingDue(c: Config, s: Clock, t: int, atend: bool)
    requires c.Valid() && (s.q == [] || s.q[0].delay >= t)
    ensures Timestep(c, s, t, atend).Done? && Passed(c, s, Timestep(c, s, t, atend).s, t, 0)
  {
    assert s.log[|s.log|..] == [];
  }

  /** The state after the head of s has expired and left. */
  predicate HeadGone(c: Config, s: Clock, s2: Clock)
    requires s.q != []
  {
    && s2.q == s.q[1..] && Untouched(s, s2)
    && Now(s2) == Now(s) + s.q[0].delay
    && if s.q[0].pitch == REQUEST then s2.log == s.log && s2.tracklen == s.tracklen
       else && s2.tracklen == Now(s2)
            && s2.log == s.log + [NoteOff(s2.tracklen - s.tracklen, c.Written(s.q[0].pitch, s.q[0].chan), s.q[0].chan)]
  }

  lemma HeadExpires(c: Config, s: Clock, t: int, atend: bool) returns (s2: Clock)
    requires c.Valid() && s.q != [] && s.q[0].delay < t && Plain(c, s, atend)
    ensures Timestep(c, s, t, atend) == Timestep(c, s2, t - s.q[0].delay, atend)
    ensures HeadGone(c, s, s2) && Plain(c, s2, atend)
  {
    var s1 := Expire(c, ToHead(s), atend);
    s2 := s1.(q := s1.q[1..]);
    assert ToHead(s).q[1..] == s.q[1..];
  }

  /** The head ends first, the rest of the time passes without it. */
  lemma PassedOn(c: Config, s: Clock, s2: Clock, r: Clock, t: int, u: int)
    requires c.Valid() && Ordered(s.q) && s.q != [] && s.q[0].delay < t && u == t - s.q[0].delay
    requires HeadGone(c, s, s2)
    requires Passed(c, s2, r, u, Expired(s2.q, u - 1))
    ensures Passed(c, s, r, t, Expired(s.q, t - 1))
  {
    var q := s.q;
    LaterTail(q, Expired(q, t - 1), t);
    FirstEnding(c, s, s2);
    EndingsJoin(c, s.tracklen, s.log, s2.log, r.log, Now(s), q, Expired(q, t - 1));
  }

  lemma FirstEnding(c: Config, s: Clock, s2: Clock)
    requires s.q != [] && HeadGone(c, s, s2)
    ensures s.log <= s2.log
    ensures Timeline(s.tracklen, s2.log[|s.log|..]) == Ended(c, Now(s), s.q, 1)
    ensures s2.tracklen == s.tracklen + Total(s2.log[|s.log|..])
  {
    assert Ended(c, Now(s), s.q, 0) == [];
    assert Ended(c, Now(s), s.q, 1) == Ending(c, Now(s) + s.q[0].delay, s.q[0]);
    var fst := s2.log[|s.log|..];
    if s.q[0].pitch == REQUEST {
      assert fst == [];
    } else {
      assert fst == [s2.log[|s.log|]];
      TimelineOne(s.tracklen, s2.log[|s.log|]);
    }
  }

  lemma EndingsJoin(c: Config, base: int, x: seq<Event>, y: seq<Event>, z: seq<Event>, now: int, q: seq<Entry>, n: nat)
    requires 0 < n <= |q| && x <= y <= z
    requires Timeline(base, y[|x|..]) == Ended(c, now, q, 1)
    requires Timeline(base + Total(y[|x|..]), z[|y|..]) == Ended(c, now + q[0].delay, q[1..], n - 1)
    ensures x <= z && Timeline(base, z[|x|..]) == Ended(c, now, q, n)
    ensures Total(z[|x|..]) == Total(y[|x|..]) + Total(z[|y|..])
  {
    assert z[|x|..] == y[|x|..] + z[|y|..];
    TimelineJoin(base, y[|x|..], z[|y|..]);
    EndedTail(c, now, q, n);
  }

  lemma LaterTail(q: seq<Entry>, n: nat, t: int)
    requires 0 < n <= |q|
    ensures Later(q, n, t) == Later(q[1..], n - 1, t - q[0].delay)
  {
    if n < |q| {
      DeadlineTail(q, n);
    }
  }
}
