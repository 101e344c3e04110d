/** From the feature list to the finished tune: what the reader hears of what writetrack writes. */
module EndToEnd {
  import opened Fractions
  import opened NoteQueue
  import opened Clock
  import opened ClockLaws
  import opened Callbacks
  import opened Writer
  import opened Reader
  import opened Phrases
  import opened Deltas
  import opened Tune
  import P = Playback
  import S = Sections
  import T = TrackEnd
  import V = Voices
  import W = WriteTrack

  // ---------- The tune a run of features stands for ----------

  /** The exact length of a feature, in ticks. */
  ghost function Len(f: Feature, divFactor: nat): (r: real)
    requires f.denom > 0
  {
    (divFactor * f.num) as real / f.denom as real
  }

  predicate Neutral(k: Kind) {
    k.SingleBar? || k.Plain? || k.Channel? || k.Transpose? || k.OldTie? || k.Tie?
    || k.GraceOn? || k.GraceOff? || k.SetGrace?
  }

  /** The global transposition, and the drum map. */
  datatype Tuning = Tuning(shift: int, drums: seq<int>)

  predicate Tuned(c: Config, g: Tuning) {
    NoteTrack(c) && c.drumMap == g.drums
  }

  /** The pitch a note begins at. */
  function PitchOf(e: P.Event, g: Tuning): (p: int) {
    if e.env.channel == 9 then WrittenBy(g.drums, e.f.pitch, 9) else e.f.pitch + e.env.transpose + g.shift
  }

  /** A note whose length, channel and bend are in order. */
  predicate Playable(e: P.Event, divFactor: nat) {
    && e.f.denom > 0 && e.f.num >= 0
    && e.env.divFactor == divFactor && 0 <= e.env.channel < 16 && 0 <= e.f.bend <= 16383
  }

  /** The note ends at the pitch it begins at: on the drum channel, which maps the pitch once more, the
      map must leave the mapped pitch as it is. */
  predicate EndsAsBegun(e: P.Event, g: Tuning) {
    WrittenBy(g.drums, PitchOf(e, g), e.env.channel) == PitchOf(e, g)
  }

  /** A note the reader can pair, not at the pitch that marks a request. */
  predicate Sings(e: P.Event, divFactor: nat, g: Tuning) {
    Playable(e, divFactor) && PitchOf(e, g) >= 0 && EndsAsBegun(e, g)
  }

  predicate Waits(e: P.Event, divFactor: nat) {
    e.f.denom > 0 && e.f.num >= 0 && e.env.divFactor == divFactor && 0 <= e.env.channel < 16
  }

  function NoteRun(ev: seq<P.Event>): (n: nat)
    ensures n <= |ev| && forall k :: 0 <= k < n ==> ev[k].f.kind.Note?
    decreases |ev|
  {
    if ev == [] || !ev[0].f.kind.Note? then 0 else 1 + NoteRun(ev[1..])
  }

  /** A chord: between one and fifty notes of different pitch, closed by a length not below theirs; on the
      drum channel, where unequal notes are left as they are, all equally long. */
  ghost predicate IsChord(ns: seq<P.Event>, off: P.Event, divFactor: nat, g: Tuning) {
    && 0 < |ns| <= 50
    && (forall k :: 0 <= k < |ns| ==> Sings(ns[k], divFactor, g) && ns[k].env == off.env)
    && (forall j, k :: 0 <= j < k < |ns| ==> PitchOf(ns[j], g) != PitchOf(ns[k], g))
    && (off.env.channel == 9 ==>
          forall k :: 0 <= k < |ns| ==> TicksOf(ns[k].f, divFactor) == TicksOf(ns[0].f, divFactor))
    && (off.f.kind.ChordOff? || off.f.kind.ChordOffEx?) && off.f.denom > 0
    && ns[0].f.num * off.f.denom <= off.f.num * ns[0].f.denom
  }

  /** A run of notes, rests, chords and tied notes. at is the exact time of its start in ticks, tied
      the time up to which an earlier tied note is covered by rests, g the global transposition. */
  ghost predicate Phrase(ev: seq<P.Event>, divFactor: nat, at: real, tied: real, g: Tuning)
    decreases |ev|
  {
    if ev == [] then tied <= at
    else
      var e, rest := ev[0], ev[1..];
      if e.f.kind.Note? then
        Sings(e, divFactor, g) && tied <= at && Phrase(rest, divFactor, at + Len(e.f, divFactor), tied, g)
      else if e.f.kind.TNote? then
        && Sings(e, divFactor, g) && tied <= at && e.f.num > 0 && divFactor > 0
        && Phrase(rest, divFactor, at, at + Len(e.f, divFactor), g)
      else if e.f.kind.Rest? then
        Waits(e, divFactor) && Phrase(rest, divFactor, at + Len(e.f, divFactor), tied, g)
      else if e.f.kind.ChordOn? then
        var k := NoteRun(rest);
        && k < |rest| && IsChord(rest[..k], rest[k], divFactor, g) && tied <= at
        && Phrase(rest[k + 1..], divFactor, at + Len(rest[k].f, divFactor), tied, g)
      else
        && (Neutral(e.f.kind) || e.f.kind.GTranspose? || e.f.kind.RTranspose?)
        && Phrase(rest, divFactor, at, tied, Transposed(e.f, g))
  }

  /** The global transposition after a feature. */
  function Transposed(f: Feature, g: Tuning): (r: Tuning) {
    if f.kind.GTranspose? then g.(shift := f.pitch)
    else if f.kind.RTranspose? then g.(shift := g.shift + f.pitch) else g
  }

  /** The ticks of a length: a note sounds for one tick less. */
  function TicksOf(f: Feature, divFactor: nat): (t: int)
    requires f.denom > 0
  {
    CDiv(divFactor * f.num, f.denom)
  }

  /** The first tick at or after which something at an exact time happens: the track opens with one. */
  ghost function Tick(at: real): (t: int) {
    1 + at.Floor
  }

  ghost function ToneOf(e: P.Event, divFactor: nat, at: real, g: Tuning): (r: Tone)
    requires e.f.denom > 0
  {
    Tone(PitchOf(e, g), e.env.channel, e.f.vel, Tick(at), TicksOf(e.f, divFactor) - 1)
  }

  /** The notes of a chord begin gap apart, from the first on. */
  ghost function Begins(ns: seq<P.Event>, at: int, gap: int, g: Tuning): (bs: seq<Begun>)
    decreases |ns|
  {
    if ns == [] then []
    else
      var i := |ns| - 1;
      Strummed(Begins(ns[..i], at, gap, g), Begun(PitchOf(ns[i], g), ns[i].f.vel, at + i * gap), gap)
  }

  /** The tune: each note starts at the tick of the exact sum of what came before, and ends one tick
      before its full length; the notes of a chord all end together. */
  ghost function Expect(ev: seq<P.Event>, divFactor: nat, at: real, tied: real, g: Tuning, gap: int): (r: seq<Tone>)
    requires Phrase(ev, divFactor, at, tied, g)
    decreases |ev|
  {
    if ev == [] then []
    else
      var e, rest := ev[0], ev[1..];
      if e.f.kind.Note? then
        [ToneOf(e, divFactor, at, g)] + Expect(rest, divFactor, at + Len(e.f, divFactor), tied, g, gap)
      else if e.f.kind.TNote? then
        [ToneOf(e, divFactor, at, g)] + Expect(rest, divFactor, at, at + Len(e.f, divFactor), g, gap)
      else if e.f.kind.Rest? then
        Expect(rest, divFactor, at + Len(e.f, divFactor), tied, g, gap)
      else if e.f.kind.ChordOn? then
        var k := NoteRun(rest);
        Tones(Begins(rest[..k], Tick(at), gap, g), rest[k].env.channel, Tick(at) + TicksOf(rest[0].f, divFactor) - 1)
        + Expect(rest[k + 1..], divFactor, at + Len(rest[k].f, divFactor), tied, g, gap)
      else
        Expect(rest, divFactor, at, tied, Transposed(e.f, g), gap)
  }

  /** The length is of more than n ticks. */
  predicate Outlasts(f: Feature, divFactor: nat, n: int) {
    f.denom > 0 && TicksOf(f, divFactor) > n
  }

  /** Each single note is at least a tick long, and each chord is longer than it takes to strum. */
  predicate Timely(ev: seq<P.Event>, divFactor: nat, gap: int)
    decreases |ev|
  {
    if ev == [] then true
    else
      var e, rest := ev[0], ev[1..];
      if e.f.kind.Note? || e.f.kind.TNote? then Outlasts(e.f, divFactor, 0) && Timely(rest, divFactor, gap)
      else if e.f.kind.ChordOn? then
        var k := NoteRun(rest);
        (k > 0 ==> Outlasts(rest[0].f, divFactor, (k - 1) * gap)) && Timely(rest[k..], divFactor, gap)
      else Timely(rest, divFactor, gap)
  }

  lemma LastingJoin(a: seq<Tone>, b: seq<Tone>)
    ensures Lasting(a + b) <==> Lasting(a) && Lasting(b)
  {
    assert forall i :: 0 <= i < |a| ==> (a + b)[i] == a[i];
    assert forall i :: 0 <= i < |b| ==> (a + b)[i + |a|] == b[i];
  }

  lemma LastingOne(x: Tone)
    ensures Lasting([x]) <==> x.duration >= 0
  {
    assert [x][0] == x;
  }

  lemma {:induction false} TonesLasting(bs: seq<Begun>, chan: int, end: int)
    ensures Lasting(Tones(bs, chan, end)) <==> BegunBy(bs, end)
    decreases |bs|
  {
    if bs != [] {
      TonesLasting(bs[1..], chan, end);
      LastingJoin([Tone(bs[0].pitch, chan, bs[0].vel, bs[0].start, end - bs[0].start)], Tones(bs[1..], chan, end));
      LastingOne(Tone(bs[0].pitch, chan, bs[0].vel, bs[0].start, end - bs[0].start));
      assert forall i :: 1 <= i < |bs| ==> bs[i] == bs[1..][i - 1];
    }
  }

  ghost predicate BegunBy(bs: seq<Begun>, end: int) {
    forall i :: 0 <= i < |bs| ==> bs[i].start <= end
  }

  lemma StrummedBy(bs: seq<Begun>, b: Begun, gap: int, end: int)
    ensures BegunBy(Strummed(bs, b, gap), end) <==> BegunBy(bs, end) && b.start <= end
  {
    var r := Strummed(bs, b, gap);
    var m := if gap > 0 then 1 else 0;
    assert r[if gap > 0 then 0 else |bs|] == b;
    assert forall i :: 0 <= i < |bs| ==> r[i + m] == bs[i];
  }

  /** The last note of a chord begins last. */
  lemma {:induction false} BeginsBy(ns: seq<P.Event>, at: int, gap: int, g: Tuning, end: int)
    requires gap >= 0 && ns != []
    ensures BegunBy(Begins(ns, at, gap, g), end) <==> at + (|ns| - 1) * gap <= end
    decreases |ns|
  {
    var i := |ns| - 1;
    StrummedBy(Begins(ns[..i], at, gap, g), Begun(PitchOf(ns[i], g), ns[i].f.vel, at + i * gap), gap, end);
    if i > 0 {
      BeginsBy(ns[..i], at, gap, g, end);
      assert (i - 1) * gap <= i * gap;
    }
  }

  /** A chord's tones all have a length exactly when the chord is longer than its strum. */
  lemma ChordLasting(ns: seq<P.Event>, chan: int, at: int, gap: int, g: Tuning, divFactor: nat)
    requires gap >= 0 && ns != [] && ns[0].f.denom > 0
    ensures Lasting(Tones(Begins(ns, at, gap, g), chan, at + TicksOf(ns[0].f, divFactor) - 1))
       <==> Outlasts(ns[0].f, divFactor, (|ns| - 1) * gap)
  {
    var end := at + TicksOf(ns[0].f, divFactor) - 1;
    TonesLasting(Begins(ns, at, gap, g), chan, end);
    BeginsBy(ns, at, gap, g, end);
  }

  /** The tones of a phrase all have a length exactly when it is timely. */
  lemma {:induction false} ExpectLasting(ev: seq<P.Event>, divFactor: nat, at: real, tied: real, g: Tuning, gap: int)
    requires gap >= 0 && Phrase(ev, divFactor, at, tied, g)
    ensures Lasting(Expect(ev, divFactor, at, tied, g, gap)) <==> Timely(ev, divFactor, gap)
    decreases |ev|
  {
    if ev != [] {
      var e, rest := ev[0], ev[1..];
      if e.f.kind.Note? {
        LastingOne(ToneOf(e, divFactor, at, g));
        ExpectLasting(rest, divFactor, at + Len(e.f, divFactor), tied, g, gap);
        LastingJoin([ToneOf(e, divFactor, at, g)], Expect(rest, divFactor, at + Len(e.f, divFactor), tied, g, gap));
      } else if e.f.kind.TNote? {
        LastingOne(ToneOf(e, divFactor, at, g));
        ExpectLasting(rest, divFactor, at, at + Len(e.f, divFactor), g, gap);
        LastingJoin([ToneOf(e, divFactor, at, g)], Expect(rest, divFactor, at, at + Len(e.f, divFactor), g, gap));
      } else if e.f.kind.Rest? {
        ExpectLasting(rest, divFactor, at + Len(e.f, divFactor), tied, g, gap);
      } else if e.f.kind.ChordOn? {
        ExpectChordLasting(ev, divFactor, at, tied, g, gap);
      } else {
        ExpectLasting(rest, divFactor, at, tied, Transposed(e.f, g), gap);
      }
    }
  }

  lemma ExpectChordLasting(ev: seq<P.Event>, divFactor: nat, at: real, tied: real, g: Tuning, gap: int)
    requires gap >= 0 && Phrase(ev, divFactor, at, tied, g) && ev != [] && ev[0].f.kind.ChordOn?
    ensures Lasting(Expect(ev, divFactor, at, tied, g, gap)) <==> Timely(ev, divFactor, gap)
    decreases |ev|, 0
  {
    var k, ns, off, tail := ChordSplit(ev, divFactor, at, tied, g);
    ExpectChord(ev, divFactor, at, tied, g, gap, k, ns, off, tail);
    var at1 := at + Len(off.f, divFactor);
    ExpectLasting(tail, divFactor, at1, tied, g, gap);
    ChordLasting(ns, off.env.channel, Tick(at), gap, g, divFactor);
    LastingJoin(Tones(Begins(ns, Tick(at), gap, g), off.env.channel, Tick(at) + TicksOf(ns[0].f, divFactor) - 1),
                Expect(tail, divFactor, at1, tied, g, gap));
    TimelyChord(ev, divFactor, gap, k, ns, off, tail);
  }

  lemma TimelyChord(ev: seq<P.Event>, divFactor: nat, gap: int, k: nat, ns: seq<P.Event>, off: P.Event,
                    tail: seq<P.Event>)
    requires ev != [] && ev[0].f.kind.ChordOn? && k == NoteRun(ev[1..]) && 0 < k < |ev[1..]|
    requires ns == ev[1..][..k] && off == ev[1..][k] && tail == ev[1..][k + 1..]
    requires off.f.kind.ChordOff? || off.f.kind.ChordOffEx?
    ensures Timely(ev, divFactor, gap) <==>
            Outlasts(ns[0].f, divFactor, (|ns| - 1) * gap) && Timely(tail, divFactor, gap)
  {
    var rest := ev[1..][k..];
    assert rest[0] == off && rest[1..] == tail;
    assert ns[0] == ev[1..][0];
  }

  // ---------- Between notes ----------

  /** A tied note that still sounds: how it began, and when it will end. */
  datatype Pending = None | Held(b: Begun, chan: int, end: int)

  function Owed(p: Pending): (r: seq<Tone>) {
    if p.None? then [] else Tones([p.b], p.chan, p.end)
  }

  /** The clock stands at an exact time: whole ticks gone by plus the fraction carried over. */
  ghost predicate OnTime(k: Clock, at: real) {
    && k.err.Ok() && 0 <= k.err.num < k.err.denom
    && (Now(k) - 1) as real + k.err.Val() == at
  }

  ghost predicate Between(s: Sound, rd: Score, at: real, g: Tuning, gap: int, p: Pending) {
    && !s.inChord && s.noteCount == 0 && s.noteDenom > 0 && s.effect == 0 && s.globalTranspose == g.shift
    && s.clock.totalDelay == 0 && s.clock.notedelay == gap && s.clock.errors == 0
    && OnTime(s.clock, at) && Heard(s.clock, rd)
    && match p
       case None => s.clock.q == [] && rd.active == map[]
       case Held(b, chan, end) =>
         && s.clock.q == QueueOf([b], chan, end - Now(s.clock)) && Sounding(rd, [b], chan)
         && Audible(g.drums, [b], chan)
  }

  lemma OnTimeTick(k: Clock, at: real)
    requires OnTime(k, at)
    ensures Now(k) == Tick(at)
  {
    assert 0.0 <= k.err.Val() < 1.0;
  }

  /** delay keeps the clock on time. */
  lemma WaitOnTime(c: Config, k: Clock, a: int, b: int, at: real)
    requires b > 0 && a >= 0 && OnTime(k, at)
    ensures var (dt, err) := DelayTicks(c, k.err, a, b);
            && dt >= CDiv(c.divFactor * a, b) >= 0
            && 0 <= err.num < err.denom
            && (Now(k) + dt - 1) as real + err.Val() == at + (c.divFactor * a) as real / b as real
  {
    DelayExact(c, k.err, a, b);
    var x := c.divFactor * a;
    var e := Frac(k.err.num * b + CMod(x, b) * k.err.denom, k.err.denom * b);
    CDivMod(x, b);
    assert x >= 0;
    assert e.num >= 0 by { assert CMod(x, b) * k.err.denom >= 0 && k.err.num * b >= 0; }
    ReduceSound(e);
    CDivMod(Reduced(e).num, Reduced(e).denom);
  }

  /** The clock less what a strummed chord has taken of its own length. */
  function Undelayed(k: Clock): (r: Clock) {
    k.(delta := k.delta - k.totalDelay)
  }

  /** What a wait leaves as it was. */
  predicate Steady(k: Clock, k': Clock) {
    k'.totalDelay == k.totalDelay && k'.notedelay == k.notedelay && k'.errors == k.errors
  }

  /** A wait longer than what the sounding notes still last ends them all, and keeps the clock on time. */
  lemma WaitReleases(c: Config, k: Clock, rd: Score, bs: seq<Begun>, chan: int, w: int, a: int, b: int, at: real)
      returns (rd': Score)
    requires NoteTrack(c) && c.channel < MAXCHANS && b > 0 && a >= 0
    requires Heard(k, rd) && k.q == QueueOf(bs, chan, w) && OnTime(Undelayed(k), at)
    requires Sounding(rd, bs, chan) && Different(bs) && Audible(c.drumMap, bs, chan)
    requires w < CDiv(c.divFactor * a, b) || w < DelayTicks(c, k.err, a, b).0
    ensures Ordered(k.q)
    ensures var k' := Wait(c, k, a, b);
            && k'.q == [] && Steady(k, k') && OnTime(k', at + (c.divFactor * a) as real / b as real)
            && Heard(k', rd') && rd'.active == map[]
    ensures rd'.tones == rd.tones + Tones(bs, chan, Now(k) + w)
  {
    QueueOfOrdered(bs, chan, w);
    var (dt, err) := DelayTicks(c, k.err, a, b);
    WaitOnTime(c, Undelayed(k), a, b, at);
    var k1 := k.(err := err);
    Release(c, k1, rd, bs, chan, w, dt + 0);
    var k' := Timestep(c, k1, dt + 0, false).s;
    rd' :| Heard(k', rd') && rd'.active == map[] && rd'.tones == rd.tones + Tones(bs, chan, Now(k1) + w);
  }

  /** A wait too short to end the sounding note brings its end nearer. */
  lemma WaitHolds(c: Config, k: Clock, rd: Score, b: Begun, chan: int, end: int, f: Feature, at: real)
    requires NoteTrack(c) && f.denom > 0 && f.num >= 0 && k.totalDelay == 0
    requires Heard(k, rd) && k.q == QueueOf([b], chan, end - Now(k)) && OnTime(k, at)
    requires end - Now(k) >= DelayTicks(c, k.err, f.num, f.denom).0
    ensures Ordered(k.q)
    ensures var k' := Wait(c, k, f.num, f.denom);
            && k'.q == QueueOf([b], chan, end - Now(k')) && end >= Now(k') && Steady(k, k')
            && OnTime(k', at + Len(f, c.divFactor)) && Heard(k', rd)
  {
    WaitOnTime(c, k, f.num, f.denom, at);
    var (dt, err) := DelayTicks(c, k.err, f.num, f.denom);
    assert [b][1..] == [];
    NothingDue(c, k.(err := err), dt + 0, false);
  }

  lemma WaitSilent(c: Config, k: Clock, rd: Score, f: Feature, at: real)
    requires NoteTrack(c) && f.denom > 0 && f.num >= 0 && k.totalDelay == 0
    requires Heard(k, rd) && k.q == [] && OnTime(k, at)
    ensures Ordered(k.q)
    ensures var k' := Wait(c, k, f.num, f.denom);
            k'.q == [] && Steady(k, k') && OnTime(k', at + Len(f, c.divFactor)) && Heard(k', rd)
  {
    WaitOnTime(c, k, f.num, f.denom, at);
    var (dt, err) := DelayTicks(c, k.err, f.num, f.denom);
    NothingDue(c, k.(err := err), dt + 0, false);
  }

  // ---------- One feature ----------

  /** A note-on from silence. */
  lemma NoteBegins(c: Config, k: Clock, f: Feature, rd: Score) returns (rd': Score, b: Begun)
    requires Voiced(c) && Heard(k, rd) && rd.active == map[]
    ensures b == Begun(Pitched(c, f), f.vel, Now(k))
    ensures var k' := StartNote(c, k, f);
            Heard(k', rd') && Sounding(rd', [b], c.channel) && Now(k') == Now(k) && k'.notedelay == k.notedelay
    ensures rd'.tones == rd.tones
  {
    NoteOnHeard(c, k, f, rd);
    b := Begun(Pitched(c, f), f.vel, Now(k));
    rd' := ReadStamped(rd, On(b.start, b.pitch, c.channel, b.vel));
    assert Sounding(rd, [], c.channel);
    assert [b] == [b] + [];
    BeginJoins(rd, [], b, [b], c.channel);
  }

  /** The queue after a note has begun in silence. */
  lemma OffQueued(c: Config, k: Clock, f: Feature, b: Begun)
    requires Voiced(c) && k.q == [] && f.denom > 0 && b.pitch == Pitched(c, f)
    ensures Ordered(k.q)
    ensures var k' := QueueOff(c, k, f, f.num, f.denom, 0);
            && k' == k.(q := k'.q)
            && k'.q == QueueOf([b], c.channel, CDiv(c.divFactor * f.num, f.denom) - k.totalDelay - 1)
  {
    assert [b][1..] == [];
  }

  /** The clock and the reader after a note has begun in silence, its end queued. */
  ghost predicate Begun1(c: Config, k: Clock, k2: Clock, rd: Score, rd1: Score, f: Feature, b: Begun, at: real)
    requires f.denom > 0
  {
    && k2.q == QueueOf([b], c.channel, TicksOf(f, c.divFactor) - 1) && b == Begun(Pitched(c, f), f.vel, Tick(at))
    && Steady(k, k2) && Now(k2) == Tick(at) && OnTime(k2, at)
    && Heard(k2, rd1) && Sounding(rd1, [b], c.channel) && rd1.tones == rd.tones
  }

  lemma NoteQueued(c: Config, k: Clock, f: Feature, rd: Score, at: real) returns (rd1: Score, b: Begun)
    requires Voiced(c) && f.denom > 0 && 0 <= f.bend <= 16383
    requires k.q == [] && k.totalDelay == 0 && OnTime(k, at) && Heard(k, rd) && rd.active == map[]
    ensures Ordered(k.q)
    ensures Begun1(c, k, QueueOff(c, StartNote(c, k, f), f, f.num, f.denom, 0), rd, rd1, f, b, at)
  {
    OnTimeTick(k, at);
    rd1, b := NoteBegins(c, k, f, rd);
    OffQueued(c, StartNote(c, k, f), f, b);
  }

  lemma NoteClock(c: Config, k: Clock, k2: Clock, f: Feature, rd: Score, rd1: Score, b: Begun, at: real)
      returns (rd': Score)
    requires Voiced(c) && f.denom > 0 && f.num >= 0 && Audible(c.drumMap, [b], c.channel) && k.totalDelay == 0
    requires Begun1(c, k, k2, rd, rd1, f, b, at)
    ensures Ordered(k2.q)
    ensures var k' := Wait(c, k2, f.num, f.denom);
            && k'.q == [] && Steady(k, k') && OnTime(k', at + Len(f, c.divFactor))
            && Heard(k', rd') && rd'.active == map[]
    ensures rd'.tones == rd.tones + [Tone(Pitched(c, f), c.channel, f.vel, Tick(at), TicksOf(f, c.divFactor) - 1)]
  {
    rd' := WaitReleases(c, k2, rd1, [b], c.channel, TicksOf(f, c.divFactor) - 1, f.num, f.denom, at);
    assert [b][1..] == [];
  }

  lemma NoteStep(c0: Config, gap: int, e: P.Event, s: Sound, rd: Score, at: real, divFactor: nat, g: Tuning)
      returns (rd': Score)
    requires Tuned(c0, g) && e.f.kind.Note? && Sings(e, divFactor, g) && Between(s, rd, at, g, gap, None)
    ensures SoundOk(s)
    ensures Between(Play(c0, gap, e, s), rd', at + Len(e.f, divFactor), g, gap, None)
    ensures rd'.tones == rd.tones + [ToneOf(e, divFactor, at, g)]
  {
    var c, k, f := Under(c0, e.env, g.shift), s.clock, e.f;
    var rd1, b := NoteQueued(c, k, f, rd, at);
    rd' := NoteClock(c, k, QueueOff(c, StartNote(c, k, f), f, f.num, f.denom, 0), f, rd, rd1, b, at);
  }

  /** What has been written, and the note still owed, leave no negative wait behind. */
  ghost predicate Prompt(k: Clock, p: Pending) {
    Onward(k) && (p.Held? ==> p.end >= Now(k))
  }

  /** A note of at least a tick is ended before its length is over. */
  lemma NoteOnward(c0: Config, gap: int, e: P.Event, s: Sound, rd: Score, at: real, divFactor: nat, g: Tuning)
    requires Tuned(c0, g) && e.f.kind.Note? && Playable(e, divFactor) && Between(s, rd, at, g, gap, None)
    requires Onward(s.clock) && Outlasts(e.f, divFactor, 0)
    ensures SoundOk(s) && Onward(Play(c0, gap, e, s).clock)
  {
    var c, k, f := Under(c0, e.env, g.shift), s.clock, e.f;
    var rd1, b := NoteQueued(c, k, f, rd, at);
    StartOnward(c, k, f);
    var k2 := QueueOff(c, StartNote(c, k, f), f, f.num, f.denom, 0);
    OffQueued(c, StartNote(c, k, f), f, b);
    WaitOnTime(c, k2, f.num, f.denom, at);
    WaitOnward(c, k2, [b], c.channel, TicksOf(f, divFactor) - 1, f.num, f.denom);
  }

  /** A tied note begins: its end is queued for its whole tied length, and no time passes. */
  lemma TieStep(c0: Config, gap: int, e: P.Event, s: Sound, rd: Score, at: real, divFactor: nat, g: Tuning)
      returns (rd': Score, p: Pending)
    requires Tuned(c0, g) && e.f.kind.TNote? && Sings(e, divFactor, g) && Between(s, rd, at, g, gap, None)
    ensures SoundOk(s)
    ensures Between(Play(c0, gap, e, s), rd', at, g, gap, p)
    ensures p.Held? && p.end == Tick(at) + TicksOf(e.f, divFactor) - 1
    ensures rd'.tones == rd.tones && Owed(p) == [ToneOf(e, divFactor, at, g)]
  {
    var c := Under(c0, e.env, g.shift);
    var b;
    rd', b := NoteQueued(c, s.clock, e.f, rd, at);
    p := Held(b, c.channel, Tick(at) + TicksOf(e.f, divFactor) - 1);
    TonesOne(b, c.channel, p.end);
  }

  lemma TieOnward(c0: Config, gap: int, e: P.Event, s: Sound, rd: Score, at: real, divFactor: nat, g: Tuning)
    requires Tuned(c0, g) && e.f.kind.TNote? && Sings(e, divFactor, g) && Between(s, rd, at, g, gap, None)
    requires Onward(s.clock)
    ensures SoundOk(s) && Onward(Play(c0, gap, e, s).clock)
  {
    var c, k, f := Under(c0, e.env, g.shift), s.clock, e.f;
    var rd1, b := NoteQueued(c, k, f, rd, at);
    StartOnward(c, k, f);
    OffQueued(c, StartNote(c, k, f), f, b);
  }

  lemma TonesOne(b: Begun, chan: int, end: int)
    ensures Tones([b], chan, end) == [Tone(b.pitch, chan, b.vel, b.start, end - b.start)]
  {
    assert [b][1..] == [];
  }

  /** A rest, in which a tied note may end. */
  lemma RestStep(c0: Config, gap: int, e: P.Event, s: Sound, rd: Score, at: real, divFactor: nat, g: Tuning, p: Pending)
      returns (rd': Score, p': Pending)
    requires Tuned(c0, g) && e.f.kind.Rest? && Waits(e, divFactor) && Between(s, rd, at, g, gap, p)
    ensures SoundOk(s)
    ensures Between(Play(c0, gap, e, s), rd', at + Len(e.f, divFactor), g, gap, p')
    ensures rd'.tones + Owed(p') == rd.tones + Owed(p)
    ensures p'.Held? ==> p' == p && p.end >= Now(Play(c0, gap, e, s).clock)
  {
    var c, k := Under(c0, e.env, g.shift), s.clock;
    rd', p' := rd, p;
    match p
    case None =>
      WaitSilent(c, k, rd, e.f, at);
    case Held(b, chan, end) =>
      QueueOfOrdered([b], chan, end - Now(k));
      if end - Now(k) < DelayTicks(c, k.err, e.f.num, e.f.denom).0 {
        rd' := WaitReleases(c, k, rd, [b], chan, end - Now(k), e.f.num, e.f.denom, at);
        p' := None;
      } else {
        WaitHolds(c, k, rd, b, chan, end, e.f, at);
      }
  }

  lemma RestOnward(c0: Config, gap: int, e: P.Event, s: Sound, rd: Score, at: real, divFactor: nat, g: Tuning,
                   p: Pending)
    requires Tuned(c0, g) && e.f.kind.Rest? && Waits(e, divFactor) && Between(s, rd, at, g, gap, p)
    requires Prompt(s.clock, p)
    ensures SoundOk(s) && Onward(Play(c0, gap, e, s).clock)
  {
    var c, k := Under(c0, e.env, g.shift), s.clock;
    WaitOnTime(c, k, e.f.num, e.f.denom, at);
    if p.Held? {
      WaitOnward(c, k, [p.b], p.chan, p.end - Now(k), e.f.num, e.f.denom);
    } else {
      WaitOnward(c, k, [], c.channel, 0, e.f.num, e.f.denom);
    }
  }

  // ---------- A strummed chord ----------

  lemma QuotientMono(a: int, b: int, c: int, d: int, x: nat)
    requires a >= 0 && b > 0 && d > 0 && a * d <= c * b
    ensures c >= 0 && CDiv(x * a, b) <= CDiv(x * c, d)
  {
    assert c >= 0 by { assert c * b >= 0; }
    var m, n := x * a, x * c;
    assert m >= 0 && n >= 0;
    assert m * d == x * (a * d) && n * b == x * (c * b);
    assert m * d <= n * b by { MulMono(x, a * d, c * b); }
    var q := m / b;
    assert q * b <= m;
    assert (q * b) * d <= m * d by { MulMono(d, q * b, m); }
    assert (q * d) * b == (q * b) * d;
    CancelFactor(b, q * d, n);
    FloorAtLeast(n, d, q);
  }

  lemma MulMono(x: nat, a: int, b: int)
    requires a <= b
    ensures x * a <= x * b
  {
  }

  lemma CancelFactor(b: int, a: int, n: int)
    requires b > 0 && a * b <= n * b
    ensures a <= n
  {
  }

  lemma FloorAtLeast(n: int, d: int, q: int)
    requires d > 0 && n >= 0
    ensures q * d <= n ==> n / d >= q
  {
    if n / d < q {
      assert (n / d + 1) * d <= q * d;
    }
  }

  lemma {:induction false} BeginsPitches(ns: seq<P.Event>, at: int, gap: int, g: Tuning, divFactor: nat)
    requires forall k :: 0 <= k < |ns| ==> Sings(ns[k], divFactor, g) && ns[k].env == ns[0].env
    requires forall j, k :: 0 <= j < k < |ns| ==> PitchOf(ns[j], g) != PitchOf(ns[k], g)
    ensures var bs := Begins(ns, at, gap, g);
            && Different(bs) && (ns != [] ==> Audible(g.drums, bs, ns[0].env.channel)) && |bs| == |ns|
            && forall p :: Has(bs, p) ==> exists k :: 0 <= k < |ns| && PitchOf(ns[k], g) == p
    decreases |ns|
  {
    var bs := Begins(ns, at, gap, g);
    if ns != [] {
      var i := |ns| - 1;
      var old', b := Begins(ns[..i], at, gap, g), Begun(PitchOf(ns[i], g), ns[i].f.vel, at + i * gap);
      BeginsPitches(ns[..i], at, gap, g, divFactor);
      if Has(old', b.pitch) {
        assert false;
      }
      assert forall j :: 0 <= j < |old'| ==> old'[j].pitch != b.pitch;
      forall p | Has(bs, p)
        ensures exists k :: 0 <= k < |ns| && PitchOf(ns[k], g) == p
      {
        JoinedHas(old', b, bs, p);
        if p == b.pitch {
          assert PitchOf(ns[i], g) == p;
        } else {
          var k :| 0 <= k < |ns[..i]| && PitchOf(ns[..i][k], g) == p;
          assert PitchOf(ns[k], g) == p;
        }
      }
    }
  }

  /** The first i notes of a chord have begun. */
  ghost predicate Chording(c: Config, s: Sound, rd: Score, ns: seq<P.Event>, at: real, g: Tuning, gap: int,
                           ticks: int) {
    var k, i, bs := s.clock, |ns|, Begins(ns, Tick(at), gap, g);
    && i > 0 && s.inChord && s.noteCount == i && s.noteDenom > 0 && s.effect == 0 && s.globalTranspose == g.shift
    && (c.channel != DRUMS ==> s.noteNum >= 0 && CDiv(c.divFactor * s.noteNum, s.noteDenom) == ticks)
    && k.totalDelay == (i - 1) * gap && k.notedelay == gap && k.errors == 0
    && k.q == QueueOf(bs, c.channel, ticks - 1 - (i - 1) * gap)
    && Now(k) == Tick(at) + (i - 1) * gap && OnTime(Undelayed(k), at)
    && Heard(k, rd) && Sounding(rd, bs, c.channel)
  }

  lemma FirstOfChord(c0: Config, gap: int, e: P.Event, s: Sound, rd: Score, at: real, divFactor: nat, g: Tuning)
      returns (rd': Score)
    requires Tuned(c0, g) && e.f.kind.Note? && Sings(e, divFactor, g)
    requires s.inChord && Between(s.(inChord := false), rd, at, g, gap, None)
    ensures SoundOk(s)
    ensures Chording(Under(c0, e.env, g.shift), Play(c0, gap, e, s), rd', [e], at, g, gap, TicksOf(e.f, divFactor))
    ensures rd'.tones == rd.tones
  {
    var c := Under(c0, e.env, g.shift);
    var b;
    rd', b := NoteQueued(c, s.clock, e.f, rd, at);
    assert [e][..0] == [];
    assert Begins([], Tick(at), gap, g) == [];
    assert Begins([e], Tick(at), gap, g) == [b];
  }

  lemma NextQueued(c: Config, k: Clock, rd: Score, f: Feature, num: int, denom: int, bs: seq<Begun>, at: real,
                   ticks: int, start: int) returns (rd': Score, b: Begun)
    requires Voiced(c) && denom > 0 && CDiv(c.divFactor * num, denom) == ticks
    requires bs != [] && |bs| < QSIZE && k.notedelay >= 0
    requires k.q == QueueOf(bs, c.channel, ticks - 1 - (k.totalDelay - k.notedelay))
    requires Now(k) == start && OnTime(Undelayed(k), at)
    requires Heard(k, rd) && Sounding(rd, bs, c.channel) && !Has(bs, Pitched(c, f))
    requires 0 <= f.bend <= 16383
    ensures b == Begun(Pitched(c, f), f.vel, start)
    ensures Ordered(k.q)
    ensures var k' := QueueOff(c, StartNote(c, k, f), f, num, denom, 0);
            && k'.q == QueueOf(Strummed(bs, b, k.notedelay), c.channel, ticks - 1 - k.totalDelay)
            && Steady(k, k') && Now(k') == start && OnTime(Undelayed(k'), at)
            && Heard(k', rd') && Sounding(rd', Strummed(bs, b, k.notedelay), c.channel)
    ensures rd'.tones == rd.tones
  {
    QueueOfOrdered(bs, c.channel, ticks - 1 - (k.totalDelay - k.notedelay));
    NoteOnHeard(c, k, f, rd);
    b := Begun(Pitched(c, f), f.vel, start);
    rd' := ReadStamped(rd, On(b.start, b.pitch, c.channel, b.vel));
    BeginJoins(rd, bs, b, Strummed(bs, b, k.notedelay), c.channel);
    StrumQueue(bs, b, c.channel, ticks - 1 - (k.totalDelay - k.notedelay), k.notedelay);
  }

  lemma SameTicks(a: int, b: int, c: int, d: int, x: nat)
    requires a >= 0 && c >= 0 && b > 0 && d > 0 && a * d == b * c
    ensures CDiv(x * a, b) == CDiv(x * c, d)
  {
    QuotientMono(a, b, c, d, x);
    QuotientMono(c, d, a, b, x);
  }

  lemma NextOfChord(c0: Config, gap: int, ns: seq<P.Event>, e: P.Event, s: Sound, rd: Score, at: real, divFactor: nat,
                    g: Tuning, ticks: int) returns (rd': Score)
    requires Tuned(c0, g) && e.f.kind.Note? && Sings(e, divFactor, g) && gap >= 0 && |ns| < QSIZE
    requires Chording(Under(c0, e.env, g.shift), s, rd, ns, at, g, gap, ticks)
    requires !Has(Begins(ns, Tick(at), gap, g), PitchOf(e, g))
    requires |Begins(ns, Tick(at), gap, g)| == |ns|
    requires e.env.channel == DRUMS ==> TicksOf(e.f, divFactor) == ticks
    ensures SoundOk(s)
    ensures Chording(Under(c0, e.env, g.shift), Play(c0, gap, e, s), rd', ns + [e], at, g, gap, ticks)
    ensures rd'.tones == rd.tones
  {
    var c, bs := Under(c0, e.env, g.shift), Begins(ns, Tick(at), gap, g);
    StrumFacts(c, s, rd, ns, at, g, gap, ticks);
    var s1 := Strum(s);
    var (n, d) := NextLength(c, s1, e.f);
    NextTicks(c, s, rd, ns, at, g, gap, ticks, e, divFactor);
    var b;
    rd', b := NextQueued(c, s1.clock, rd, e.f, n, d, bs, at, ticks, Tick(at) + |ns| * gap);
    BeginsNext(ns, e, Tick(at), gap, g);
    NextPlayed(c0, gap, e, s);
  }

  lemma BeginsNext(ns: seq<P.Event>, e: P.Event, at: int, gap: int, g: Tuning)
    ensures Begins(ns + [e], at, gap, g)
         == Strummed(Begins(ns, at, gap, g), Begun(PitchOf(e, g), e.f.vel, at + |ns| * gap), gap)
  {
    assert (ns + [e])[..|ns|] == ns;
  }

  /** What the second and later notes of a chord do. */
  lemma NextPlayed(c0: Config, gap: int, e: P.Event, s: Sound)
    requires NoteTrack(c0) && SoundOk(s) && e.f.kind.Note? && e.f.denom > 0 && s.inChord && s.noteCount > 0
    ensures var c, s1 := Under(c0, e.env, s.globalTranspose), Strum(s);
            var (n, d) := NextLength(c, s1, e.f);
            d != 0 && Ordered(s1.clock.q)
            && Play(c0, gap, e, s)
            == s1.(clock := QueueOff(c, StartNote(c, s1.clock, e.f), e.f, n, d, s.effect), effect := 0,
                   noteNum := if c.channel == DRUMS then s1.noteNum else n,
                   noteDenom := if c.channel == DRUMS then s1.noteDenom else d)
  {
  }

  /** The length a note of a chord ends by. */
  function NextLength(c: Config, s: Sound, f: Feature): (r: (int, int)) {
    if c.channel != DRUMS && s.noteNum * f.denom != s.noteDenom * f.num then (s.noteNum, s.noteDenom)
    else (f.num, f.denom)
  }

  lemma NextTicks(c: Config, s: Sound, rd: Score, ns: seq<P.Event>, at: real, g: Tuning, gap: int, ticks: int,
                  e: P.Event, divFactor: nat)
    requires Chording(c, s, rd, ns, at, g, gap, ticks) && Playable(e, divFactor) && c.divFactor == divFactor
    requires c.channel == DRUMS ==> TicksOf(e.f, divFactor) == ticks
    ensures var (n, d) := NextLength(c, Strum(s), e.f);
            d > 0 && CDiv(c.divFactor * n, d) == ticks && (c.channel != DRUMS ==> n >= 0)
  {
    if c.channel != DRUMS && s.noteNum * e.f.denom == s.noteDenom * e.f.num {
      SameTicks(s.noteNum, s.noteDenom, e.f.num, e.f.denom, divFactor);
    }
  }

  /** The clock when the next note of a chord begins. */
  lemma StrumFacts(c: Config, s: Sound, rd: Score, ns: seq<P.Event>, at: real, g: Tuning, gap: int, ticks: int)
    requires Chording(c, s, rd, ns, at, g, gap, ticks)
    ensures var s1, k, bs := Strum(s), Strum(s).clock, Begins(ns, Tick(at), gap, g);
            && s1 == s.(noteCount := |ns| + 1, clock := k) && Ordered(s.clock.q)
            && k.q == QueueOf(bs, c.channel, ticks - 1 - (k.totalDelay - k.notedelay))
            && k.totalDelay == |ns| * gap && k.notedelay == gap && k.errors == 0 && k.err == s.clock.err
            && Now(k) == Tick(at) + |ns| * gap && OnTime(Undelayed(k), at)
            && Heard(k, rd) && Sounding(rd, bs, c.channel)
  {
    assert (|ns| - 1) * gap + gap == |ns| * gap;
    var k := Strum(s).clock;
    assert Undelayed(k) == Undelayed(s.clock).(totalDelay := k.totalDelay);
    QueueOfOrdered(Begins(ns, Tick(at), gap, g), c.channel, ticks - 1 - (|ns| - 1) * gap);
  }

  lemma ChordEnds(c0: Config, gap: int, ns: seq<P.Event>, off: P.Event, s: Sound, rd: Score, at: real, divFactor: nat,
                  g: Tuning)
      returns (rd': Score)
    requires Tuned(c0, g) && gap >= 0 && IsChord(ns, off, divFactor, g)
    requires Chording(Under(c0, off.env, g.shift), s, rd, ns, at, g, gap, TicksOf(ns[0].f, divFactor))
    ensures SoundOk(s)
    ensures Between(Play(c0, gap, off, s), rd', at + Len(off.f, divFactor), g, gap, None)
    ensures rd'.tones == rd.tones
        + Tones(Begins(ns, Tick(at), gap, g), off.env.channel, Tick(at) + TicksOf(ns[0].f, divFactor) - 1)
  {
    rd' := ChordReleased(Under(c0, off.env, g.shift), gap, ns, off, s, rd, at, g);
  }

  /** The notes of a chord can be told apart, and end before the chord does. */
  lemma ChordFits(ns: seq<P.Event>, off: P.Event, at: int, gap: int, g: Tuning, divFactor: nat)
    requires gap >= 0 && IsChord(ns, off, divFactor, g)
    ensures var bs := Begins(ns, at, gap, g); Different(bs) && Audible(g.drums, bs, off.env.channel)
    ensures TicksOf(ns[0].f, divFactor) <= TicksOf(off.f, divFactor) && (|ns| - 1) * gap >= 0
  {
    BeginsPitches(ns, at, gap, g, divFactor);
    QuotientMono(ns[0].f.num, ns[0].f.denom, off.f.num, off.f.denom, divFactor);
  }

  lemma ChordReleased(c: Config, gap: int, ns: seq<P.Event>, off: P.Event, s: Sound, rd: Score, at: real, g: Tuning)
      returns (rd': Score)
    requires Tuned(c, g) && gap >= 0 && IsChord(ns, off, c.divFactor, g) && c.channel == off.env.channel
    requires Chording(c, s, rd, ns, at, g, gap, TicksOf(ns[0].f, c.divFactor))
    ensures Ordered(s.clock.q) && s.clock.err.Ok()
    ensures var k' := Wait(c, s.clock, off.f.num, off.f.denom);
            && k'.q == [] && Steady(s.clock, k') && OnTime(k', at + Len(off.f, c.divFactor))
            && Heard(k', rd') && rd'.active == map[]
    ensures rd'.tones == rd.tones
        + Tones(Begins(ns, Tick(at), gap, g), c.channel, Tick(at) + TicksOf(ns[0].f, c.divFactor) - 1)
  {
    var k, f, bs := s.clock, off.f, Begins(ns, Tick(at), gap, g);
    var ticks, d := TicksOf(ns[0].f, c.divFactor), (|ns| - 1) * gap;
    ChordFits(ns, off, Tick(at), gap, g, c.divFactor);
    QueueOfOrdered(bs, c.channel, ticks - 1 - d);
    rd' := WaitReleases(c, k, rd, bs, c.channel, ticks - 1 - d, f.num, f.denom, at);
  }

  /** The notes of a chord, one after the other. */
  lemma {:induction false} ChordNotes(c0: Config, gap: int, ns: seq<P.Event>, off: P.Event, s: Sound, rd: Score,
                                      at: real, divFactor: nat, g: Tuning, n: nat) returns (rd': Score)
    requires Tuned(c0, g) && gap >= 0 && IsChord(ns, off, divFactor, g) && 0 < n <= |ns|
    requires forall k :: 0 <= k < |ns| ==> ns[k].f.kind.Note?
    requires s.inChord && Between(s.(inChord := false), rd, at, g, gap, None)
    ensures SoundOk(s) && EventsOk(ns[..n])
    ensures Chording(Under(c0, off.env, g.shift), PlayAll(c0, gap, ns[..n], s), rd', ns[..n], at, g, gap,
                     TicksOf(ns[0].f, divFactor))
    ensures rd'.tones == rd.tones
    decreases n
  {
    assert EventsOk(ns[..n]);
    if n == 1 {
      assert ns[..1] == [ns[0]] && [ns[0]][1..] == [];
      rd' := FirstOfChord(c0, gap, ns[0], s, rd, at, divFactor, g);
    } else {
      var rd1 := ChordNotes(c0, gap, ns, off, s, rd, at, divFactor, g, n - 1);
      assert ns[..n] == ns[..n - 1] + [ns[n - 1]];
      PlayAllJoin(c0, gap, ns[..n - 1], [ns[n - 1]], s);
      ChordPitchNew(ns, off, divFactor, g, n - 1, Tick(at), gap);
      rd' := NextOfChord(c0, gap, ns[..n - 1], ns[n - 1], PlayAll(c0, gap, ns[..n - 1], s), rd1, at, divFactor, g,
                         TicksOf(ns[0].f, divFactor));
    }
  }

  lemma ChordPitchNew(ns: seq<P.Event>, off: P.Event, divFactor: nat, g: Tuning, n: nat, at: int, gap: int)
    requires IsChord(ns, off, divFactor, g) && 0 < n < |ns|
    ensures |Begins(ns[..n], at, gap, g)| == n
    ensures !Has(Begins(ns[..n], at, gap, g), PitchOf(ns[n], g))
  {
    BeginsPitches(ns[..n], at, gap, g, divFactor);
    if Has(Begins(ns[..n], at, gap, g), PitchOf(ns[n], g)) {
      assert false;
    }
  }

  lemma {:induction false} PlayAllJoin(c: Config, gap: int, a: seq<P.Event>, b: seq<P.Event>, s: Sound)
    requires NoteTrack(c) && SoundOk(s) && EventsOk(a) && EventsOk(b)
    ensures EventsOk(a + b)
    ensures PlayAll(c, gap, a + b, s) == PlayAll(c, gap, b, PlayAll(c, gap, a, s))
    decreases |a|
  {
    if a == [] {
      assert a + b == b;
    } else {
      assert (a + b)[1..] == a[1..] + b;
      PlayAllJoin(c, gap, a[1..], b, Play(c, gap, a[0], s));
    }
  }

  // ---------- Whole phrases ----------

  /** A stand-in for Play, so that a run can be reasoned about without its workings. */
  type Player = (P.Event, Sound) -> Sound

  predicate Asked(e: P.Event, s: Sound) {
    true
  }

  ghost predicate Performs(player: Player, c0: Config, gap: int) {
    NoteTrack(c0) && gap >= 0
    && forall e, s {:trigger Asked(e, s)} :: Asked(e, s) && SoundOk(s) && (Timed(e.f) ==> e.f.denom > 0) ==>
         player(e, s) == Play(c0, gap, e, s)
  }

  function Run(player: Player, ev: seq<P.Event>, s: Sound): (r: Sound)
    decreases |ev|
  {
    if ev == [] then s else Run(player, ev[1..], player(ev[0], s))
  }

  lemma {:induction false} RunIsPlayAll(player: Player, c0: Config, gap: int, ev: seq<P.Event>, s: Sound)
    requires Performs(player, c0, gap) && SoundOk(s) && EventsOk(ev)
    ensures Run(player, ev, s) == PlayAll(c0, gap, ev, s)
    decreases |ev|
  {
    if ev != [] {
      assert Asked(ev[0], s);
      RunIsPlayAll(player, c0, gap, ev[1..], Play(c0, gap, ev[0], s));
    }
  }

  lemma {:induction false} RunJoin(player: Player, a: seq<P.Event>, b: seq<P.Event>, s: Sound)
    ensures Run(player, a + b, s) == Run(player, b, Run(player, a, s))
    decreases |a|
  {
    if a == [] {
      assert a + b == b;
    } else {
      assert (a + b)[1..] == a[1..] + b;
      RunJoin(player, a[1..], b, player(a[0], s));
    }
  }

  /** A held note ends before the rests that cover it do. */
  ghost predicate Covered(p: Pending, k: Clock, at: real, tied: real) {
    p.Held? ==> (p.end >= Now(k) || tied > at) && p.end as real <= tied
  }

  lemma TieOver(p: Pending, k: Clock, at: real, tied: real)
    requires Covered(p, k, at, tied) && OnTime(k, at) && tied <= at
    ensures p.None?
  {
    OnTimeTick(k, at);
  }

  lemma TieCovered(f: Feature, divFactor: nat, at: real)
    requires f.denom > 0 && f.num > 0 && divFactor > 0
    ensures at + Len(f, divFactor) > at
    ensures (Tick(at) + TicksOf(f, divFactor) - 1) as real <= at + Len(f, divFactor)
  {
    var x := divFactor * f.num;
    assert x > 0;
    SplitVal(x, f.denom, x / f.denom, x % f.denom);
    UnitVal(Frac(x % f.denom, f.denom));
  }

  lemma PhraseEventsOk(ev: seq<P.Event>, divFactor: nat, at: real, tied: real, g: Tuning)
    requires Phrase(ev, divFactor, at, tied, g)
    ensures EventsOk(ev)
    decreases |ev|
  {
    if ev != [] {
      var e, rest := ev[0], ev[1..];
      if e.f.kind.TNote? {
        PhraseEventsOk(rest, divFactor, at, at + Len(e.f, divFactor), g);
      } else if e.f.kind.Note? || e.f.kind.Rest? {
        PhraseEventsOk(rest, divFactor, at + Len(e.f, divFactor), tied, g);
      } else if e.f.kind.ChordOn? {
        var k := NoteRun(rest);
        PhraseEventsOk(rest[k + 1..], divFactor, at + Len(rest[k].f, divFactor), tied, g);
        assert rest == rest[..k] + [rest[k]] + rest[k + 1..];
      } else {
        PhraseEventsOk(rest, divFactor, at, tied, Transposed(e.f, g));
      }
    }
  }

  /** A chord, from its opening to its end. */
  lemma ChordStep(c0: Config, gap: int, ns: seq<P.Event>, on: P.Event, off: P.Event, s: Sound, rd: Score, at: real,
                  divFactor: nat, g: Tuning) returns (rd': Score)
    requires Tuned(c0, g) && gap >= 0 && IsChord(ns, off, divFactor, g) && on.f.kind.ChordOn?
    requires forall k :: 0 <= k < |ns| ==> ns[k].f.kind.Note?
    requires Between(s, rd, at, g, gap, None)
    ensures SoundOk(s) && EventsOk([on] + ns + [off])
    ensures Between(PlayAll(c0, gap, [on] + ns + [off], s), rd', at + Len(off.f, divFactor), g, gap, None)
    ensures rd'.tones == rd.tones
        + Tones(Begins(ns, Tick(at), gap, g), off.env.channel, Tick(at) + TicksOf(ns[0].f, divFactor) - 1)
  {
    var s1 := s.(inChord := true);
    assert ns[..|ns|] == ns;
    var rd1 := ChordNotes(c0, gap, ns, off, s1, rd, at, divFactor, g, |ns|);
    var s2 := PlayAll(c0, gap, ns, s1);
    rd' := ChordEnds(c0, gap, ns, off, s2, rd1, at, divFactor, g);
    ChordUnfolds(c0, gap, ns, on, off, s);
  }

  /** What spread is set to matters where a chord ends, and where an arpeggio begins. */
  lemma {:induction false} SpreadLater(c0: Config, gap: int, gap': int, ev: seq<P.Event>, s: Sound)
    requires NoteTrack(c0) && SoundOk(s) && EventsOk(ev)
    requires forall k :: 0 <= k < |ev| ==> ev[k].f.kind.Note? || ev[k].f.kind.ChordOn?
    ensures PlayAll(c0, gap, ev, s) == PlayAll(c0, gap', ev, s)
    decreases |ev|
  {
    if ev != [] {
      SpreadLater(c0, gap, gap', ev[1..], Play(c0, gap, ev[0], s));
    }
  }

  /** A chord behind an arpeggio mark begins its notes three times as far apart, and the next one as before. */
  lemma ArpeggioStep(c0: Config, gap: int, arp: P.Event, ns: seq<P.Event>, on: P.Event, off: P.Event, s: Sound,
                     rd: Score, at: real, divFactor: nat, g: Tuning) returns (rd': Score)
    requires Tuned(c0, g) && gap >= 0 && IsChord(ns, off, divFactor, g) && on.f.kind.ChordOn? && arp.f.kind.Arpeggio?
    requires forall k :: 0 <= k < |ns| ==> ns[k].f.kind.Note?
    requires Between(s, rd, at, g, gap, None)
    ensures SoundOk(s) && EventsOk([on] + ns + [off])
    ensures Between(PlayAll(c0, gap, [on] + ns + [off], Play(c0, gap, arp, s)), rd', at + Len(off.f, divFactor), g, gap,
                    None)
    ensures rd'.tones == rd.tones
        + Tones(Begins(ns, Tick(at), 3 * gap, g), off.env.channel, Tick(at) + TicksOf(ns[0].f, divFactor) - 1)
  {
    var s1 := Play(c0, gap, arp, s);
    rd' := ChordStep(c0, 3 * gap, ns, on, off, s1, rd, at, divFactor, g);
    var ev := [on] + ns;
    assert EventsOk(ev) && EventsOk([off]) && [off][1..] == [];
    PlayAllJoin(c0, gap, ev, [off], s1);
    PlayAllJoin(c0, 3 * gap, ev, [off], s1);
    SpreadLater(c0, gap, 3 * gap, ev, s1);
  }

  /** The notes of a chord begin one after the other. */
  lemma {:induction false} ChordNotesOnward(c0: Config, gap: int, ns: seq<P.Event>, s: Sound)
    requires NoteTrack(c0) && SoundOk(s) && EventsOk(ns) && forall k :: 0 <= k < |ns| ==> ns[k].f.kind.Note?
    requires s.inChord && s.clock.notedelay >= 0 && Onward(s.clock)
    ensures Onward(PlayAll(c0, gap, ns, s).clock)
    decreases |ns|
  {
    if ns != [] {
      ChordNoteOnward(c0, gap, ns[0], s);
      ChordNotesOnward(c0, gap, ns[1..], Play(c0, gap, ns[0], s));
    }
  }

  lemma ChordNoteOnward(c0: Config, gap: int, e: P.Event, s: Sound)
    requires NoteTrack(c0) && SoundOk(s) && e.f.kind.Note? && e.f.denom > 0
    requires s.inChord && s.clock.notedelay >= 0 && Onward(s.clock)
    ensures var s' := Play(c0, gap, e, s); Onward(s'.clock) && s'.inChord && s'.clock.notedelay == s.clock.notedelay
  {
    StartOnward(Under(c0, e.env, s.globalTranspose), Strum(s).clock, e.f);
  }

  /** A chord longer than its strum is ended after its last note has begun. */
  lemma ChordEndOnward(c: Config, gap: int, ns: seq<P.Event>, off: P.Event, s: Sound, rd: Score, at: real, g: Tuning)
    requires Tuned(c, g) && gap >= 0 && IsChord(ns, off, c.divFactor, g) && c.channel == off.env.channel
    requires Chording(c, s, rd, ns, at, g, gap, TicksOf(ns[0].f, c.divFactor))
    requires Onward(s.clock) && Outlasts(ns[0].f, c.divFactor, (|ns| - 1) * gap)
    ensures Ordered(s.clock.q) && s.clock.err.Ok() && Onward(Wait(c, s.clock, off.f.num, off.f.denom))
  {
    var k, f, bs := s.clock, off.f, Begins(ns, Tick(at), gap, g);
    var ticks, d := TicksOf(ns[0].f, c.divFactor), (|ns| - 1) * gap;
    ChordFits(ns, off, Tick(at), gap, g, c.divFactor);
    WaitOnTime(c, Undelayed(k), f.num, f.denom, at);
    WaitOnward(c, k, bs, c.channel, ticks - 1 - d, f.num, f.denom);
  }

  lemma ChordOnward(c0: Config, gap: int, ns: seq<P.Event>, on: P.Event, off: P.Event, s: Sound, rd: Score, at: real,
                    divFactor: nat, g: Tuning)
    requires Tuned(c0, g) && gap >= 0 && IsChord(ns, off, divFactor, g) && on.f.kind.ChordOn?
    requires forall k :: 0 <= k < |ns| ==> ns[k].f.kind.Note?
    requires Between(s, rd, at, g, gap, None)
    requires Onward(s.clock) && Outlasts(ns[0].f, divFactor, (|ns| - 1) * gap)
    ensures SoundOk(s) && EventsOk([on] + ns + [off]) && Onward(PlayAll(c0, gap, [on] + ns + [off], s).clock)
  {
    var s1 := s.(inChord := true);
    assert ns[..|ns|] == ns;
    var rd1 := ChordNotes(c0, gap, ns, off, s1, rd, at, divFactor, g, |ns|);
    ChordNotesOnward(c0, gap, ns, s1);
    ChordEndOnward(Under(c0, off.env, g.shift), gap, ns, off, PlayAll(c0, gap, ns, s1), rd1, at, g);
    ChordUnfolds(c0, gap, ns, on, off, s);
  }

  lemma ChordUnfolds(c0: Config, gap: int, ns: seq<P.Event>, on: P.Event, off: P.Event, s: Sound)
    requires NoteTrack(c0) && SoundOk(s) && EventsOk(ns) && (Timed(off.f) ==> off.f.denom > 0) && on.f.kind.ChordOn?
    ensures EventsOk([on] + ns + [off]) && SoundOk(PlayAll(c0, gap, ns, s.(inChord := true)))
    ensures PlayAll(c0, gap, [on] + ns + [off], s)
         == Play(c0, gap, off, PlayAll(c0, gap, ns, s.(inChord := true)))
  {
    assert ([on] + ns + [off])[1..] == ns + [off] && [off][1..] == [];
    PlayAllJoin(c0, gap, ns, [off], s.(inChord := true));
    assert forall k :: 0 <= k < |ns| ==> ([on] + ns + [off])[k + 1] == ns[k];
  }

  /** What is still owed, and the phrase to come, need no negative wait. */
  ghost predicate Ready(k: Clock, p: Pending, ev: seq<P.Event>, divFactor: nat, gap: int) {
    Prompt(k, p) && Timely(ev, divFactor, gap)
  }

  /** Playing a phrase adds exactly its tones to what has been written, after a tone still owed; and when
      each lasts a tick, nothing is written with a negative wait. */
  lemma {:induction false} PhrasePlays(player: Player, c0: Config, gap: int, ev: seq<P.Event>, s: Sound, rd: Score,
                                       at: real, tied: real, divFactor: nat, g: Tuning, p: Pending)
      returns (rd': Score, at': real, g': Tuning)
    requires Performs(player, c0, gap) && c0.drumMap == g.drums && Phrase(ev, divFactor, at, tied, g)
    requires Between(s, rd, at, g, gap, p) && Covered(p, s.clock, at, tied)
    ensures Between(Run(player, ev, s), rd', at', g', gap, None)
    ensures rd'.tones == rd.tones + Owed(p) + Expect(ev, divFactor, at, tied, g, gap)
    ensures Ready(s.clock, p, ev, divFactor, gap) ==> Onward(Run(player, ev, s).clock)
    decreases |ev|
  {
    if ev == [] {
      TieOver(p, s.clock, at, tied);
      rd', at', g' := rd, at, g;
    } else {
      if tied <= at {
        TieOver(p, s.clock, at, tied);
      }
      var kind := ev[0].f.kind;
      if kind.Note? {
        rd', at', g' := NoteFirst(player, c0, gap, ev, s, rd, at, tied, divFactor, g);
      } else if kind.TNote? {
        rd', at', g' := TieFirst(player, c0, gap, ev, s, rd, at, tied, divFactor, g);
      } else if kind.Rest? {
        rd', at', g' := RestFirst(player, c0, gap, ev, s, rd, at, tied, divFactor, g, p);
      } else if kind.ChordOn? {
        rd', at', g' := ChordFirst(player, c0, gap, ev, s, rd, at, tied, divFactor, g);
      } else {
        rd', at', g' := OtherFirst(player, c0, gap, ev, s, rd, at, tied, divFactor, g, p);
      }
    }
  }

  lemma Assoc<A>(a: seq<A>, b: seq<A>, c: seq<A>)
    ensures (a + b) + c == a + (b + c) && a + [] == a
  {
  }

  lemma NotePlayed(player: Player, c0: Config, gap: int, e: P.Event, s: Sound, rd: Score, at: real, divFactor: nat,
                   g: Tuning)
      returns (rd': Score)
    requires Performs(player, c0, gap) && c0.drumMap == g.drums && e.f.kind.Note? && Sings(e, divFactor, g)
             && Between(s, rd, at, g, gap, None)
    ensures Between(player(e, s), rd', at + Len(e.f, divFactor), g, gap, None)
    ensures rd'.tones == rd.tones + [ToneOf(e, divFactor, at, g)]
    ensures Onward(s.clock) && Outlasts(e.f, divFactor, 0) ==> Onward(player(e, s).clock)
  {
    assert Asked(e, s);
    if Onward(s.clock) && Outlasts(e.f, divFactor, 0) {
      NoteOnward(c0, gap, e, s, rd, at, divFactor, g);
    }
    rd' := NoteStep(c0, gap, e, s, rd, at, divFactor, g);
  }

  lemma TiePlayed(player: Player, c0: Config, gap: int, e: P.Event, s: Sound, rd: Score, at: real, divFactor: nat,
                  g: Tuning)
      returns (rd': Score, p: Pending)
    requires Performs(player, c0, gap) && c0.drumMap == g.drums && e.f.kind.TNote? && Sings(e, divFactor, g)
             && Between(s, rd, at, g, gap, None)
    requires e.f.num > 0 && divFactor > 0
    ensures Between(player(e, s), rd', at, g, gap, p) && Covered(p, player(e, s).clock, at, at + Len(e.f, divFactor))
    ensures rd'.tones == rd.tones && Owed(p) == [ToneOf(e, divFactor, at, g)]
    ensures Onward(s.clock) && Outlasts(e.f, divFactor, 0) ==> Prompt(player(e, s).clock, p)
  {
    assert Asked(e, s);
    if Onward(s.clock) {
      TieOnward(c0, gap, e, s, rd, at, divFactor, g);
    }
    rd', p := TieStep(c0, gap, e, s, rd, at, divFactor, g);
    TieCovered(e.f, divFactor, at);
    OnTimeTick(player(e, s).clock, at);
  }

  lemma NoteFirst(player: Player, c0: Config, gap: int, ev: seq<P.Event>, s: Sound, rd: Score, at: real, tied: real,
                  divFactor: nat, g: Tuning) returns (rd': Score, at': real, g': Tuning)
    requires Performs(player, c0, gap) && c0.drumMap == g.drums && Phrase(ev, divFactor, at, tied, g) && ev != []
    requires ev[0].f.kind.Note?
    requires Between(s, rd, at, g, gap, None)
    ensures Between(Run(player, ev, s), rd', at', g', gap, None)
    ensures rd'.tones == rd.tones + Expect(ev, divFactor, at, tied, g, gap)
    ensures Ready(s.clock, None, ev, divFactor, gap) ==> Onward(Run(player, ev, s).clock)
    decreases |ev|, 0
  {
    var e, rest, at1 := ev[0], ev[1..], at + Len(ev[0].f, divFactor);
    var rd1 := NotePlayed(player, c0, gap, e, s, rd, at, divFactor, g);
    rd', at', g' := PhrasePlays(player, c0, gap, rest, player(e, s), rd1, at1, tied, divFactor, g, None);
    Assoc(rd.tones, [ToneOf(e, divFactor, at, g)], Expect(rest, divFactor, at1, tied, g, gap));
  }

  lemma TieFirst(player: Player, c0: Config, gap: int, ev: seq<P.Event>, s: Sound, rd: Score, at: real, tied: real,
                  divFactor: nat, g: Tuning) returns (rd': Score, at': real, g': Tuning)
    requires Performs(player, c0, gap) && c0.drumMap == g.drums && Phrase(ev, divFactor, at, tied, g) && ev != []
    requires ev[0].f.kind.TNote?
    requires Between(s, rd, at, g, gap, None)
    ensures Between(Run(player, ev, s), rd', at', g', gap, None)
    ensures rd'.tones == rd.tones + Expect(ev, divFactor, at, tied, g, gap)
    ensures Ready(s.clock, None, ev, divFactor, gap) ==> Onward(Run(player, ev, s).clock)
    decreases |ev|, 0
  {
    var rd1, p1 := TiePlayed(player, c0, gap, ev[0], s, rd, at, divFactor, g);
    var tied1 := at + Len(ev[0].f, divFactor);
    rd', at', g' := PhrasePlays(player, c0, gap, ev[1..], player(ev[0], s), rd1, at, tied1, divFactor, g, p1);
    Assoc(rd.tones, Owed(p1), Expect(ev[1..], divFactor, at, tied1, g, gap));
  }

  lemma RestFirst(player: Player, c0: Config, gap: int, ev: seq<P.Event>, s: Sound, rd: Score, at: real, tied: real,
                  divFactor: nat, g: Tuning, p: Pending) returns (rd': Score, at': real, g': Tuning)
    requires Performs(player, c0, gap) && c0.drumMap == g.drums && Phrase(ev, divFactor, at, tied, g) && ev != []
    requires ev[0].f.kind.Rest?
    requires Between(s, rd, at, g, gap, p) && Covered(p, s.clock, at, tied)
    ensures Between(Run(player, ev, s), rd', at', g', gap, None)
    ensures rd'.tones == rd.tones + Owed(p) + Expect(ev, divFactor, at, tied, g, gap)
    ensures Ready(s.clock, p, ev, divFactor, gap) ==> Onward(Run(player, ev, s).clock)
    decreases |ev|, 0
  {
    assert Asked(ev[0], s);
    if Prompt(s.clock, p) {
      RestOnward(c0, gap, ev[0], s, rd, at, divFactor, g, p);
    }
    var rd1, p1 := RestStep(c0, gap, ev[0], s, rd, at, divFactor, g, p);
    rd', at', g' := PhrasePlays(player, c0, gap, ev[1..], player(ev[0], s), rd1, at + Len(ev[0].f, divFactor), tied,
                                divFactor, g, p1);
  }

  lemma OtherFirst(player: Player, c0: Config, gap: int, ev: seq<P.Event>, s: Sound, rd: Score, at: real, tied: real,
                  divFactor: nat, g: Tuning, p: Pending) returns (rd': Score, at': real, g': Tuning)
    requires Performs(player, c0, gap) && c0.drumMap == g.drums && Phrase(ev, divFactor, at, tied, g) && ev != []
    requires !ev[0].f.kind.Note? && !ev[0].f.kind.TNote? && !ev[0].f.kind.Rest? && !ev[0].f.kind.ChordOn?
    requires Between(s, rd, at, g, gap, p) && Covered(p, s.clock, at, tied)
    ensures Between(Run(player, ev, s), rd', at', g', gap, None)
    ensures rd'.tones == rd.tones + Owed(p) + Expect(ev, divFactor, at, tied, g, gap)
    ensures Ready(s.clock, p, ev, divFactor, gap) ==> Onward(Run(player, ev, s).clock)
    decreases |ev|, 0
  {
    assert Asked(ev[0], s);
    BetweenOk(s, rd, at, g, gap, p);
    var g1 := Transposed(ev[0].f, g);
    rd', at', g' := PhrasePlays(player, c0, gap, ev[1..], s.(globalTranspose := g1.shift), rd, at, tied,
                                divFactor, g1, p);
  }

  lemma ChordFirst(player: Player, c0: Config, gap: int, ev: seq<P.Event>, s: Sound, rd: Score, at: real, tied: real,
                  divFactor: nat, g: Tuning) returns (rd': Score, at': real, g': Tuning)
    requires Performs(player, c0, gap) && c0.drumMap == g.drums && Phrase(ev, divFactor, at, tied, g) && ev != []
    requires ev[0].f.kind.ChordOn?
    requires Between(s, rd, at, g, gap, None)
    ensures Between(Run(player, ev, s), rd', at', g', gap, None)
    ensures rd'.tones == rd.tones + Expect(ev, divFactor, at, tied, g, gap)
    ensures Ready(s.clock, None, ev, divFactor, gap) ==> Onward(Run(player, ev, s).clock)
    decreases |ev|, 0
  {
    var k, ns, off, tail := ChordSplit(ev, divFactor, at, tied, g);
    TimelyChord(ev, divFactor, gap, k, ns, off, tail);
    if Ready(s.clock, None, ev, divFactor, gap) {
      ChordOnward(c0, gap, ns, ev[0], off, s, rd, at, divFactor, g);
    }
    var rd1 := ChordStep(c0, gap, ns, ev[0], off, s, rd, at, divFactor, g);
    RunIsPlayAll(player, c0, gap, [ev[0]] + ns + [off], s);
    RunJoin(player, [ev[0]] + ns + [off], tail, s);
    rd', at', g' := PhrasePlays(player, c0, gap, tail, Run(player, [ev[0]] + ns + [off], s), rd1,
                                at + Len(off.f, divFactor), tied, divFactor, g, None);
    ExpectChord(ev, divFactor, at, tied, g, gap, k, ns, off, tail);
  }

  lemma BetweenOk(s: Sound, rd: Score, at: real, g: Tuning, gap: int, p: Pending)
    requires Between(s, rd, at, g, gap, p)
    ensures SoundOk(s)
  {
    if p.Held? {
      QueueOfOrdered([p.b], p.chan, p.end - Now(s.clock));
    }
  }

  lemma ChordSplit(ev: seq<P.Event>, divFactor: nat, at: real, tied: real, g: Tuning)
      returns (k: nat, ns: seq<P.Event>, off: P.Event, tail: seq<P.Event>)
    requires Phrase(ev, divFactor, at, tied, g) && ev != [] && ev[0].f.kind.ChordOn?
    ensures k == NoteRun(ev[1..]) && k < |ev[1..]| && ns == ev[1..][..k] && off == ev[1..][k]
            && tail == ev[1..][k + 1..]
    ensures ev == ([ev[0]] + ns + [off]) + tail && |tail| < |ev|
    ensures IsChord(ns, off, divFactor, g) && forall i :: 0 <= i < |ns| ==> ns[i].f.kind.Note?
    ensures Phrase(tail, divFactor, at + Len(off.f, divFactor), tied, g)
  {
    k := NoteRun(ev[1..]);
    ns, off, tail := ev[1..][..k], ev[1..][k], ev[1..][k + 1..];
  }

  lemma ExpectChord(ev: seq<P.Event>, divFactor: nat, at: real, tied: real, g: Tuning, gap: int,
                    k: nat, ns: seq<P.Event>, off: P.Event, tail: seq<P.Event>)
    requires Phrase(ev, divFactor, at, tied, g) && ev != [] && ev[0].f.kind.ChordOn?
    requires k == NoteRun(ev[1..]) && k < |ev[1..]| && ns == ev[1..][..k] && off == ev[1..][k]
             && tail == ev[1..][k + 1..]
    requires IsChord(ns, off, divFactor, g) && Phrase(tail, divFactor, at + Len(off.f, divFactor), tied, g)
    ensures Expect(ev, divFactor, at, tied, g, gap)
         == Tones(Begins(ns, Tick(at), gap, g), off.env.channel, Tick(at) + TicksOf(ns[0].f, divFactor) - 1)
            + Expect(tail, divFactor, at + Len(off.f, divFactor), tied, g, gap)
  {
    assert ns[0] == ev[1..][0];
  }

  // ---------- The whole way ----------

  /** From any point between notes the reader gets exactly the tones of a phrase when each single note in it
      is at least a tick long and each chord longer than its strum; otherwise a note-off is written with a
      negative wait, and the reader gets something else. */
  lemma PhraseReadBack(player: Player, c0: Config, gap: int, ev: seq<P.Event>, s: Sound, rd: Score,
                       at: real, tied: real, divFactor: nat, g: Tuning, p: Pending)
    requires Performs(player, c0, gap) && c0.drumMap == g.drums && Phrase(ev, divFactor, at, tied, g)
    requires Between(s, rd, at, g, gap, p) && Covered(p, s.clock, at, tied) && Prompt(s.clock, p)
    ensures var k := Run(player, ev, s).clock;
            var heard := ReadAll(Score(0, map[], map[], []), k.log);
            && (Forward(k.log) <==> Timely(ev, divFactor, gap))
            && (heard.tones == rd.tones + Owed(p) + Expect(ev, divFactor, at, tied, g, gap) <==>
                Timely(ev, divFactor, gap))
            && heard.active == map[] && k.q == [] && k.errors == 0
  {
    var rd', at', g' := PhrasePlays(player, c0, gap, ev, s, rd, at, tied, divFactor, g, p);
    var log, rd0 := Run(player, ev, s).clock.log, Score(0, map[], map[], []);
    var due := Expect(ev, divFactor, at, tied, g, gap);
    PairedAlike(rd0, rd0, log);
    ReadLasting(rd0, log);
    ExpectLasting(ev, divFactor, at, tied, g, gap);
    LastingJoin(rd.tones + Owed(p), due);
    if Forward(log) {
      ReadForward(rd0, log);
    }
  }

  /** What is read back of a track that plays the events ev. */
  ghost predicate ReadBack(t: Features, voice: int, c: Config, gap: int, a: P.Control, ev: seq<P.Event>)
    requires NoteTrack(c) && LengthsOk(t) && P.Inv(t, a) && SoundOk(Opening(gap))
    requires Phrase(ev, a.now.divFactor, 0.0, 0.0, Tuning(0, c.drumMap))
  {
    var (ct, s) := W.Sounds(t, voice, c, gap, a, Opening(gap));
    var s' := W.Cleared(c, ct, s);
    var rd := ReadAll(Score(0, map[], map[], []), s'.clock.log);
    var divFactor := a.now.divFactor;
    && (rd.tones == Expect(ev, divFactor, 0.0, 0.0, Tuning(0, c.drumMap), gap) <==> Timely(ev, divFactor, gap))
    && (Forward(s'.clock.log) <==> Timely(ev, divFactor, gap))
    && rd.active == map[] && s'.clock.errors == 0
  }

  lemma PlayedReadBack(t: Features, voice: int, c: Config, gap: int, a: P.Control, ev: seq<P.Event>)
    requires NoteTrack(c) && gap >= 0 && LengthsOk(t) && P.Inv(t, a) && P.Played(t, voice, a) == ev
    requires Phrase(ev, a.now.divFactor, 0.0, 0.0, Tuning(0, c.drumMap))
    ensures SoundOk(Opening(gap)) && ReadBack(t, voice, c, gap, a, ev)
  {
    var divFactor, g := a.now.divFactor, Tuning(0, c.drumMap);
    var s0 := Opening(gap);
    var rd0 := Score(0, map[], map[], []);
    assert Between(s0, rd0, 0.0, g, gap, None);
    PhraseEventsOk(ev, divFactor, 0.0, 0.0, g);
    ghost var player: Player :=
      (e: P.Event, s: Sound) => if SoundOk(s) && (Timed(e.f) ==> e.f.denom > 0) then Play(c, gap, e, s) else s;
    RunIsPlayAll(player, c, gap, ev, s0);
    PhraseReadBack(player, c, gap, ev, s0, rd0, 0.0, 0.0, divFactor, g, None);
    var s := PlayAll(c, gap, ev, s0);
    assert s.clock.q == [] && T.LeadingRequests(s.clock.q) == 0;
    assert rd0.tones + Owed(None) + Expect(ev, divFactor, 0.0, 0.0, g, gap) == Expect(ev, divFactor, 0.0, 0.0, g, gap);
  }

  /** Any tune made of sections whose written-out form is a phrase, written by writetrack from the
      opening of a track and read back, gives the tones of the written-out tune, with the repeats
      played, exactly when every wait written is non-negative, which is when the phrase is timely.
      In any case no error is reported and nothing is left sounding. */
  lemma WrittenAndReadBack(ss: seq<S.Section>, voice: int, c: Config, env: P.Settings, gap: int)
    requires NoteTrack(c) && gap >= 0 && forall k :: 0 <= k < |ss| ==> ss[k].Ok()
    requires LengthsOk(S.PrintAll(ss)) && Phrase(S.UnrollAll(ss, env), env.divFactor, 0.0, 0.0, Tuning(0, c.drumMap))
    ensures SoundOk(Opening(gap))
    ensures var t, ev := S.PrintAll(ss), S.UnrollAll(ss, env);
            var (ct, s) := W.Sounds(t, voice, c, gap, P.Start(t, voice, 0, env), Opening(gap));
            var s' := W.Cleared(c, ct, s);
            var rd := ReadAll(Score(0, map[], map[], []), s'.clock.log);
            && (rd.tones == Expect(ev, env.divFactor, 0.0, 0.0, Tuning(0, c.drumMap), gap) <==>
                Timely(ev, env.divFactor, gap))
            && (Forward(s'.clock.log) <==> Timely(ev, env.divFactor, gap))
            && rd.active == map[]
            && ct.errors == 0 && s'.clock.errors == 0
  {
    var t := S.PrintAll(ss);
    S.PlaybackUnrolls(ss, voice, env);
    PlayedReadBack(t, voice, c, gap, P.Start(t, voice, 0, env), S.UnrollAll(ss, env));
  }

  /** The same for each voice of a tune of several voices: what is read back of its track is its part alone,
      whatever the stretches of the other voices hold. */
  lemma VoiceReadBack(t: Features, ss: seq<S.Section>, voice: int, used: bool, c: Config, env: P.Settings, gap: int)
    requires V.PartOf(t, voice, !(used && voice != 1)) == S.PrintAll(ss) && forall k :: 0 <= k < |ss| ==> ss[k].Ok()
    requires NoteTrack(c) && gap >= 0 && LengthsOk(t)
    requires Phrase(S.UnrollAll(ss, env), env.divFactor, 0.0, 0.0, Tuning(0, c.drumMap))
    ensures SoundOk(Opening(gap))
    ensures ReadBack(t, voice, c, gap, P.Start(t, voice, P.Beginning(t, voice, used), env), S.UnrollAll(ss, env))
  {
    V.VoiceUnrolls(t, ss, voice, used, env);
    PlayedReadBack(t, voice, c, gap, P.Start(t, voice, P.Beginning(t, voice, used), env), S.UnrollAll(ss, env));
  }

  /** A note of a thousandth of a quarter at 480 ticks is a phrase, but not a timely one. */
  lemma ShortNote(n: P.Event, g: Tuning)
    requires n.f.kind.Note? && n.f.num == 1 && n.f.denom == 1000 && Sings(n, 480, g)
    ensures Phrase([n], 480, 0.0, 0.0, g) && !Timely([n], 480, 10)
  {
    assert [n][1..] == [];
    assert Len(n.f, 480) >= 0.0;
  }

  /** Nor are four notes of a sixty-fourth, 30 ticks, begun 10 ticks apart. */
  lemma ShortChord(on: P.Event, ns: seq<P.Event>, off: P.Event, g: Tuning)
    requires on.f.kind.ChordOn? && |ns| == 4 && forall k :: 0 <= k < 4 ==> ns[k].f.kind.Note?
    requires IsChord(ns, off, 480, g) && ns[0].f.num == 1 && ns[0].f.denom == 16
    ensures Phrase([on] + ns + [off], 480, 0.0, 0.0, g) && !Timely([on] + ns + [off], 480, 10)
  {
    var ev := [on] + ns + [off];
    var rest := ev[1..];
    assert rest == ns + [off];
    RunOfNotes(ns, off);
    assert rest[..4] == ns && rest[4] == off && rest[5..] == [];
    QuotientMono(1, 16, off.f.num, off.f.denom, 480);
    TimelyChord(ev, 480, 10, 4, ns, off, []);
  }

  lemma {:induction false} RunOfNotes(ns: seq<P.Event>, off: P.Event)
    requires !off.f.kind.Note? && forall k :: 0 <= k < |ns| ==> ns[k].f.kind.Note?
    ensures NoteRun(ns + [off]) == |ns|
    decreases |ns|
  {
    if ns != [] {
      assert (ns + [off])[1..] == ns[1..] + [off];
      RunOfNotes(ns[1..], off);
    }
  }
}
