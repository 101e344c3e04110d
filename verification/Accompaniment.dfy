/** An accompaniment pattern, of guitar chords or of drums, from its steps to the notes it plays. */
module Accompaniment {
  import opened Fractions
  import opened NoteQueue
  import opened Clock
  import opened ClockLaws
  import opened Callbacks

  // ---------- A run of the pattern ----------

  /** Where the accompaniment is: step n is asked for at the given time, and these notes end one tick
      before; or the pattern is over. */
  datatype Acc = Acc(n: nat, at: int, ending: seq<Struck>) | Over

  function Key(c: Config, x: Struck): (p: int) {
    if x.chan == DRUMS then x.pitch else x.pitch + c.transpose + c.globalTranspose
  }

  /** The pattern of the track: of guitar chords or of drums. */
  function Pat(c: Config): (p: Pattern) {
    if c.gchordson then c.gchord else c.drum
  }

  /** How far the track has come in it. */
  function Ptr(c: Config, s: Clock): (n: nat) {
    if c.gchordson then s.gptr else s.dptr
  }

  function SoundsOf(c: Config, n: nat): (r: seq<Struck>)
    requires c.Valid() && n < |Pat(c).steps|
  {
    if c.gchordson then StepSounds(c, c.gchord.steps[n]) else Hit(c, n)
  }

  function TicksOf(c: Config, n: nat): (t: int)
    requires c.Valid() && n < |Pat(c).steps|
  {
    Ticks(c, Pat(c).num * Pat(c).len[n], Pat(c).denom)
  }

  /** A step that starts a note lasts at least a tick. */
  predicate StepSafe(c: Config, n: nat)
    requires c.Valid() && n < |Pat(c).steps|
  {
    SoundsOf(c, n) == [] || TicksOf(c, n) >= 1
  }

  /** A track of guitar chords or of drums none of whose steps has too many notes for the queue, or one
      that would be taken for a request. */
  ghost predicate Roomy(c: Config) {
    && c.Valid() && c.gchordson != c.drumson && 0 <= c.channel < MAXCHANS
    && forall n: nat :: n < |Pat(c).steps| ==>
         && |SoundsOf(c, n)| + 2 <= QSIZE
         && forall i :: 0 <= i < |SoundsOf(c, n)| ==> Key(c, SoundsOf(c, n)[i]) != REQUEST
  }

  /** None of its steps is too short either. */
  ghost predicate Ready(c: Config) {
    Roomy(c) && forall n: nat :: n < |Pat(c).steps| ==> StepSafe(c, n)
  }

  /** The pending ends, the first of them d ticks away. */
  function Ends(c: Config, d: int, ns: seq<Struck>): (q: seq<Entry>)
    ensures |q| == |ns|
  {
    seq(|ns|, i requires 0 <= i < |ns| => Entry(if i == 0 then d else 0, Key(c, ns[i]), ns[i].chan, 0))
  }

  function Queue(c: Config, now: int, a: Acc): (q: seq<Entry>) {
    if a.Over? then []
    else if a.ending == [] then [Entry(a.at - now, REQUEST, a.n, 0)]
    else Ends(c, a.at - 1 - now, a.ending) + [Entry(1, REQUEST, a.n, 0)]
  }

  predicate Sounding(c: Config, a: Acc) {
    a.Acc? ==> a.n <= |Pat(c).steps| && forall i :: 0 <= i < |a.ending| ==> Key(c, a.ending[i]) != REQUEST
  }

  /** The state of the track is that of a. */
  predicate At(c: Config, s: Clock, a: Acc) {
    && s.q == Queue(c, Now(s), a) && Sounding(c, a)
    && Bend(s, c.channel) == 8192 && s.totalDelay == 0
    && (a.Acc? ==> Ptr(c, s) == a.n)
  }

  function Ons(c: Config, at: int, ns: seq<Struck>): (r: seq<Stamped>) {
    seq(|ns|, i requires 0 <= i < |ns| => On(at, c.Written(Key(c, ns[i]), ns[i].chan), ns[i].chan, ns[i].vel))
  }

  function Offs(c: Config, at: int, ns: seq<Struck>): (r: seq<Stamped>) {
    seq(|ns|, i requires 0 <= i < |ns| => Off(at, c.Written(Key(c, ns[i]), ns[i].chan), ns[i].chan))
  }

  /** When the next thing happens. */
  function Due(a: Acc): (t: int)
    requires a.Acc?
  {
    if a.ending == [] then a.at else a.at - 1
  }

  /** If a step is what happens next, it is not too short. */
  predicate StepSafeNext(c: Config, a: Acc)
    requires c.Valid()
  {
    a.Acc? && a.ending == [] && a.n < |Pat(c).steps| ==> StepSafe(c, a.n)
  }

  /** What happens next. */
  function Next(c: Config, a: Acc): (r: (seq<Stamped>, Acc))
    requires c.Valid() && a.Acc?
    ensures r.1.Acc? && a.n < r.1.n ==> a.n < |Pat(c).steps|
  {
    if a.ending != [] then (Offs(c, a.at - 1, a.ending[..1]), a.(ending := a.ending[1..]))
    else if a.n < |Pat(c).steps| then
      (Ons(c, a.at, SoundsOf(c, a.n)), Acc(a.n + 1, a.at + TicksOf(c, a.n), SoundsOf(c, a.n)))
    else ([], Over)
  }

  function Left(c: Config, a: Acc): (n: nat) {
    if a.Over? then 0 else if a.n < |Pat(c).steps| then |Pat(c).steps| - a.n + 1 else 1
  }

  /** All that happens before the given time, and where the accompaniment is then. */
  function Perform(c: Config, a: Acc, until: int): (r: (seq<Stamped>, Acc))
    requires c.Valid()
    decreases Left(c, a), if a.Acc? then |a.ending| else 0
  {
    if a.Over? || Due(a) >= until then ([], a)
    else
      var (out, a1) := Next(c, a);
      var (more, r) := Perform(c, a1, until);
      (out + more, r)
  }

  // ---------- timestep plays the run ----------

  function Sum(q: seq<Entry>): (t: int) {
    if q == [] then 0 else q[0].delay + Sum(q[1..])
  }

  ghost predicate NonNegative(q: seq<Entry>) {
    forall k :: 0 <= k < |q| ==> q[k].delay >= 0
  }

  /** An entry due after all others goes to the end. */
  lemma {:induction false} InsertLast(q: seq<Entry>, e: Entry, notedelay: int)
    requires NonNegative(q) && Sum(q) <= e.delay
    ensures Insert(q, e, notedelay) == q + [e.(delay := e.delay - Sum(q))]
    decreases |q|
  {
    if q != [] {
      SumNonNegative(q[1..]);
      InsertLast(q[1..], e.(delay := e.delay - q[0].delay), notedelay);
    }
  }

  lemma {:induction false} SumNonNegative(q: seq<Entry>)
    requires NonNegative(q)
    ensures Sum(q) >= 0
    decreases |q|
  {
    if q != [] { SumNonNegative(q[1..]); }
  }

  lemma {:induction false} SumSnoc(q: seq<Entry>, e: Entry)
    ensures Sum(q + [e]) == Sum(q) + e.delay
    decreases |q|
  {
    if q == [] {
      assert q + [e] == [e];
    } else {
      assert (q + [e])[1..] == q[1..] + [e];
      SumSnoc(q[1..], e);
    }
  }

  lemma LogOne(log: seq<Event>, e: Event)
    ensures (log + [e])[|log|..] == [e]
  {
  }

  /** A note joins those that end together. */
  lemma NoteSaved(c: Config, s: Clock, num: int, denom: int, x: Struck)
    requires denom > 0 && c.channel < MAXCHANS && Bend(s, c.channel) == 8192
    requires |s.q| < QSIZE && NonNegative(s.q) && Sum(s.q) <= Ticks(c, num, denom) - 1
    ensures var r := SaveNote(c, s, num, denom, x.pitch, x.chan, x.vel);
            && Begun(c, s, r, Ticks(c, num, denom) - 1 - Sum(s.q), [x])
            && r.q == s.q + [Entry(Ticks(c, num, denom) - 1 - Sum(s.q), Key(c, x), x.chan, 0)]
  {
    var e := Entry(Ticks(c, num, denom) - 1, Key(c, x), x.chan, 0);
    InsertLast(s.q, e, s.notedelay);
    var on := NoteOn(s.delta, c.Written(Key(c, x), x.chan), x.chan, x.vel);
    LogOne(s.log, on);
    TimelineOne(s.tracklen, on);
  }

  /** What playing notes leaves alone. */
  predicate Same3(s: Clock, r: Clock) {
    && Now(r) == Now(s) && r.bends == s.bends && r.totalDelay == s.totalDelay
    && r.notedelay == s.notedelay && r.gptr == s.gptr && r.dptr == s.dptr
  }

  lemma LogJoin(c: Config, base: int, x: seq<Event>, y: seq<Event>, z: seq<Event>)
    requires x <= y <= z
    ensures x <= z
    ensures Timeline(base, z[|x|..]) == Timeline(base, y[|x|..]) + Timeline(base + Total(y[|x|..]), z[|y|..])
    ensures Total(z[|x|..]) == Total(y[|x|..]) + Total(z[|y|..])
  {
    assert z[|x|..] == y[|x|..] + z[|y|..];
    TimelineJoin(base, y[|x|..], z[|y|..]);
  }

  /** The notes of a step begin now and queue up to end together. */
  lemma {:induction false} NotesSaved(c: Config, s: Clock, num: int, denom: int, ns: seq<Struck>)
    requires denom > 0 && c.channel < MAXCHANS && Bend(s, c.channel) == 8192
    requires |s.q| + |ns| <= QSIZE && NonNegative(s.q) && (ns != [] ==> Sum(s.q) <= Ticks(c, num, denom) - 1)
    ensures Begun(c, s, SaveNotes(c, s, num, denom, ns), Ticks(c, num, denom) - 1 - Sum(s.q), ns)
    decreases |ns|
  {
    if ns == [] {
      assert s.log[|s.log|..] == [];
    } else {
      var s1 := SaveNote(c, s, num, denom, ns[0].pitch, ns[0].chan, ns[0].vel);
      var d := Ticks(c, num, denom) - 1 - Sum(s.q);
      NoteSaved(c, s, num, denom, ns[0]);
      SumSnoc(s.q, s1.q[|s.q|]);
      assert Ticks(c, num, denom) - 1 - Sum(s1.q) == 0;
      NotesSaved(c, s1, num, denom, ns[1..]);
      BegunMore(c, s, s1, SaveNotes(c, s1, num, denom, ns[1..]), d, ns);
    }
  }

  /** In r, these notes have just begun, and are to end together d ticks behind the last entry of s. */
  ghost predicate Begun(c: Config, s: Clock, r: Clock, d: int, ns: seq<Struck>) {
    && r.q == s.q + Ends(c, d, ns)
    && s.log <= r.log && Timeline(s.tracklen, r.log[|s.log|..]) == Ons(c, Now(s), ns)
    && Same3(s, r) && r.tracklen == s.tracklen + Total(r.log[|s.log|..])
  }

  lemma BegunMore(c: Config, s: Clock, s1: Clock, r: Clock, d: int, ns: seq<Struck>)
    requires ns != [] && Begun(c, s, s1, d, [ns[0]]) && Begun(c, s1, r, 0, ns[1..])
    ensures Begun(c, s, r, d, ns)
  {
    LogJoin(c, s.tracklen, s.log, s1.log, r.log);
    EndsCons(c, d, ns);
    EndsCons(c, d, [ns[0]]);
    assert s.q + Ends(c, d, [ns[0]]) + Ends(c, 0, ns[1..]) == s.q + Ends(c, d, ns);
  }

  lemma EndsCons(c: Config, d: int, ns: seq<Struck>)
    requires ns != []
    ensures Ends(c, d, ns) == [Entry(d, Key(c, ns[0]), ns[0].chan, 0)] + Ends(c, 0, ns[1..])
    ensures forall at :: Ons(c, at, ns) == Ons(c, at, [ns[0]]) + Ons(c, at, ns[1..])
    ensures ns[..1] == [ns[0]]
  {
  }

  /** s becomes r when what is in out happens. */
  ghost predicate Moves(s: Clock, r: Clock, out: seq<Stamped>) {
    && s.log <= r.log && Timeline(s.tracklen, r.log[|s.log|..]) == out
    && r.tracklen == s.tracklen + Total(r.log[|s.log|..])
  }

  lemma MovesJoin(c: Config, s: Clock, s1: Clock, r: Clock, a: seq<Stamped>, b: seq<Stamped>)
    requires Moves(s, s1, a) && Moves(s1, r, b)
    ensures Moves(s, r, a + b)
  {
    LogJoin(c, s.tracklen, s.log, s1.log, r.log);
  }

  lemma MovesNot(s: Clock, r: Clock)
    requires r.log == s.log && r.tracklen == s.tracklen
    ensures Moves(s, r, [])
  {
    assert r.log[|s.log|..] == [];
  }

  /** The head of the queue leaves it, and what is next happens. */
  ghost predicate Leaves(c: Config, s: Clock, a: Acc, s2: Clock)
    requires c.Valid() && a.Acc?
  {
    && s.q != [] && s.q[0].delay == Due(a) - Now(s) && Pop(c, s, false) == Done(s2)
    && At(c, s2, Next(c, a).1) && Moves(s, s2, Next(c, a).0) && Now(s2) == Due(a)
  }

  /** One pending note ends. */
  lemma EndHappens(c: Config, s: Clock, a: Acc) returns (s2: Clock)
    requires Roomy(c) && At(c, s, a) && a.Acc? && a.ending != []
    ensures Leaves(c, s, a, s2)
  {
    var e := s.q[0];
    EndsTail(c, Now(s), a);
    s2 := EndPops(c, s, e);
    var off := NoteOff(s.delta + e.delay, c.Written(e.pitch, e.chan), e.chan);
    LogOne(s.log, off);
    TimelineOne(s.tracklen, off);
  }

  lemma EndsTail(c: Config, now: int, a: Acc)
    requires a.Acc? && a.ending != []
    ensures var q := Queue(c, now, a);
            && q[0] == Entry(a.at - 1 - now, Key(c, a.ending[0]), a.ending[0].chan, 0)
            && q[1..] == Queue(c, a.at - 1, a.(ending := a.ending[1..]))
  {
    EndsCons(c, a.at - 1 - now, a.ending);
    assert Queue(c, now, a)[1..] == Ends(c, 0, a.ending[1..]) + [Entry(1, REQUEST, a.n, 0)];
  }

  /** A plain note at the head ends. */
  lemma EndPops(c: Config, s: Clock, e: Entry) returns (s2: Clock)
    requires c.Valid() && c.channel < MAXCHANS && s.q != [] && s.q[0] == e && e.pitch != REQUEST && e.effect == 0
    ensures Pop(c, s, false) == Done(s2) && s2.q == s.q[1..]
    ensures s2 == s.(q := s2.q, log := s.log + [NoteOff(s.delta + e.delay, c.Written(e.pitch, e.chan), e.chan)],
                     tracklen := s.tracklen + s.delta + e.delay, delta := 0, delta0 := s2.delta0)
  {
    var s1 := Expire(c, ToHead(s), false);
    s2 := s1.(q := s1.q[1..]);
    assert ToHead(s).q[1..] == s.q[1..];
  }

  /** What the request for step n does to the queue it alone stands in. */
  lemma StepQueue(c: Config, s0: Clock, n: nat) returns (s1: Clock)
    requires Roomy(c) && n < |Pat(c).steps| && StepSafe(c, n) && s0.q == [Entry(0, REQUEST, n, 0)]
    requires Bend(s0, c.channel) == 8192 && Ptr(c, s0) == n
    ensures s1 == Expire(c, s0, false) && Ptr(c, s1) == n + 1
    ensures s1.q == s0.q + Queue(c, Now(s0), Acc(n + 1, Now(s0) + TicksOf(c, n), SoundsOf(c, n)))
    ensures Moves(s0, s1, Ons(c, Now(s0), SoundsOf(c, n)))
    ensures Now(s1) == Now(s0) && s1.bends == s0.bends && s1.totalDelay == s0.totalDelay
  {
    var ns, T := SoundsOf(c, n), TicksOf(c, n);
    var num, denom := Pat(c).num * Pat(c).len[n], Pat(c).denom;
    assert Sum(s0.q) == 0 by { assert s0.q[1..] == []; }
    TicksNonNegative(c, Pat(c), n);
    NotesSaved(c, s0, num, denom, ns);
    var s1' := SaveNotes(c, s0, num, denom, ns);
    StepAsks(c, s0.q, s1'.q, T, n + 1, ns, s1'.notedelay);
    s1 := Progress(c, s0, n);
  }

  /** The request for the next step goes to the end. */
  lemma StepAsks(c: Config, q0: seq<Entry>, q1: seq<Entry>, T: int, n: nat, ns: seq<Struck>, notedelay: int)
    requires |q0| == 1 && q0[0].delay == 0 && q1 == q0 + Ends(c, T - 1, ns) && T >= 0 && (ns != [] ==> T >= 1)
    ensures Insert(q1, Entry(T, REQUEST, n, 0), notedelay) == q0 + Queue(c, 0, Acc(n, T, ns))
  {
    assert Sum(q0) == 0 by { assert q0[1..] == []; }
    EndsSum(c, T - 1, ns);
    SumJoin(q0, Ends(c, T - 1, ns));
    InsertLast(q1, Entry(T, REQUEST, n, 0), notedelay);
    var ask := Entry(if ns == [] then T else 1, REQUEST, n, 0);
    AssocQ2(q0, Ends(c, T - 1, ns), [ask]);
    assert ns == [] ==> Ends(c, T - 1, ns) + [ask] == [ask];
  }

  lemma AssocQ2(a: seq<Entry>, b: seq<Entry>, d: seq<Entry>)
    ensures a + b + d == a + (b + d)
  {
  }

  lemma PopThenTime(c: Config, s: Clock, t: int, s2: Clock)
    requires c.Valid() && s.q != [] && s.q[0].delay < t && Pop(c, s, false) == Done(s2)
    ensures Timestep(c, s, t, false) == Timestep(c, s2, t - s.q[0].delay, false)
  {
    var r := Pop(c, s, false);
    assert r.Done? && r.s == s2;
    assert Timestep(c, s, t, false) == Timestep(c, r.s, t - s.q[0].delay, false);
  }

  /** The request for step n leaves the queue, its step played. */
  lemma StepPops(c: Config, s: Clock, n: nat, at: int) returns (s2: Clock)
    requires Roomy(c) && n < |Pat(c).steps| && StepSafe(c, n) && s.q == [Entry(at - Now(s), REQUEST, n, 0)]
    requires Bend(s, c.channel) == 8192 && Ptr(c, s) == n
    ensures Pop(c, s, false) == Done(s2) && Now(s2) == at && Ptr(c, s2) == n + 1
    ensures s2.q == Queue(c, at, Acc(n + 1, at + TicksOf(c, n), SoundsOf(c, n)))
    ensures Moves(s, s2, Ons(c, at, SoundsOf(c, n))) && s2.bends == s.bends && s2.totalDelay == s.totalDelay
  {
    var s0 := ToHead(s);
    assert s0.q == [Entry(0, REQUEST, n, 0)];
    var s1 := StepQueue(c, s0, n);
    assert s1.q[0].delay == 0;
    s2 := s1.(q := s1.q[1..]);
    assert s1.q[1..] == Queue(c, at, Acc(n + 1, at + TicksOf(c, n), SoundsOf(c, n)));
    MovesLikewise(s, s0, s1, s2, Ons(c, at, SoundsOf(c, n)));
  }

  /** The request for a step plays it and queues the request for the next one. */
  lemma StepHappens(c: Config, s: Clock, a: Acc) returns (s2: Clock)
    requires Roomy(c) && StepSafeNext(c, a) && At(c, s, a)
    requires a.Acc? && a.ending == [] && a.n < |Pat(c).steps|
    ensures Leaves(c, s, a, s2)
  {
    s2 := StepPops(c, s, a.n, a.at);
  }

  /** Only the queues differ. */
  lemma MovesLikewise(s: Clock, s0: Clock, s1: Clock, s2: Clock, out: seq<Stamped>)
    requires s0.log == s.log && s0.tracklen == s.tracklen && s2.log == s1.log && s2.tracklen == s1.tracklen
    requires Moves(s0, s1, out)
    ensures Moves(s, s2, out)
  {
  }

  lemma {:induction false} SumJoin(a: seq<Entry>, b: seq<Entry>)
    ensures Sum(a + b) == Sum(a) + Sum(b)
    decreases |a|
  {
    if a == [] {
      assert a + b == b;
    } else {
      assert (a + b)[1..] == a[1..] + b;
      SumJoin(a[1..], b);
    }
  }

  lemma {:induction false} EndsSum(c: Config, d: int, ns: seq<Struck>)
    ensures Sum(Ends(c, d, ns)) == if ns == [] then 0 else d
    ensures d >= 0 ==> NonNegative(Ends(c, d, ns))
    decreases |ns|
  {
    if ns != [] {
      EndsCons(c, d, ns);
      EndsSum(c, 0, ns[1..]);
    }
  }

  /** The request behind the last step does nothing. */
  lemma OverHappens(c: Config, s: Clock, a: Acc) returns (s2: Clock)
    requires Roomy(c) && At(c, s, a) && a.Acc? && a.ending == [] && a.n == |Pat(c).steps|
    ensures Leaves(c, s, a, s2)
  {
    s2 := ToHead(s).(q := []);
    assert ToHead(s).q[1..] == [];
    MovesNot(s, s2);
  }

  lemma SomethingHappens(c: Config, s: Clock, a: Acc, t: int, until: int) returns (s2: Clock)
    requires Roomy(c) && StepSafeNext(c, a) && At(c, s, a) && a.Acc? && Due(a) < until == Now(s) + t
    ensures Happened(c, s, a, t, until, s2) && At(c, s2, Next(c, a).1)
  {
    if a.ending != [] {
      s2 := EndHappens(c, s, a);
    } else if a.n < |Pat(c).steps| {
      s2 := StepHappens(c, s, a);
    } else {
      s2 := OverHappens(c, s, a);
    }
    ThenTime(c, s, a, t, until, s2);
  }

  lemma ThenTime(c: Config, s: Clock, a: Acc, t: int, until: int, s2: Clock)
    requires c.Valid() && a.Acc? && Due(a) < until == Now(s) + t && Leaves(c, s, a, s2)
    ensures Happened(c, s, a, t, until, s2)
  {
    PopThenTime(c, s, t, s2);
  }

  /** The next thing has happened, and the rest of the time is still to pass. */
  ghost predicate Happened(c: Config, s: Clock, a: Acc, t: int, until: int, s2: Clock)
    requires c.Valid() && a.Acc?
  {
    && Timestep(c, s, t, false) == Timestep(c, s2, until - Due(a), false)
    && Moves(s, s2, Next(c, a).0) && Now(s2) == Due(a)
  }

  /** s becomes r within t ticks, a becomes a', and what is in out happens. */
  ghost predicate Performed(c: Config, s: Clock, r: Outcome, t: int, out: seq<Stamped>, a': Acc) {
    r.Done? && At(c, r.s, a') && Moves(s, r.s, out) && Now(r.s) == Now(s) + t
  }

  /** timestep does exactly what the pattern has before the time given. */
  ghost predicate PerformedUntil(c: Config, s: Clock, r: Outcome, a: Acc, t: int, until: int)
    requires c.Valid()
  {
    var (out, a') := Perform(c, a, until);
    Performed(c, s, r, t, out, a')
  }

  /** timestep plays exactly what the pattern has before the time it reaches, each step once and at its time,
      and leaves the accompaniment where that ends. */
  lemma {:induction false} TimestepPerforms(c: Config, s: Clock, a: Acc, t: int, until: int)
    requires Ready(c) && At(c, s, a) && until == Now(s) + t
    ensures PerformedUntil(c, s, Timestep(c, s, t, false), a, t, until)
    decreases Left(c, a), if a.Acc? then |a.ending| else 0
  {
    if a.Over? || Due(a) >= until {
      NothingHappens(c, s, a, t);
    } else {
      var s2 := SomethingHappens(c, s, a, t, until);
      var a1, left := Next(c, a).1, until - Due(a);
      TimestepPerforms(c, s2, a1, left, until);
      var r := Timestep(c, s2, left, false);
      assert PerformedUntil(c, s2, r, a1, left, until);
      ThenMore(c, s, r, a, t, s2, left, until);
    }
  }

  lemma NothingHappens(c: Config, s: Clock, a: Acc, t: int)
    requires Roomy(c) && At(c, s, a) && (a.Over? || Due(a) >= Now(s) + t)
    ensures Performed(c, s, Timestep(c, s, t, false), t, [], a)
  {
    var r := Idle(s, t);
    MovesNot(s, r);
    assert Timestep(c, s, t, false) == Done(r);
    IdleAt(c, s, a, t);
  }

  lemma ThenMore(c: Config, s: Clock, r: Outcome, a: Acc, t: int, s2: Clock, left: int, until: int)
    requires c.Valid() && a.Acc? && Due(a) < until == Now(s) + t
    requires Moves(s, s2, Next(c, a).0) && Now(s2) == Due(a)
    requires left == until - Due(a) && PerformedUntil(c, s2, r, Next(c, a).1, left, until)
    ensures PerformedUntil(c, s, r, a, t, until)
  {
    MovesJoin(c, s, s2, r.s, Next(c, a).0, Perform(c, Next(c, a).1, until).0);
  }

  lemma IdleAt(c: Config, s: Clock, a: Acc, t: int)
    requires Roomy(c) && At(c, s, a)
    ensures At(c, Idle(s, t), a) && Now(Idle(s, t)) == Now(s) + t
  {
    var r := Idle(s, t);
    assert Now(r) == Now(s) + t;
    QueueLater(c, Now(s), t, a);
    assert r.q == Queue(c, Now(r), a);
    assert Sounding(c, a) && (a.Acc? ==> Ptr(c, r) == a.n);
  }

  lemma QueueLater(c: Config, now: int, t: int, a: Acc)
    ensures var q := Queue(c, now, a);
            Queue(c, now + t, a) == if q == [] then [] else [q[0].(delay := q[0].delay - t)] + q[1..]
  {
    if a.Acc? && a.ending != [] {
      EndsTail(c, now, a);
      EndsTail(c, now + t, a);
      var q := Queue(c, now + t, a);
      assert q == [q[0]] + q[1..];
    }
  }

  // ---------- What a run amounts to ----------

  /** Stopping on the way makes no difference: bars, notes and rests of the tune may come as they like. */
  lemma {:induction false} PerformJoin(c: Config, a: Acc, t: int, until: int)
    requires c.Valid() && t <= until
    ensures var (out1, a1) := Perform(c, a, t);
            var (out2, a2) := Perform(c, a1, until);
            Perform(c, a, until) == (out1 + out2, a2)
    decreases Left(c, a), if a.Acc? then |a.ending| else 0
  {
    if a.Over? || Due(a) >= t {
      assert [] + Perform(c, a, until).0 == Perform(c, a, until).0;
    } else {
      var a1 := Next(c, a).1;
      PerformJoin(c, a1, t, until);
      var (x, a2) := Perform(c, a1, t);
      AssocStamped(Next(c, a).0, x, Perform(c, a2, until).0);
    }
  }

  /** When step m begins, if step n does at the given time. */
  function StartOf(c: Config, n: nat, at: int, m: nat): (t: int)
    requires c.Valid() && n <= m <= |Pat(c).steps|
    decreases m - n
  {
    if n == m then at else StartOf(c, n + 1, at + TicksOf(c, n), m)
  }

  /** Steps n to m - 1, each begun at its time and ended one tick before the next. */
  function Whole(c: Config, n: nat, at: int, m: nat): (r: seq<Stamped>)
    requires c.Valid() && n <= m <= |Pat(c).steps|
    decreases m - n
  {
    if n == m then []
    else
      var next := at + TicksOf(c, n);
      Ons(c, at, SoundsOf(c, n)) + Offs(c, next - 1, SoundsOf(c, n)) + Whole(c, n + 1, next, m)
  }

  lemma {:induction false} PerformEnds(c: Config, a: Acc, until: int)
    requires c.Valid() && a.Acc? && a.at - 1 < until
    ensures var (out, r) := Perform(c, a.(ending := []), until);
            Perform(c, a, until) == (Offs(c, a.at - 1, a.ending) + out, r)
    decreases |a.ending|
  {
    var (out, r) := Perform(c, a.(ending := []), until);
    if a.ending == [] {
      assert a.(ending := []) == a;
      assert Offs(c, a.at - 1, a.ending) + out == out;
    } else {
      PerformEnds(c, a.(ending := a.ending[1..]), until);
      assert Offs(c, a.at - 1, a.ending) == Offs(c, a.at - 1, a.ending[..1]) + Offs(c, a.at - 1, a.ending[1..]);
      assert Offs(c, a.at - 1, a.ending[..1]) + (Offs(c, a.at - 1, a.ending[1..]) + out)
          == Offs(c, a.at - 1, a.ending) + out;
    }
  }

  lemma {:induction false} StartsLater(c: Config, n: nat, at: int, m: nat)
    requires c.Valid() && n <= m <= |Pat(c).steps|
    ensures StartOf(c, n, at, m) >= at
    ensures n < m && TicksOf(c, m - 1) >= 1 ==> StartOf(c, n, at, m) > at
    decreases m - n
  {
    if n < m {
      TicksNonNegative(c, Pat(c), n);
      StartsLater(c, n + 1, at + TicksOf(c, n), m);
    }
  }

  /** By the time step m begins, exactly the steps before it have been played, once each and in order. */
  lemma {:induction false} PlaysEachStepOnce(c: Config, n: nat, at: int, m: nat)
    requires c.Valid() && n <= m <= |Pat(c).steps| && (n < m ==> TicksOf(c, m - 1) >= 1)
    ensures var start := StartOf(c, n, at, m);
            Perform(c, Acc(n, at, []), start) == (Whole(c, n, at, m), Acc(m, start, []))
    decreases m - n
  {
    if n < m {
      var start, next := StartOf(c, n, at, m), at + TicksOf(c, n);
      StartsLater(c, n, at, m);
      StartsLater(c, n + 1, next, m);
      PlaysEachStepOnce(c, n + 1, next, m);
      PerformEnds(c, Acc(n + 1, next, SoundsOf(c, n)), start);
      AssocStamped(Ons(c, at, SoundsOf(c, n)), Offs(c, next - 1, SoundsOf(c, n)), Whole(c, n + 1, next, m));
    }
  }

  /** The exact length of steps n to m - 1 in ticks. */
  ghost function ExactTicks(c: Config, n: nat, m: nat): (t: real)
    requires c.Valid() && n <= m <= |Pat(c).steps|
    decreases m - n
  {
    if n == m then 0.0
    else (c.divFactor * (Pat(c).num * Pat(c).len[n])) as real / Pat(c).denom as real + ExactTicks(c, n + 1, m)
  }

  lemma FloorVal(x: int, b: int)
    requires x >= 0 && b > 0
    ensures CDiv(x, b) as real <= x as real / b as real < CDiv(x, b) as real + 1.0
  {
    CDivMod(x, b);
    SplitVal(x, b, CDiv(x, b), CMod(x, b));
    UnitVal(Frac(CMod(x, b), b));
  }

  /** No step begins after its exact time, and the m-th is early by fewer ticks than there were steps. */
  lemma {:induction false} BehindByLessThanSteps(c: Config, n: nat, at: int, m: nat)
    requires c.Valid() && n <= m <= |Pat(c).steps|
    ensures var exact := at as real + ExactTicks(c, n, m);
            && StartOf(c, n, at, m) as real <= exact
            && (n < m ==> exact < (StartOf(c, n, at, m) + (m - n)) as real)
            && (n == m ==> exact == StartOf(c, n, at, m) as real)
    decreases m - n
  {
    if n < m {
      TicksNonNegative(c, Pat(c), n);
      assert Pat(c).num * Pat(c).len[n] >= 0;
      var x := c.divFactor * (Pat(c).num * Pat(c).len[n]);
      assert x >= 0;
      FloorVal(x, Pat(c).denom);
      BehindByLessThanSteps(c, n + 1, at + TicksOf(c, n), m);
    }
  }

  /** The pattern is to begin again. */
  function Reset(c: Config, s: Clock): (r: Clock) {
    if c.gchordson then s.(gptr := 0) else s.(dptr := 0)
  }

  /** What a bar line does that is due to begin the pattern again: each one, or every so many. */
  function BarLine(c: Config, s: Clock): (r: Clock)
    requires c.Valid()
  {
    AddToQ(c, Reset(c, s), 0, Pat(c).denom, REQUEST, 0, 0, 0)
  }

  /** The pattern is over, or its last request is due now. */
  predicate Finished(c: Config, s: Clock, a: Acc) {
    a == Over || (a == Acc(|Pat(c).steps|, Now(s), []) && a.n > 0)
  }

  /** A bar line begins the pattern anew: with the last one over, or its last request just due, the track
      goes on as if only the first step were asked for now. */
  lemma BarBeginsPattern(c: Config, s: Clock, a: Acc, t: int) returns (s2: Clock)
    requires Ready(c) && At(c, s, a) && Finished(c, s, a) && t > 0
    ensures At(c, s2, Acc(0, Now(s), [])) && s2.log == s.log && s2.tracklen == s.tracklen && Now(s2) == Now(s)
    ensures Timestep(c, BarLine(c, s), t, false) == Timestep(c, s2, t, false)
  {
    var s1 := BarLine(c, s);
    var first := Entry(0, REQUEST, 0, 0);
    assert s1.q == s.q + [first] by {
      InsertLast(s.q, first, s.notedelay);
      assert s.q != [] ==> s.q[1..] == [];
    }
    s2 := s1.(q := [first]);
    if a.Acc? {
      assert ToHead(s1) == s1;
      assert s1.q[1..] == [first];
    } else {
      assert s1.q == [first];
    }
  }

  // ---------- Full bars ----------

  predicate FitsBar(c: Config, t: int)
    requires c.Valid()
  {
    var n := |Pat(c).steps|;
    n > 0 && TicksOf(c, n - 1) >= 1 && StartOf(c, 0, 0, n) <= t
  }

  lemma {:induction false} StartShifts(c: Config, n: nat, at: int, more: int, m: nat)
    requires c.Valid() && n <= m <= |Pat(c).steps|
    ensures StartOf(c, n, at + more, m) == StartOf(c, n, at, m) + more
    decreases m - n
  {
    if n < m {
      StartShifts(c, n + 1, at + TicksOf(c, n), more, m);
    }
  }

  /** In a bar that is long enough the pattern is played once, and is finished at the next bar line. */
  lemma BarPerformed(c: Config, at: int, t: int) returns (a': Acc)
    requires c.Valid() && FitsBar(c, t)
    ensures Perform(c, Acc(0, at, []), at + t) == (Whole(c, 0, at, |Pat(c).steps|), a')
    ensures a' == Over || a' == Acc(|Pat(c).steps|, at + t, [])
  {
    var n := |Pat(c).steps|;
    StartShifts(c, 0, 0, at, n);
    var end := StartOf(c, 0, at, n);
    PlaysEachStepOnce(c, 0, at, n);
    PerformJoin(c, Acc(0, at, []), end, at + t);
    var whole := Whole(c, 0, at, n);
    var last := Acc(n, end, []);
    var (out, a2) := Perform(c, last, at + t);
    a' := a2;
    assert out == [] && (a' == Over || (a' == last && end == at + t)) by {
      if end < at + t {
        assert Next(c, last) == ([], Over);
      }
    }
    assert whole + [] == whole;
  }

  /** The bar has been played. */
  ghost predicate BarPlayed(c: Config, s: Clock, r: Outcome, t: int, a': Acc)
    requires c.Valid()
  {
    Performed(c, s, r, t, Whole(c, 0, Now(s), |Pat(c).steps|), a') && Finished(c, r.s, a')
  }

  lemma BarFromRequest(c: Config, s: Clock, s2: Clock, r: Outcome, t: int, a': Acc)
    requires c.Valid() && s2.log == s.log && s2.tracklen == s.tracklen && Now(s2) == Now(s)
    requires BarPlayed(c, s2, r, t, a')
    ensures BarPlayed(c, s, r, t, a')
  {
  }

  lemma BarEnds(c: Config, s: Clock, r: Outcome, t: int, a': Acc)
    requires c.Valid() && Performed(c, s, r, t, Whole(c, 0, Now(s), |Pat(c).steps|), a') && |Pat(c).steps| > 0
    requires a' == Over || a' == Acc(|Pat(c).steps|, Now(s) + t, [])
    ensures BarPlayed(c, s, r, t, a')
  {
  }

  lemma BarFromPerform(c: Config, s: Clock, r: Outcome, t: int) returns (a': Acc)
    requires c.Valid() && PerformedUntil(c, s, r, Acc(0, Now(s), []), t, Now(s) + t) && FitsBar(c, t)
    ensures BarPlayed(c, s, r, t, a')
  {
    a' := BarPerformed(c, Now(s), t);
    BarEnds(c, s, r, t, a');
  }

  lemma BarFromStart(c: Config, s: Clock, t: int) returns (r: Outcome, a': Acc)
    requires Ready(c) && At(c, s, Acc(0, Now(s), [])) && FitsBar(c, t)
    ensures r == Timestep(c, s, t, false) && BarPlayed(c, s, r, t, a')
  {
    var until, first := Now(s) + t, Acc(0, Now(s), []);
    TimestepPerforms(c, s, first, t, until);
    r := Timestep(c, s, t, false);
    assert PerformedUntil(c, s, r, first, t, until);
    a' := BarFromPerform(c, s, r, t);
  }

  lemma FullBar(c: Config, s: Clock, a: Acc, t: int) returns (r: Outcome, a': Acc)
    requires Ready(c) && At(c, s, a) && Finished(c, s, a) && FitsBar(c, t)
    ensures r == Timestep(c, BarLine(c, s), t, false) && BarPlayed(c, s, r, t, a')
  {
    StartsLater(c, 0, 0, |Pat(c).steps|);
    var s2 := BarBeginsPattern(c, s, a, t);
    r, a' := BarFromStart(c, s2, t);
    BarFromRequest(c, s, s2, r, t, a');
  }

  /** The ticks of a bar of the given exact length that begins at the exact time x. */
  ghost function BarTicks(x: real, bar: real): (t: int) {
    (x + bar).Floor - x.Floor
  }

  /** A pattern no longer than the bar, exactly measured, is never late for the next bar line. */
  lemma BarLongEnough(c: Config, x: real, bar: real)
    requires c.Valid() && |Pat(c).steps| > 0 && ExactTicks(c, 0, |Pat(c).steps|) <= bar
    ensures StartOf(c, 0, 0, |Pat(c).steps|) <= BarTicks(x, bar)
  {
    var n := |Pat(c).steps|;
    BehindByLessThanSteps(c, 0, 0, n);
    FloorApart(x, bar, StartOf(c, 0, 0, n));
  }

  lemma FloorApart(x: real, bar: real, n: int)
    requires n as real <= bar
    ensures n <= (x + bar).Floor - x.Floor
  {
    assert (x.Floor + n) as real <= x + bar;
  }

  /** A stand-in for what happens from one bar line to the next. */
  type BarStep = (Clock, int) -> Outcome

  predicate Asked(s: Clock, t: int) {
    true
  }

  ghost predicate StepsBars(c: Config, step: BarStep) {
    && c.Valid()
    && forall s, t {:trigger Asked(s, t)} :: Asked(s, t) ==> step(s, t) == Timestep(c, BarLine(c, s), t, false)
  }

  /** n bars, the first of them beginning at the exact time x. */
  ghost function PlayBars(step: BarStep, s: Clock, x: real, bar: real, n: nat): (r: Outcome)
    decreases n
  {
    if n == 0 then Done(s)
    else
      match step(s, BarTicks(x, bar))
      case Fatal => Fatal
      case Done(s1) => PlayBars(step, s1, x + bar, bar, n - 1)
  }

  ghost function OncePerBar(c: Config, at: int, x: real, bar: real, n: nat): (r: seq<Stamped>)
    requires c.Valid()
    decreases n
  {
    if n == 0 then []
    else Whole(c, 0, at, |Pat(c).steps|) + OncePerBar(c, at + BarTicks(x, bar), x + bar, bar, n - 1)
  }

  ghost predicate BarsPlayed(c: Config, s: Clock, r: Outcome, x: real, bar: real, n: nat, a': Acc)
    requires c.Valid()
  {
    r.Done? && At(c, r.s, a') && Finished(c, r.s, a') && Moves(s, r.s, OncePerBar(c, Now(s), x, bar, n))
  }

  lemma BarThenBars(c: Config, s: Clock, r1: Outcome, r: Outcome, x: real, bar: real, n: nat, a1: Acc, a': Acc)
    requires c.Valid() && n > 0 && BarPlayed(c, s, r1, BarTicks(x, bar), a1)
    requires BarsPlayed(c, r1.s, r, x + bar, bar, n - 1, a')
    ensures BarsPlayed(c, s, r, x, bar, n, a')
  {
    MovesJoin(c, s, r1.s, r.s, Whole(c, 0, Now(s), |Pat(c).steps|), OncePerBar(c, Now(r1.s), x + bar, bar, n - 1));
  }

  /** Over any number of full bars, or of the stretches of bars a pattern lasts, each step is played once in
      each, from the bar line on. */
  lemma {:induction false} FullBars(c: Config, step: BarStep, s: Clock, a: Acc, x: real, bar: real, n: nat)
      returns (a': Acc)
    requires Ready(c) && StepsBars(c, step) && At(c, s, a) && Finished(c, s, a)
    requires var m := |Pat(c).steps|; m > 0 && TicksOf(c, m - 1) >= 1 && ExactTicks(c, 0, m) <= bar
    ensures BarsPlayed(c, s, PlayBars(step, s, x, bar, n), x, bar, n, a')
    decreases n
  {
    if n == 0 {
      a' := a;
      MovesNot(s, s);
    } else {
      BarLongEnough(c, x, bar);
      assert Asked(s, BarTicks(x, bar));
      var r1, a1 := FullBar(c, s, a, BarTicks(x, bar));
      a' := FullBars(c, step, r1.s, a1, x + bar, bar, n - 1);
      BarThenBars(c, s, r1, PlayBars(step, r1.s, x + bar, bar, n - 1), x, bar, n, a1, a');
    }
  }

  // ---------- Runs that end the program ----------

  /** A step too short to be played begins before the time given. */
  ghost predicate ShortBefore(c: Config, a: Acc, until: int)
    requires c.Valid()
  {
    && a.Acc? && a.n <= |Pat(c).steps|
    && exists n: nat :: a.n <= n < |Pat(c).steps| && StartOf(c, a.n, a.at, n) < until && !StepSafe(c, n)
  }

  lemma UnsafeFatal(c: Config, s: Clock, a: Acc, t: int)
    requires Roomy(c) && At(c, s, a) && a.Acc? && a.ending == [] && a.n < |Pat(c).steps| && a.at < Now(s) + t
    requires !StepSafe(c, a.n)
    ensures Timestep(c, s, t, false) == Fatal
  {
    assert ToHead(s).q == [Entry(0, REQUEST, a.n, 0)];
    RequestFatalIff(c, s, t);
  }

  lemma ShortFrom(c: Config, a: Acc, until: int)
    requires c.Valid() && a.Acc? && a.ending == [] && a.n < |Pat(c).steps| && a.at < until
    ensures ShortBefore(c, a, until) <==> !StepSafe(c, a.n) || ShortBefore(c, Next(c, a).1, until)
  {
    var a1 := Next(c, a).1;
    if !StepSafe(c, a.n) {
      assert StartOf(c, a.n, a.at, a.n) < until;
    }
    if n: nat :| a.n <= n < |Pat(c).steps| && StartOf(c, a.n, a.at, n) < until && !StepSafe(c, n) && n > a.n {
      assert StartOf(c, a1.n, a1.at, n) < until;
    }
    if n: nat :| a1.n <= n < |Pat(c).steps| && StartOf(c, a1.n, a1.at, n) < until && !StepSafe(c, n) {
      assert StartOf(c, a.n, a.at, n) < until;
    }
  }

  lemma NoneBefore(c: Config, a: Acc, until: int)
    requires c.Valid() && (a.Acc? ==> a.n <= |Pat(c).steps| && a.at >= until)
    ensures !ShortBefore(c, a, until)
  {
    if a.Acc? {
      forall n: nat | a.n <= n < |Pat(c).steps|
        ensures StartOf(c, a.n, a.at, n) >= until
      {
        StartsLater(c, a.n, a.at, n);
      }
    }
  }

  ghost predicate FatalIffShort(c: Config, s: Clock, a: Acc, t: int, until: int)
    requires c.Valid()
  {
    Timestep(c, s, t, false) == Fatal <==> ShortBefore(c, a, until)
  }

  lemma FatalLater(c: Config, s: Clock, a: Acc, t: int, s2: Clock, until: int)
    requires c.Valid() && a.Acc? && Happened(c, s, a, t, until, s2)
    requires ShortBefore(c, a, until) <==> ShortBefore(c, Next(c, a).1, until)
    requires FatalIffShort(c, s2, Next(c, a).1, until - Due(a), until)
    ensures FatalIffShort(c, s, a, t, until)
  {
  }

  /** Over a whole run: letting time pass ends the program exactly when a step too short to be played begins
      before the time reached. */
  lemma {:induction false} RunFatalIff(c: Config, s: Clock, a: Acc, t: int, until: int)
    requires Roomy(c) && At(c, s, a) && until == Now(s) + t
    ensures FatalIffShort(c, s, a, t, until)
    decreases Left(c, a), if a.Acc? then |a.ending| else 0
  {
    if a.Over? || Due(a) >= until {
      NothingHappens(c, s, a, t);
      NoneBefore(c, a, until);
    } else if StepSafeNext(c, a) {
      var s2 := SomethingHappens(c, s, a, t, until);
      RunFatalIff(c, s2, Next(c, a).1, until - Due(a), until);
      SafeNext(c, a, until);
      FatalLater(c, s, a, t, s2, until);
    } else {
      UnsafeFatal(c, s, a, t);
      ShortFrom(c, a, until);
    }
  }

  lemma SafeNext(c: Config, a: Acc, until: int)
    requires c.Valid() && a.Acc? && Due(a) < until && StepSafeNext(c, a) && a.n <= |Pat(c).steps|
    ensures ShortBefore(c, a, until) <==> ShortBefore(c, Next(c, a).1, until)
  {
    if a.ending == [] && a.n < |Pat(c).steps| {
      ShortFrom(c, a, until);
    }
  }
}
