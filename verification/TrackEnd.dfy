/** clearQ: the end of a track silences every note that is still sounding. */
module TrackEnd {
  import opened Fractions
  import opened NoteQueue
  import opened Clock
  import opened ClockLaws

  /** At the end of a track requests are ignored, so the queue only ever shrinks. */
  lemma {:induction false} EndOnlyShrinks(c: Config, s: Clock, t: int)
    requires c.Valid()
    ensures var r := Timestep(c, s, t, true);
            r.Done? && |r.s.q| <= |s.q| && (s.q != [] && s.q[0].delay < t ==> |r.s.q| < |s.q|)
    decreases |s.q|
  {
    if s.q != [] && s.q[0].delay < t {
      var s1 := Pop(c, s, true).s;
      assert |s1.q| == |s.q| - 1;
      EndOnlyShrinks(c, s1, t - s.q[0].delay);
    }
  }

  /** Leading requests, dropped together with the time they would have taken. */
  function LeadingRequests(q: seq<Entry>): (n: nat)
    ensures n <= |q|
  {
    if q == [] || q[0].pitch != REQUEST then 0 else 1 + LeadingRequests(q[1..])
  }

  function SumDelays(q: seq<Entry>): (t: int)
    decreases |q|
  {
    if q == [] then 0 else q[0].delay + SumDelays(q[1..])
  }

  lemma {:induction false} SumDelaysGrow(q: seq<Entry>, k: nat)
    requires k < |q|
    ensures SumDelays(q[..k + 1]) == SumDelays(q[..k]) + q[k].delay
    decreases k
  {
    if k > 0 {
      SumDelaysGrow(q[1..], k - 1);
      assert q[..k + 1][1..] == q[1..][..k] && q[..k][1..] == q[1..][..k - 1];
    } else {
      assert q[..1][1..] == [];
    }
  }

  function DropRequests(c: Config, s: Clock): (r: Clock)
    requires c.Valid()
    ensures |r.q| <= |s.q|
  {
    var n := LeadingRequests(s.q);
    if n == |s.q| then s.(q := [])
    else
      EndOnlyShrinks(c, s.(q := s.q[n..]), SumDelays(s.q[..n]));
      Timestep(c, s.(q := s.q[n..]), SumDelays(s.q[..n]), true).s
  }

  /** Runs the clock to the end of one entry after the other, reporting each as sustained too long. */
  function Exhaust(c: Config, s: Clock): (r: Clock)
    requires c.Valid()
    ensures r.q == []
    decreases |s.q|
  {
    if s.q == [] then s else Exhaust(c, RunOut(c, s))
  }

  function RunOut(c: Config, s: Clock): (r: Clock)
    requires c.Valid() && s.q != []
    ensures |r.q| < |s.q|
  {
    EndOnlyShrinks(c, s.(errors := s.errors + 1), s.q[0].delay + 1);
    Timestep(c, s.(errors := s.errors + 1), s.q[0].delay + 1, true).s
  }

  /** clearQ, with the 25 ticks it appends so that the last note can fade. */
  function ClearQ(c: Config, s: Clock): (r: Clock)
    requires c.Valid()
    ensures r.q == []
  {
    Idle(Exhaust(c, DropRequests(c, s)), 25)
  }

  // ---------- Every sounding note is ended exactly once ----------

  /** The notes ended by a stretch of the stream. */
  function Released(log: seq<Event>): (r: seq<(int, int)>)
    decreases |log|
  {
    if log == [] then []
    else (if log[0].NoteOff? then [(log[0].pitch, log[0].chan)] else []) + Released(log[1..])
  }

  /** The notes waiting in the queue. */
  function Pending(c: Config, q: seq<Entry>): (r: seq<(int, int)>)
    decreases |q|
  {
    if q == [] then []
    else (if q[0].pitch == REQUEST then [] else [(c.Written(q[0].pitch, q[0].chan), q[0].chan)]) + Pending(c, q[1..])
  }

  lemma {:induction false} ReleasedJoin(a: seq<Event>, b: seq<Event>)
    ensures Released(a + b) == Released(a) + Released(b)
    decreases |a|
  {
    if a == [] {
      assert a + b == b;
    } else {
      assert (a + b)[1..] == a[1..] + b;
      ReleasedJoin(a[1..], b);
    }
  }

  lemma {:induction false} PendingJoin(c: Config, a: seq<Entry>, b: seq<Entry>)
    ensures Pending(c, a + b) == Pending(c, a) + Pending(c, b)
    decreases |a|
  {
    if a == [] {
      assert a + b == b;
    } else {
      assert (a + b)[1..] == a[1..] + b;
      PendingJoin(c, a[1..], b);
    }
  }

  function Offs(t: seq<Stamped>): (r: seq<(int, int)>)
    decreases |t|
  {
    if t == [] then []
    else (if t[0].Off? then [(t[0].pitch, t[0].chan)] else []) + Offs(t[1..])
  }

  lemma {:induction false} OffsOfTimeline(base: int, log: seq<Event>)
    ensures Offs(Timeline(base, log)) == Released(log)
    decreases |log|
  {
    if log != [] {
      OffsOfTimeline(base + log[0].delta, log[1..]);
      assert Timeline(base, log)[1..] == Timeline(base + log[0].delta, log[1..]);
    }
  }

  lemma {:induction false} OffsOfEnded(c: Config, now: int, q: seq<Entry>, n: nat)
    requires n <= |q|
    ensures Offs(Ended(c, now, q, n)) == Pending(c, q[..n])
    decreases |q|
  {
    if n > 0 {
      var rest := Ended(c, now + q[0].delay, q[1..], n - 1);
      EndedFirst(c, now, q, n);
      OffsOfEnded(c, now + q[0].delay, q[1..], n - 1);
      OffsOfEnding(c, now + q[0].delay, q[0], rest);
      assert q[..n][1..] == q[1..][..n - 1];
    }
  }

  lemma EndedFirst(c: Config, now: int, q: seq<Entry>, n: nat)
    requires 0 < n <= |q|
    ensures Ended(c, now, q, n) == Ending(c, now + q[0].delay, q[0]) + Ended(c, now + q[0].delay, q[1..], n - 1)
  {
    EndedTail(c, now, q, n);
    assert Ended(c, now, q, 0) == [];
    assert Ended(c, now, q, 1) == Ending(c, now + q[0].delay, q[0]);
  }

  lemma OffsOfEnding(c: Config, at: int, e: Entry, rest: seq<Stamped>)
    ensures Offs(Ending(c, at, e) + rest)
         == (if e.pitch == REQUEST then [] else [(c.Written(e.pitch, e.chan), e.chan)]) + Offs(rest)
  {
    if e.pitch == REQUEST {
      assert [] + rest == rest;
    } else {
      assert (Ending(c, at, e) + rest)[1..] == rest;
    }
  }

  /** The state r has ended, once each and in order, some of the notes waiting in s; the others wait on. */
  ghost predicate Silences(c: Config, s: Clock, r: Clock) {
    && s.log <= r.log
    && Ordered(r.q) && c.channel < MAXCHANS && PlainQueue(r.q)
    && Released(r.log[|s.log|..]) + Pending(c, r.q) == Pending(c, s.q)
  }

  predicate PlainQueue(q: seq<Entry>) {
    forall k :: 0 <= k < |q| ==> q[k].pitch == REQUEST || q[k].effect == 0
  }

  lemma TimestepSilences(c: Config, s: Clock, t: int)
    requires c.Valid() && Ordered(s.q) && c.channel < MAXCHANS && PlainQueue(s.q)
    ensures Timestep(c, s, t, true).Done? && Silences(c, s, Timestep(c, s, t, true).s)
  {
    TimestepEndsNotes(c, s, t, true);
    var r, n := Timestep(c, s, t, true).s, Expired(s.q, t - 1);
    OffsOfTimeline(s.tracklen, r.log[|s.log|..]);
    OffsOfEnded(c, Now(s), s.q, n);
    assert s.q[..n] + s.q[n..] == s.q;
    PendingJoin(c, s.q[..n], s.q[n..]);
    assert Pending(c, r.q) == Pending(c, s.q[n..]) by {
      if n < |s.q| {
        assert r.q[1..] == s.q[n..][1..];
      }
    }
  }

  lemma SilencesTrans(c: Config, s: Clock, r: Clock, u: Clock)
    requires Silences(c, s, r) && Silences(c, r, u)
    ensures Silences(c, s, u)
  {
    assert u.log[|s.log|..] == r.log[|s.log|..] + u.log[|r.log|..];
    ReleasedJoin(r.log[|s.log|..], u.log[|r.log|..]);
  }

  lemma {:induction false} ExhaustSilences(c: Config, s: Clock)
    requires c.Valid() && Ordered(s.q) && c.channel < MAXCHANS && PlainQueue(s.q)
    ensures Silences(c, s, Exhaust(c, s))
    decreases |s.q|
  {
    if s.q == [] {
      assert s.log[|s.log|..] == [];
    } else {
      var s1, s2 := s.(errors := s.errors + 1), RunOut(c, s);
      TimestepSilences(c, s1, s.q[0].delay + 1);
      ExhaustSilences(c, s2);
      SilencesTrans(c, s1, s2, Exhaust(c, s));
    }
  }

  lemma {:induction false} OnlyRequests(c: Config, q: seq<Entry>)
    ensures Pending(c, q[..LeadingRequests(q)]) == []
    decreases |q|
  {
    if q != [] && q[0].pitch == REQUEST {
      OnlyRequests(c, q[1..]);
      assert q[..LeadingRequests(q)][1..] == q[1..][..LeadingRequests(q[1..])];
    }
  }

  /** clearQ leaves the queue empty and has ended every pending note exactly once, in queue order. */
  lemma ClearQEndsAll(c: Config, s: Clock)
    requires c.Valid() && Ordered(s.q) && c.channel < MAXCHANS && PlainQueue(s.q)
    ensures var r := ClearQ(c, s);
            r.q == [] && s.log <= r.log && Released(r.log[|s.log|..]) == Pending(c, s.q)
  {
    var n := LeadingRequests(s.q);
    OnlyRequests(c, s.q);
    assert s.q == s.q[..n] + s.q[n..];
    PendingJoin(c, s.q[..n], s.q[n..]);
    var s1, s2 := s.(q := s.q[n..]), DropRequests(c, s);
    DroppedSilences(c, s);
    ExhaustSilences(c, s2);
    SilencesTrans(c, s1, s2, Exhaust(c, s2));
  }

  lemma DroppedSilences(c: Config, s: Clock)
    requires c.Valid() && Ordered(s.q) && c.channel < MAXCHANS && PlainQueue(s.q)
    ensures Silences(c, s.(q := s.q[LeadingRequests(s.q)..]), DropRequests(c, s))
  {
    var n := LeadingRequests(s.q);
    if n < |s.q| {
      TimestepSilences(c, s.(q := s.q[n..]), SumDelays(s.q[..n]));
    } else {
      assert s.log[|s.log|..] == [];
    }
  }
}
