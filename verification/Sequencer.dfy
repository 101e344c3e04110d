/** The clock as the program keeps it: global variables changed in place around the note queue. */
module Sequencer {
  import opened Fractions
  import opened NoteQueue
  import opened Clock
  import opened TrackEnd

  class Track {
    const queue: Queue
    var deltaTime: int
    var deltaTimeTrack0: int
    var trackLen: int
    var totalNoteDelay: int
    var noteDelay: int
    var errNum: int
    var errDenom: int
    var gPtr: nat
    var drumPtr: nat
    var pitchbend: map<int, int>
    var log: seq<Event>
    var errors: nat

    ghost predicate Valid()
      reads this, queue, queue.Q
    {
      queue.Valid() && errDenom > 0
    }

    ghost function State(): (s: Clock)
      requires Valid()
      reads this, queue, queue.Q
    {
      Clock(queue.Contents(), deltaTime, deltaTimeTrack0, trackLen, totalNoteDelay, noteDelay,
            Frac(errNum, errDenom), gPtr, drumPtr, pitchbend, log, errors)
    }

    /** The start of a track: an empty queue and, on the clock, one tick already waiting. */
    constructor (staticNoteDelay: int)
      ensures Valid() && fresh(queue) && fresh(queue.Q)
      ensures State() == Clock([], 1, 0, 0, 0, staticNoteDelay, Frac(0, 1), 0, 0, map[], [], 0)
    {
      queue := new Queue();
      deltaTime, deltaTimeTrack0, trackLen := 1, 0, 0;
      totalNoteDelay, noteDelay := 0, staticNoteDelay;
      errNum, errDenom := 0, 1;
      gPtr, drumPtr := 0, 0;
      pitchbend, log, errors := map[], [], 0;
    }

    method AddToQueue(c: Config, num: int, denom: int, pitch: int, chan: int, effect: int, d: int)
      requires Valid() && denom != 0
      modifies this, queue, queue.Q
      ensures Valid()
      ensures State() == AddToQ(c, old(State()), num, denom, pitch, chan, effect, d)
    {
      var added := queue.AddToQ(num, denom, pitch, chan, effect, d, c.divFactor, noteDelay);
      if !added {
        errors := errors + 1;
      }
    }

    method WriteNoteOn(c: Config, pitch: int, bend: int, chan: int, vel: int)
      requires Valid()
      modifies this
      ensures Valid()
      ensures State() == NoteOnData(c, old(State()), pitch, bend, chan, vel)
    {
      var delta := deltaTime;
      if c.channel >= MAXCHANS {
        errors := errors + 1;
      } else {
        if bend < 0 || bend > 16383 {
          errors := errors + 1;
        }
        var current := if c.channel in pitchbend then pitchbend[c.channel] else 8192;
        if bend != current && chan != DRUMS {
          log := log + [Wheel(delta, chan, bend)];
          delta := 0;
          pitchbend := pitchbend[c.channel := bend];
        }
        log := log + [NoteOn(delta, c.Written(pitch, chan), chan, vel)];
      }
      trackLen := trackLen + deltaTime;
      deltaTime := 0;
    }

    method WriteNoteOff(c: Config, pitch: int, chan: int)
      requires Valid()
      modifies this
      ensures Valid()
      ensures State() == MidiNoteOff(c, old(State()), pitch, chan)
    {
      if c.channel >= MAXCHANS {
        errors := errors + 1;
      } else {
        log := log + [NoteOff(deltaTime, c.Written(pitch, chan), chan)];
      }
    }

    method PlayNote(c: Config, num: int, denom: int, pitch: int, chan: int, vel: int)
      requires Valid() && denom != 0
      modifies this, queue, queue.Q
      ensures Valid()
      ensures State() == SaveNote(c, old(State()), num, denom, pitch, chan, vel)
    {
      if chan == DRUMS {
        WriteNoteOn(c, pitch, 8192, chan, vel);
        AddToQueue(c, num, denom, pitch, chan, 0, -1);
      } else {
        WriteNoteOn(c, pitch + c.transpose + c.globalTranspose, 8192, chan, vel);
        AddToQueue(c, num, denom, pitch + c.transpose + c.globalTranspose, chan, 0, -1);
      }
    }

    method PlayNotes(c: Config, num: int, denom: int, ns: seq<Struck>)
      requires Valid() && denom != 0
      modifies this, queue, queue.Q
      ensures Valid()
      ensures State() == SaveNotes(c, old(State()), num, denom, ns)
    {
      var j := 0;
      assert ns[0..] == ns;
      while j < |ns|
        invariant 0 <= j <= |ns| && Valid()
        invariant SaveNotes(c, State(), num, denom, ns[j..]) == SaveNotes(c, old(State()), num, denom, ns)
      {
        assert ns[j..][1..] == ns[j + 1..];
        PlayNote(c, num, denom, ns[j].pitch, ns[j].chan, ns[j].vel);
        j := j + 1;
      }
    }

    method PlayGchords(c: Config, i: int)
      requires Valid() && c.Valid()
      modifies this, queue, queue.Q
      ensures Valid()
      ensures State() == DoGchords(c, old(State()), i)
    {
      if i == gPtr && gPtr < |c.gchord.steps| {
        var len := c.gchord.len[gPtr];
        PlayNotes(c, c.gchord.num * len, c.gchord.denom, StepSounds(c, c.gchord.steps[gPtr]));
        gPtr := gPtr + 1;
        AddToQueue(c, c.gchord.num * len, c.gchord.denom, REQUEST, gPtr, 0, 0);
      }
    }

    method PlayDrums(c: Config, i: int)
      requires Valid() && c.Valid()
      modifies this, queue, queue.Q
      ensures Valid()
      ensures State() == DoDrums(c, old(State()), i)
    {
      if i == drumPtr && drumPtr < |c.drum.steps| {
        var len := c.drum.len[drumPtr];
        if c.drum.steps[drumPtr] == 'd' && c.drumOn {
          PlayNotes(c, c.drum.num * len, c.drum.denom,
              [Struck(c.drumProgram[drumPtr], DRUMS, c.drumVelocity[drumPtr])]);
        }
        drumPtr := drumPtr + 1;
        AddToQueue(c, c.drum.num * len, c.drum.denom, REQUEST, drumPtr, 0, 0);
      }
    }

    method ExpireHead(c: Config, atend: bool)
      requires Valid() && c.Valid() && !queue.Empty()
      modifies this, queue, queue.Q
      ensures Valid()
      ensures State() == Expire(c, old(State()), atend)
    {
      var e := queue.Head();
      if e.pitch == REQUEST {
        if !atend {
          if c.gchordson {
            PlayGchords(c, e.chan);
          }
          if c.drumson {
            PlayDrums(c, e.chan);
          }
        }
      } else if e.effect == 0 {
        WriteNoteOff(c, e.pitch, e.chan);
        trackLen := trackLen + deltaTime;
        deltaTime := 0;
      } else {
        if HasShape(e.effect) {
          log := log + [Shaped(deltaTime, e.pitch, e.chan, e.effect)];
        }
        trackLen := trackLen + deltaTime;
        deltaTime := 0;
      }
    }

    method PopHead(c: Config, atend: bool) returns (ok: bool)
      requires Valid() && c.Valid() && !queue.Empty()
      modifies this, queue, queue.Q
      ensures Valid()
      ensures ok <==> Pop(c, old(State()), atend).Done?
      ensures ok ==> State() == Pop(c, old(State()), atend).s
    {
      var headtime := queue.Head().delay;
      deltaTime := deltaTime + headtime;
      deltaTimeTrack0 := deltaTimeTrack0 + headtime;
      queue.AdvanceQ(headtime);
      assert State() == ToHead(old(State()));
      ExpireHead(c, atend);
      ok := queue.RemoveFromQ();
    }

    /** timestep; a false result is the source's fatal internal error. */
    method LetTimePass(c: Config, t: int, atend: bool) returns (ok: bool)
      requires Valid() && c.Valid()
      modifies this, queue, queue.Q
      ensures Valid()
      ensures ok <==> Timestep(c, old(State()), t, atend).Done?
      ensures ok ==> State() == Timestep(c, old(State()), t, atend).s
    {
      var time := t;
      ghost var s := State();
      while !queue.Empty() && queue.Head().delay < time
        invariant Valid() && s == State()
        invariant Timestep(c, s, time, atend) == Timestep(c, old(State()), t, atend)
        decreases StepsLeft(c, s), |s.q|
      {
        var headtime := queue.Head().delay;
        ghost var popped := Pop(c, s, atend);
        OneExpires(c, s, time, atend);
        var removed := PopHead(c, atend);
        if !removed {
          return false;
        }
        time := time - headtime;
        s := popped.s;
      }
      PassIdly(time);
      return true;
    }

    method PassIdly(time: int)
      requires Valid()
      modifies this, queue, queue.Q
      ensures Valid() && State() == Idle(old(State()), time)
    {
      if !queue.Empty() {
        queue.AdvanceQ(time);
      }
      deltaTime := deltaTime + time - totalNoteDelay;
      deltaTimeTrack0 := deltaTimeTrack0 + time - totalNoteDelay;
    }

    /** delay: waits for a/b and d ticks more. */
    method Wait(c: Config, a: int, b: int, d: int) returns (ok: bool)
      requires Valid() && c.Valid() && b > 0
      modifies this, queue, queue.Q
      ensures Valid()
      ensures ok <==> Delay(c, old(State()), a, b, d).Done?
      ensures ok ==> State() == Delay(c, old(State()), a, b, d).s
    {
      var dt := CDiv(c.divFactor * a, b) + d;
      var n, m := Reduce(errNum * b + CMod(c.divFactor * a, b) * errDenom, errDenom * b);
      assert m > 0 by {
        ReduceSound(Frac(errNum * b + CMod(c.divFactor * a, b) * errDenom, errDenom * b));
      }
      dt := dt + CDiv(n, m);
      errNum, errDenom := CMod(n, m), m;
      ok := LetTimePass(c, dt, false);
    }

    /** clearQ */
    method ClearQueue(c: Config)
      requires Valid() && c.Valid()
      modifies this, queue, queue.Q
      ensures Valid() && State() == ClearQ(c, old(State()))
      ensures queue.Empty()
    {
      FlushRequests(c);
      ExhaustQueue(c);
      PassIdly(25);
    }

    method FlushRequests(c: Config)
      requires Valid() && c.Valid()
      modifies this, queue, queue.Q
      ensures Valid() && State() == DropRequests(c, old(State()))
    {
      var time := DropLeadingRequests();
      if !queue.Empty() {
        ghost var s := State();
        EndOnlyShrinks(c, s, time);
        var _ := LetTimePass(c, time, true);
      }
    }

    method ExhaustQueue(c: Config)
      requires Valid() && c.Valid()
      modifies this, queue, queue.Q
      ensures Valid() && State() == Exhaust(c, old(State()))
    {
      ghost var s, u := State(), State();
      while !queue.Empty()
        invariant Valid() && u == State()
        invariant Exhaust(c, u) == Exhaust(c, s)
        decreases |u.q|
      {
        SustainHead(c);
        u := State();
      }
    }

    method SustainHead(c: Config)
      requires Valid() && c.Valid() && !queue.Empty()
      modifies this, queue, queue.Q
      ensures Valid() && State() == RunOut(c, old(State()))
    {
      ghost var s := State();
      var last := queue.Head().delay;
      errors := errors + 1;
      EndOnlyShrinks(c, s.(errors := s.errors + 1), last + 1);
      var _ := LetTimePass(c, last + 1, true);
    }

    method DropLeadingRequests() returns (time: int)
      requires Valid()
      modifies this, queue, queue.Q
      ensures Valid()
      ensures var q := old(State()).q;
              && time == SumDelays(q[..LeadingRequests(q)])
              && State() == old(State()).(q := q[LeadingRequests(q)..])
    {
      time := 0;
      ghost var s, q := State(), State().q;
      ghost var k := 0;
      assert q[0..] == q && q[..0] == [];
      while !queue.Empty() && queue.Head().pitch == REQUEST
        invariant Valid() && 0 <= k <= |q| && State() == s.(q := q[k..])
        invariant LeadingRequests(q) == k + LeadingRequests(q[k..])
        invariant time == SumDelays(q[..k])
        decreases |q| - k
      {
        SumDelaysGrow(q, k);
        assert q[k..][0] == q[k] && q[k..][1..] == q[k + 1..];
        time := time + queue.Head().delay;
        queue.Unlink();
        k := k + 1;
      }
    }
  }

  lemma OneExpires(c: Config, s: Clock, t: int, atend: bool)
    requires c.Valid() && s.q != [] && s.q[0].delay < t
    ensures Timestep(c, s, t, atend)
         == if Pop(c, s, atend).Fatal? then Fatal else Timestep(c, Pop(c, s, atend).s, t - s.q[0].delay, atend)
  {
  }
}
