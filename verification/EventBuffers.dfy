/** The sorted linked list and the event buffer in place, tied to the steps of Events. */
module EventBuffers {
  import opened Events

  /** An event that can stand in one list. */
  class Listable {
    const event: Event
    var next: Listable?

    constructor (event: Event)
      ensures this.event == event && next == null
    {
      this.event := event;
      next := null;
    }
  }

  function EventsOf(nodes: seq<Listable>): (r: seq<Event>)
    ensures |r| == |nodes| && forall i :: 0 <= i < |r| ==> r[i] == nodes[i].event
  {
    seq(|nodes|, i requires 0 <= i < |nodes| => nodes[i].event)
  }

  predicate Distinct(nodes: seq<Listable>) {
    forall i, j :: 0 <= i < j < |nodes| ==> nodes[i] != nodes[j]
  }

  /** The next of the i-th of these nodes, when they make up a list. */
  function After(nodes: seq<Listable>, i: int): (n: Listable?)
    requires -1 <= i < |nodes|
  {
    if i + 1 < |nodes| then nodes[i + 1] else null
  }

  function Spliced<T>(was: seq<T>, x: T, k: nat): (r: seq<T>)
    requires k <= |was|
    ensures |r| == |was| + 1
  {
    was[..k] + [x] + was[k..]
  }

  /** e belongs behind the first k of s. */
  ghost predicate IsPlace(s: seq<Event>, e: Event, k: nat) {
    && k <= |s| && (forall i :: 0 <= i < k ==> Leq(s[i].pos, e.pos))
    && (k < |s| ==> !Leq(s[k].pos, e.pos))
  }

  /** The insertion point decides the result. */
  lemma {:induction false} InsertAt(s: seq<Event>, e: Event, k: nat)
    requires IsPlace(s, e, k)
    ensures Insert(s, e) == Spliced(s, e, k)
    decreases k
  {
    if k > 0 {
      var rest := s[1..];
      assert forall i :: 0 <= i < |rest| ==> rest[i] == s[i + 1];
      InsertAt(rest, e, k - 1);
      SplicedRest(s, e, k);
    }
  }

  lemma SplicedRest<T>(s: seq<T>, x: T, k: nat)
    requires 0 < k <= |s|
    ensures Spliced(s, x, k) == [s[0]] + Spliced(s[1..], x, k - 1)
  {
    assert s[..k] == [s[0]] + s[1..][..k - 1];
    assert s[k..] == s[1..][k - 1..];
  }

  lemma SplicedEvents(was: seq<Listable>, x: Listable, k: nat)
    requires k <= |was|
    ensures EventsOf(Spliced(was, x, k)) == Spliced(EventsOf(was), x.event, k)
    ensures forall n :: n in Spliced(was, x, k) <==> n in was || n == x
  {
    var r := Spliced(was, x, k);
    forall i | 0 <= i < |was|
      ensures was[i] in r
    {
      assert r[if i < k then i else i + 1] == was[i];
    }
  }

  lemma AllLeq(s: seq<Event>, e: Event)
    requires Sorted(s) && s != [] && Leq(s[|s| - 1].pos, e.pos)
    ensures IsPlace(s, e, |s|)
  {
    forall i | 0 <= i < |s| - 1
      ensures Leq(s[i].pos, e.pos)
    {
      LeqTrans(s[i].pos, s[|s| - 1].pos, e.pos);
    }
  }

  class EventList {
    var first: Listable?
    var last: Listable?
    ghost var nodes: seq<Listable>
    ghost var repr: set<Listable>

    ghost predicate Valid()
      reads this, repr
    {
      && (forall i :: 0 <= i < |nodes| ==> nodes[i] in repr)
      && Distinct(nodes)
      && first == After(nodes, -1)
      && (nodes != [] ==> last == nodes[|nodes| - 1])
      && forall i :: 0 <= i < |nodes| ==> nodes[i].next == After(nodes, i)
    }

    ghost function Contents(): (s: seq<Event>)
      reads this
    {
      EventsOf(nodes)
    }

    constructor ()
      ensures Valid() && nodes == [] && repr == {}
    {
      first, last, nodes, repr := null, null, [], {};
    }

    /** Linking elem in behind k of these nodes leaves a list. */
    lemma LinkedIn(was: seq<Listable>, elem: Listable, k: nat)
      requires Distinct(was) && elem !in was && k <= |was| && nodes == Spliced(was, elem, k)
      requires elem in repr && forall i :: 0 <= i < |was| ==> was[i] in repr
      requires first == (if k == 0 then elem else was[0]) && last == (if k == |was| then elem else was[|was| - 1])
      requires elem.next == After(was, k - 1)
      requires forall i :: 0 <= i < |was| ==> was[i].next == if i == k - 1 then elem else After(was, i)
      ensures Valid()
    {
      forall i | 0 <= i < |nodes|
        ensures nodes[i].next == After(nodes, i) && nodes[i] in repr
      {
        assert i < k ==> nodes[i] == was[i];
        assert i > k ==> nodes[i] == was[i - 1];
      }
    }

    /** The node elem is to stand behind, when it stands neither first nor last. */
    method FindPlace(elem: Listable) returns (at: Listable, ghost k: nat)
      requires Valid() && first != null && Leq(first.event.pos, elem.event.pos) && !Leq(last.event.pos, elem.event.pos)
      ensures 0 < k < |nodes| && at == nodes[k - 1] && IsPlace(Contents(), elem.event, k)
    {
      at := first;
      k := 1;
      while Leq(at.next.event.pos, elem.event.pos)
        invariant 1 <= k < |nodes| && at == nodes[k - 1] && at.next == nodes[k]
        invariant forall i :: 0 <= i < k ==> Leq(nodes[i].event.pos, elem.event.pos)
        decreases |nodes| - k
      {
        at := at.next;
        k := k + 1;
      }
    }

    method Insert(elem: Listable)
      requires Valid() && Sorted(Contents()) && elem !in repr && elem.next == null
      modifies this, repr, elem
      ensures Valid() && Contents() == Events.Insert(old(Contents()), elem.event) && Sorted(Contents())
      ensures repr == old(repr) + {elem}
    {
      ghost var was, s := nodes, Contents();
      if first == null {
        first, last := elem, elem;
        Link(was, elem, 0);
      } else if Leq(last.event.pos, elem.event.pos) {
        AllLeq(s, elem.event);
        last.next := elem;
        last := elem;
        Link(was, elem, |was|);
      } else if Lt(elem.event.pos, first.event.pos) {
        LeqTotal(elem.event.pos, first.event.pos);
        elem.next := first;
        first := elem;
        Link(was, elem, 0);
      } else {
        LeqTotal(elem.event.pos, first.event.pos);
        var at, k := FindPlace(elem);
        elem.next := at.next;
        at.next := elem;
        Link(was, elem, k);
      }
    }

    /** elem has been linked in behind k nodes of this list, where it belongs. */
    ghost method Link(was: seq<Listable>, elem: Listable, k: nat)
      requires nodes == was && Distinct(was) && elem !in was && k <= |was|
      requires forall i :: 0 <= i < |was| ==> was[i] in repr
      requires first == (if k == 0 then elem else was[0]) && last == (if k == |was| then elem else was[|was| - 1])
      requires elem.next == After(was, k - 1)
      requires forall i :: 0 <= i < |was| ==> was[i].next == if i == k - 1 then elem else After(was, i)
      requires Sorted(EventsOf(was)) && IsPlace(EventsOf(was), elem.event, k)
      modifies this`nodes, this`repr
      ensures Valid() && repr == old(repr) + {elem}
      ensures Contents() == Events.Insert(EventsOf(was), elem.event) && Sorted(Contents())
    {
      nodes, repr := Spliced(was, elem, k), repr + {elem};
      LinkedIn(was, elem, k);
      InsertAt(EventsOf(was), elem.event, k);
      InsertSorted(EventsOf(was), elem.event);
      SplicedEvents(was, elem, k);
    }

    /** Gives the new first node. */
    method Pop() returns (r: Listable?)
      requires Valid() && first != null
      modifies this
      ensures Valid() && nodes == old(nodes)[1..] && r == first && repr == old(repr)
      ensures Contents() == old(Contents())[1..]
    {
      first := first.next;
      nodes := nodes[1..];
      r := first;
    }

    method Clear()
      modifies this
      ensures Valid() && nodes == [] && Contents() == [] && repr == old(repr)
    {
      first := null;
      nodes := [];
    }
  }

  // ---------- Whole calls ----------

  function Rank(p: Phase): (r: nat) {
    match p
    case Idle => 0
    case Filling(_, _) => 3
    case Deciding(_) => 2
    case Dropping(_) => 1
    case Draining => 2
    case Clearing => 1
  }

  function Size(s: State): (r: nat) {
    if s.phase.Filling? || s.phase.Draining? then |s.incoming| else |s.sorted|
  }

  /** update to its end. */
  function Updated(s: State): (r: State)
    requires s.phase.Filling?
    ensures r.phase == Deciding(s.phase.call)
    decreases |s.incoming|
  {
    if Proceed(s).phase.Filling? then Updated(Proceed(s)) else Proceed(s)
  }

  /** The running call to its end, with no push in between. */
  function Finish(s: State): (r: State)
    ensures r.phase.Idle?
    decreases Rank(s.phase), Size(s)
  {
    if s.phase.Idle? then s else Finish(Proceed(s))
  }

  lemma FinishNext(s: State)
    ensures Finish(s) == if s.phase.Idle? then s else Finish(Proceed(s))
  {
  }

  lemma {:induction false} UpdatedFirst(s: State)
    requires s.phase.Filling?
    ensures Finish(s) == Finish(Updated(s))
    decreases |s.incoming|
  {
    if Proceed(s).phase.Filling? {
      UpdatedFirst(Proceed(s));
    }
  }

  /** A whole call is one of the interleavings: steps of the process thread alone. */
  lemma {:induction false} FinishIsRun(s: State) returns (acts: seq<Action>)
    ensures Run(s, acts) == Finish(s) && forall k :: 0 <= k < |acts| ==> acts[k] == Proceeds
    decreases Rank(s.phase), Size(s)
  {
    if s.phase.Idle? {
      acts := [];
    } else {
      var rest := FinishIsRun(Proceed(s));
      acts := [Proceeds] + rest;
      assert acts[1..] == rest;
    }
  }

  // ---------- What a call gives ----------

  function InsertAll(s: seq<Event>, es: seq<Event>): (r: seq<Event>)
    decreases |es|
  {
    if es == [] then s else InsertAll(Insert(s, es[0]), es[1..])
  }

  /** In order, with nothing lost. */
  lemma {:induction false} InsertAllSorted(s: seq<Event>, es: seq<Event>)
    requires Sorted(s)
    ensures Sorted(InsertAll(s, es)) && multiset(InsertAll(s, es)) == multiset(s) + multiset(es)
    decreases |es|
  {
    if es != [] {
      InsertSorted(s, es[0]);
      InsertAllSorted(Insert(s, es[0]), es[1..]);
      SplitFirst(es);
    }
  }

  /** How many of the events in the queue one call takes. */
  function Taken(incoming: seq<Event>): (n: nat)
    ensures n <= |incoming|
  {
    if |incoming| < 32 then |incoming| else 32
  }

  /** The first n events are the late ones, by more than 256 frames, up to one that is not. */
  ghost predicate LateRun(l: seq<Event>, offset: Pos -> int, n: nat) {
    && n <= |l| && (forall i :: 0 <= i < n ==> offset(l[i].pos) < -256)
    && (n < |l| ==> offset(l[n].pos) >= -256)
  }

  /** n events of the list l are recycled, and the next one is given if it falls within the call. */
  ghost predicate Served(s: State, r: State, l: seq<Event>, offset: Pos -> int, nframes: int, n: nat) {
    && LateRun(l, offset, n) && r.recycled == s.recycled + l[..n]
    && if n < |l| && offset(l[n].pos) < nframes then r.delivered == s.delivered + [l[n]] && r.sorted == l[n + 1..]
       else r.delivered == s.delivered && r.sorted == l[n..]
  }

  /** What getNextEvent makes of s: up to 32 events are sorted in; an event of bar 0 at the head is given; while the
      transport rolls late events are recycled and the next one is given if it falls within the call; and when it
      stands still nothing is given or dropped. */
  ghost predicate Answered(s: State, r: State, rolling: bool, offset: Pos -> int, nframes: int) {
    var n := Taken(s.incoming);
    var l := InsertAll(s.sorted, s.incoming[..n]);
    && r.incoming == s.incoming[n..]
    && if l != [] && l[0].pos.whole == 0 then
         r.delivered == s.delivered + [l[0]] && r.recycled == s.recycled && r.sorted == l[1..]
       else if rolling then exists k :: Served(s, r, l, offset, nframes, k)
       else r.delivered == s.delivered && r.recycled == s.recycled && r.sorted == l
  }

  lemma {:induction false} UpdatedInserts(s: State, n: nat)
    requires s.phase.Filling? && s.phase.count <= 32
    requires n == if |s.incoming| < 32 - s.phase.count then |s.incoming| else 32 - s.phase.count
    ensures var r := Updated(s);
            && r.incoming == s.incoming[n..] && r.sorted == InsertAll(s.sorted, s.incoming[..n])
            && r.delivered == s.delivered && r.recycled == s.recycled
    decreases n
  {
    if n > 0 {
      assert s.incoming[..n][1..] == s.incoming[1..][..n - 1] && s.incoming[1..][n - 1..] == s.incoming[n..];
      UpdatedInserts(Proceed(s), n - 1);
    }
  }

  lemma {:induction false} DroppingServes(s: State, call: Call) returns (n: nat)
    requires s.phase == Dropping(call)
    ensures Served(s, Finish(s), s.sorted, call.offset, call.nframes, n) && Finish(s).incoming == s.incoming
    decreases |s.sorted|
  {
    n := 0;
    FinishNext(s);
    var l := s.sorted;
    if l != [] && call.offset(l[0].pos) < -256 {
      var k := DroppingServes(Proceed(s), call);
      n := k + 1;
      assert l[..n] == [l[0]] + l[1..][..k] && l[1..][k..] == l[n..];
      assert n < |l| ==> l[1..][k + 1..] == l[n + 1..];
      assert forall i :: 1 <= i < n ==> l[i] == l[1..][i - 1];
    } else {
      FinishNext(Proceed(s));
    }
  }

  /** getNextEvent gives what it should. */
  lemma CallAnswers(s: State, rolling: bool, offset: Pos -> int, nframes: int)
    requires s.phase.Idle?
    ensures Answered(s, Finish(s.(phase := Filling(0, Call(rolling, offset, nframes)))), rolling, offset, nframes)
  {
    var call := Call(rolling, offset, nframes);
    var s1 := s.(phase := Filling(0, call));
    var s2 := Updated(s1);
    UpdatedFirst(s1);
    UpdatedInserts(s1, Taken(s.incoming));
    FinishNext(s2);
    if !(s2.sorted != [] && s2.sorted[0].pos.whole == 0) && rolling {
      var k := DroppingServes(Proceed(s2), call);
      assert Served(s, Finish(s1), s2.sorted, offset, nframes, k);
    } else {
      FinishNext(Proceed(s2));
    }
  }

  /** A step recycles and gives only what it may: but for recycleRemaining an event is recycled only when it is
      late by more than 256 frames, and it is given only in bar 0 or within the frames of the call. */
  ghost predicate StepRight(s: State, r: State) {
    && (r.recycled == s.recycled || s.phase.Draining? || s.phase.Clearing?
        || exists e :: r.recycled == s.recycled + [e] && s.phase.Dropping? && s.phase.call.offset(e.pos) < -256)
    && (r.delivered == s.delivered
        || exists e :: r.delivered == s.delivered + [e]
                    && (e.pos.whole == 0
                        || (s.phase.Dropping? && s.phase.call.rolling
                            && -256 <= s.phase.call.offset(e.pos) < s.phase.call.nframes)))
  }

  /** Late events are looked for only while the transport rolls. */
  ghost predicate RollsWhenDropping(s: State) {
    s.phase.Dropping? ==> s.phase.call.rolling
  }

  lemma {:induction false} DropsRolling(s: State, acts: seq<Action>)
    requires RollsWhenDropping(s)
    ensures RollsWhenDropping(Run(s, acts))
    decreases |acts|
  {
    if acts != [] {
      DropsRolling(Step(s, acts[0]), acts[1..]);
    }
  }

  lemma {:induction false} RunSnoc(s: State, acts: seq<Action>, a: Action)
    ensures Run(s, acts + [a]) == Step(Run(s, acts), a)
    decreases |acts|
  {
    if acts == [] {
      assert [a][1..] == [];
    } else {
      assert (acts + [a])[1..] == acts[1..] + [a];
      RunSnoc(Step(s, acts[0]), acts[1..], a);
    }
  }

  /** In every interleaving, at every step. */
  lemma EveryStepRight(acts: seq<Action>, k: nat)
    requires k < |acts|
    ensures StepRight(Run(Init(), acts[..k]), Run(Init(), acts[..k + 1]))
  {
    var s := Run(Init(), acts[..k]);
    assert acts[..k + 1] == acts[..k] + [acts[k]];
    RunSnoc(Init(), acts[..k], acts[k]);
    DropsRolling(Init(), acts[..k]);
    OneStepRight(s, acts[k]);
  }

  lemma OneStepRight(s: State, a: Action)
    requires RollsWhenDropping(s)
    ensures StepRight(s, Step(s, a))
  {
    var r := Step(s, a);
    if s.sorted != [] {
      var e := s.sorted[0];
      assert r.recycled == s.recycled || s.phase.Draining? || s.phase.Clearing? || r.recycled == s.recycled + [e];
      assert r.delivered == s.delivered || r.delivered == s.delivered + [e];
    }
  }

  // ---------- The buffer ----------

  class EventBuffer {
    var queue: seq<Listable>
    const sortedEvents: EventList
    ghost var state: State
    ghost var owned: set<Listable>

    /** The fields hold what the state says. */
    ghost predicate Holds()
      reads this, sortedEvents, owned
    {
      && sortedEvents.repr <= owned
      && sortedEvents.Valid()
      && state.sorted == sortedEvents.Contents() && Sorted(state.sorted)
      && state.incoming == EventsOf(queue)
      && Distinct(queue)
      && forall i :: 0 <= i < |queue| ==>
          queue[i] in owned && queue[i] !in sortedEvents.repr && queue[i].next == null
    }

    constructor ()
      ensures Holds() && fresh(sortedEvents) && state == Init()
    {
      queue := [];
      sortedEvents := new EventList();
      state := Init();
      owned := {};
    }

    /** One attempt of addEvent, which repeats it until the queue takes the event. */
    method AddEvent(evt: Listable) returns (done: bool)
      requires Holds() && evt.next == null && evt !in owned
      requires evt.event.id == |state.pushed|
      modifies this
      ensures Holds() && state == Push(old(state), evt.event.pos)
      ensures done <==> |old(queue)| < 2048
      ensures queue == if done then old(queue) + [evt] else old(queue)
    {
      done := |queue| < CAPACITY;
      if done {
        queue := queue + [evt];
        owned := owned + {evt};
        state := Push(state, evt.event.pos);
      }
    }

    /** The process thread goes on without touching the queue and the list. */
    ghost method GoOn()
      requires Holds() && Proceed(state).incoming == state.incoming && Proceed(state).sorted == state.sorted
      modifies this`state
      ensures Holds() && state == Proceed(old(state))
    {
      state := Proceed(state);
    }

    /** Moves an event from the queue to the list. */
    method MoveOne()
      requires Holds() && queue != [] && state.phase.Filling? && state.phase.count < UPDATE_MAX_EVENTS
      modifies this`queue, this`state, sortedEvents, owned
      ensures Holds() && state == Proceed(old(state)) && |queue| < |old(queue)|
    {
      var freshEvent := queue[0];
      queue := queue[1..];
      assert EventsOf(queue) == EventsOf(old(queue))[1..];
      sortedEvents.Insert(freshEvent);
      state := Proceed(state);
    }

    /** Removes the first event of the list. */
    method TakeFirst() returns (first: Listable?)
      requires Holds() && sortedEvents.nodes != []
      requires Proceed(state).incoming == state.incoming && Proceed(state).sorted == state.sorted[1..]
      modifies this`state, sortedEvents
      ensures Holds() && state == Proceed(old(state)) && first == sortedEvents.first
      ensures sortedEvents.nodes == old(sortedEvents.nodes)[1..]
    {
      first := sortedEvents.Pop();
      state := Proceed(state);
    }

    method Update()
      requires Holds() && state.phase.Filling? && state.phase.count == 0
      modifies this`queue, this`state, sortedEvents, owned
      ensures Holds() && state == Updated(old(state))
    {
      var counter := 0;
      while counter < UPDATE_MAX_EVENTS && queue != []
        invariant Holds() && state.phase.Filling? && state.phase.count == counter
        invariant Updated(state) == Updated(old(state))
        decreases |queue|
      {
        MoveOne();
        counter := counter + 1;
      }
      GoOn();
    }

    method GetNextEvent(rolling: bool, offset: Pos -> int, nframes: int) returns (r: Listable?)
      requires Holds() && state.phase.Idle?
      modifies this`queue, this`state, sortedEvents, owned
      ensures Holds() && state == Finish(old(state).(phase := Filling(0, Call(rolling, offset, nframes))))
      ensures Answered(old(state), state, rolling, offset, nframes)
      ensures state.delivered == old(state.delivered) + if r == null then [] else [r.event]
    {
      CallAnswers(state, rolling, offset, nframes);
      state := state.(phase := Filling(0, Call(rolling, offset, nframes)));
      r := NextEvent(rolling, offset, nframes);
    }

    /** The same, once the call has begun. */
    method NextEvent(rolling: bool, offset: Pos -> int, nframes: int) returns (r: Listable?)
      requires Holds() && state.phase == Filling(0, Call(rolling, offset, nframes))
      modifies this`queue, this`state, sortedEvents, owned
      ensures Holds() && state == Finish(old(state))
      ensures state.delivered == old(state.delivered) + if r == null then [] else [r.event]
    {
      ghost var begin := state;
      Update();
      UpdatedFirst(begin);
      UpdatedDelivers(begin);
      r := sortedEvents.first;
      if r != null && r.event.pos.whole == 0 {
        var _ := TakeFirst();
        return;
      }
      GoOn();
      r := null;
      if rolling {
        r := TakeDue(offset, nframes);
      }
    }

    /** Gives the first event that is not late, if it is due within the call. */
    method TakeDue(offset: Pos -> int, nframes: int) returns (r: Listable?)
      requires Holds() && state.phase == Dropping(Call(true, offset, nframes))
      modifies this`state, sortedEvents
      ensures Holds() && state == Finish(old(state))
      ensures state.delivered == old(state.delivered) + if r == null then [] else [r.event]
    {
      r := DropLate(offset, nframes);
      if r != null && offset(r.event.pos) < nframes {
        var _ := TakeFirst();
      } else {
        GoOn();
        r := null;
      }
    }

    /** Recycles the events that are late; the first of the others. */
    method DropLate(offset: Pos -> int, nframes: int) returns (first: Listable?)
      requires Holds() && state.phase == Dropping(Call(true, offset, nframes))
      modifies this`state, sortedEvents
      ensures Holds() && state.phase == old(state.phase) && first == sortedEvents.first
      ensures Finish(state) == Finish(old(state)) && state.delivered == old(state.delivered)
      ensures first != null ==> offset(first.event.pos) >= GRACE
    {
      first := sortedEvents.first;
      while first != null && offset(first.event.pos) < GRACE
        invariant Holds() && state.phase == old(state.phase) && first == sortedEvents.first
        invariant Finish(state) == Finish(old(state)) && state.delivered == old(state.delivered)
        decreases |sortedEvents.nodes|
      {
        first := TakeFirst();
      }
    }

    method RecycleRemaining()
      requires Holds() && state.phase.Idle?
      modifies this`queue, this`state, sortedEvents
      ensures Holds() && state == Finish(old(state).(phase := Draining))
      ensures queue == [] && sortedEvents.nodes == []
      ensures state.recycled == old(state.recycled) + old(state.incoming) + old(state.sorted)
    {
      state := state.(phase := Draining);
      ghost var begin := state;
      while queue != []
        invariant Holds() && state.phase == Draining
        invariant Finish(state) == Finish(begin) && state.sorted == begin.sorted
        invariant state.recycled + state.incoming == begin.recycled + begin.incoming
        decreases |queue|
      {
        DrainOne();
      }
      assert state.recycled == begin.recycled + begin.incoming;
      FinishNext(state);
      GoOn();
      FinishNext(state);
      sortedEvents.Clear();
      state := Proceed(state);
    }

    /** Recycles the first event of the queue. */
    method DrainOne()
      requires Holds() && queue != [] && state.phase.Draining?
      modifies this`queue, this`state
      ensures Holds() && state == Proceed(old(state)) && |queue| < |old(queue)|
      ensures state.recycled + state.incoming == old(state.recycled) + old(state.incoming)
    {
      SplitFirst(state.incoming);
      queue := queue[1..];
      state := Proceed(state);
      assert old(state.recycled) + [old(state.incoming)[0]] + state.incoming
          == old(state.recycled) + ([old(state.incoming)[0]] + state.incoming);
    }
  }

  lemma {:induction false} UpdatedDelivers(s: State)
    requires s.phase.Filling?
    ensures Updated(s).delivered == s.delivered
    decreases |s.incoming|
  {
    if Proceed(s).phase.Filling? {
      UpdatedDelivers(Proceed(s));
    }
  }
}
