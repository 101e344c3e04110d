/** The real-time event buffer: events pushed by the script thread reach the process thread through a
    queue and a sorted list. Every interleaving of the two threads' steps is considered. */
module Events {

  /** A musical position: bar, and a fraction of it. */
  datatype Fraction = Fraction(whole: nat, position: nat, division: nat)

  type Pos = p: Fraction | p.division > 0 witness Fraction(0, 0, 1)

  predicate Lt(a: Pos, b: Pos) {
    a.whole < b.whole || (a.whole == b.whole && a.position * b.division < b.position * a.division)
  }

  predicate Leq(a: Pos, b: Pos) {
    a.whole < b.whole || (a.whole == b.whole && a.position * b.division <= b.position * a.division)
  }

  /** The positions are totally preordered. */
  lemma LeqTotal(a: Pos, b: Pos)
    ensures Lt(a, b) <==> !Leq(b, a)
    ensures Leq(a, b) || Leq(b, a)
  {
  }

  /** A position as a number of bars. */
  ghost function InBars(p: Pos): (x: real) {
    p.whole as real + p.position as real / p.division as real
  }

  /** Positions inside their bars are ordered as their numbers of bars are. */
  lemma LeqIsOrder(a: Pos, b: Pos)
    requires a.position < a.division && b.position < b.division
    ensures Leq(a, b) <==> InBars(a) <= InBars(b)
    ensures Lt(a, b) <==> InBars(a) < InBars(b)
  {
    Within(a);
    Within(b);
    Cross(a.position, a.division, b.position, b.division);
    Cross(b.position, b.division, a.position, a.division);
  }

  lemma Within(p: Pos)
    requires p.position < p.division
    ensures 0.0 <= p.position as real / p.division as real < 1.0
  {
  }

  lemma Cross(p: nat, d: nat, q: nat, e: nat)
    requires d > 0 && e > 0
    ensures p * e <= q * d <==> p as real / d as real <= q as real / e as real
  {
    var x, y := p as real / d as real, q as real / e as real;
    assert p as real == x * d as real && q as real == y * e as real;
    assert (p * e) as real == x * (d as real * e as real);
    assert (q * d) as real == y * (d as real * e as real);
    var z := d as real * e as real;
    assert z > 0.0;
    if x <= y {
      assert (y - x) * z >= 0.0;
    } else {
      assert (x - y) * z > 0.0;
    }
  }

  lemma LeqTrans(a: Pos, b: Pos, c: Pos)
    requires Leq(a, b) && Leq(b, c)
    ensures Leq(a, c)
  {
    if a.whole == b.whole == c.whole {
      CrossTrans(a.position, a.division, b.position, b.division, c.position, c.division);
    }
  }

  lemma CrossTrans(p: nat, d: nat, q: nat, e: nat, r: nat, f: nat)
    requires d > 0 && e > 0 && f > 0 && p * e <= q * d && q * f <= r * e
    ensures p * f <= r * d
  {
    Scale(p * e, q * d, f);
    Scale(q * f, r * e, d);
    Swap(p, e, f);
    Swap(q, d, f);
    Swap(r, e, d);
    Unscale(p * f, r * d, e);
  }

  lemma Scale(a: int, b: int, f: nat)
    requires a <= b
    ensures a * f <= b * f
  {
  }

  lemma Unscale(a: int, b: int, e: nat)
    requires e > 0 && a * e <= b * e
    ensures a <= b
  {
    if a > b {
      Scale(b + 1, a, e);
    }
  }

  lemma Swap(p: nat, e: nat, f: nat)
    ensures (p * e) * f == (p * f) * e
  {
  }

  /** An event, numbered in the order of pushing. */
  datatype Event = Event(id: nat, pos: Pos)

  /** Stable sorted insertion: behind everything not later. */
  function Insert(s: seq<Event>, e: Event): (r: seq<Event>)
    ensures |r| == |s| + 1 && multiset(r) == multiset(s) + multiset{e}
  {
    if s == [] then [e]
    else if Leq(s[0].pos, e.pos) then
      assert s == [s[0]] + s[1..];
      [s[0]] + Insert(s[1..], e)
    else [e] + s
  }

  ghost predicate Sorted(s: seq<Event>) {
    forall i, j :: 0 <= i < j < |s| ==> Leq(s[i].pos, s[j].pos)
  }

  /** What stands before place k is not later than e, what stands behind it is. */
  ghost predicate Splits(s: seq<Event>, e: Event, k: nat) {
    && k <= |s| && (forall i :: 0 <= i < k ==> Leq(s[i].pos, e.pos))
    && forall i :: k <= i < |s| ==> !Leq(s[i].pos, e.pos)
  }

  /** The insertion point. */
  lemma {:induction false} InsertSplits(s: seq<Event>, e: Event) returns (k: nat)
    requires Sorted(s)
    ensures Splits(s, e, k) && Insert(s, e) == s[..k] + [e] + s[k..]
  {
    if s == [] {
      k := 0;
    } else if Leq(s[0].pos, e.pos) {
      var k' := InsertSplits(s[1..], e);
      k := k' + 1;
      SplitsCons(s, e, k');
    } else {
      k := 0;
      AllLater(s, e);
    }
  }

  lemma SplitsCons(s: seq<Event>, e: Event, k: nat)
    requires s != [] && Leq(s[0].pos, e.pos) && Splits(s[1..], e, k)
    ensures Splits(s, e, k + 1)
    ensures [s[0]] + (s[1..][..k] + [e] + s[1..][k..]) == s[..k + 1] + [e] + s[k + 1..]
  {
    assert forall i :: 1 <= i < |s| ==> s[i] == s[1..][i - 1];
  }

  lemma AllLater(s: seq<Event>, e: Event)
    requires s != [] && Sorted(s) && !Leq(s[0].pos, e.pos)
    ensures Splits(s, e, 0)
  {
    forall i | 0 < i < |s|
      ensures !Leq(s[i].pos, e.pos)
    {
      if Leq(s[i].pos, e.pos) {
        LeqTrans(s[0].pos, s[i].pos, e.pos);
        assert false;
      }
    }
  }

  lemma InsertSorted(s: seq<Event>, e: Event)
    requires Sorted(s)
    ensures Sorted(Insert(s, e))
  {
    var k := InsertSplits(s, e);
    forall i | k <= i < |s|
      ensures Leq(e.pos, s[i].pos)
    {
      LeqTotal(e.pos, s[i].pos);
    }
  }

  // ---------- The two threads ----------

  const UPDATE_MAX_EVENTS := 32
  const CAPACITY := 2048
  const GRACE := -256

  /** One call of the process thread: whether the transport rolls, the frame offset it gives each
      position, and how many frames the call covers. */
  datatype Call = Call(rolling: bool, offset: Pos -> int, nframes: int)

  /** What the process thread is about to do. */
  datatype Phase =
    | Idle
    | Filling(count: nat, call: Call)   // update: moving events from the queue to the list
    | Deciding(call: Call)              // looking at the first event for the first time
    | Dropping(call: Call)              // discarding events that are late
    | Draining                          // recycleRemaining: emptying the queue
    | Clearing                          // recycleRemaining: emptying the list

  /** The queue, the list, the events given to the process thread and those given to the collector, and
      the history: the pushes in order, the events that have left in order, and for each of these the
      list it went past, when recycleRemaining took it from the queue; nothing for the others. */
  datatype State = State(incoming: seq<Event>, sorted: seq<Event>, delivered: seq<Event>, recycled: seq<Event>,
                         pushed: seq<Event>, left: seq<Event>, passed: seq<seq<Event>>, phase: Phase)

  function Init(): (s: State) {
    State([], [], [], [], [], [], [], Idle)
  }

  /** addEvent gets an event into the queue when there is room, and otherwise tries again. */
  function Push(s: State, pos: Pos): (r: State) {
    var e := Event(|s.pushed|, pos);
    if |s.incoming| < CAPACITY then s.(incoming := s.incoming + [e], pushed := s.pushed + [e]) else s
  }

  function Fill(s: State): (r: State)
    requires s.incoming != []
  {
    s.(incoming := s.incoming[1..], sorted := Insert(s.sorted, s.incoming[0]))
  }

  function Deliver(s: State): (r: State)
    requires s.sorted != []
  {
    s.(delivered := s.delivered + [s.sorted[0]], left := s.left + [s.sorted[0]], passed := s.passed + [[]],
       sorted := s.sorted[1..])
  }

  function Drop(s: State): (r: State)
    requires s.sorted != []
  {
    s.(recycled := s.recycled + [s.sorted[0]], left := s.left + [s.sorted[0]], passed := s.passed + [[]],
       sorted := s.sorted[1..])
  }

  function Drain(s: State): (r: State)
    requires s.incoming != []
  {
    s.(recycled := s.recycled + [s.incoming[0]], left := s.left + [s.incoming[0]], passed := s.passed + [s.sorted],
       incoming := s.incoming[1..])
  }

  function Clear(s: State): (r: State) {
    s.(recycled := s.recycled + s.sorted, left := s.left + s.sorted,
       passed := s.passed + seq(|s.sorted|, i => []), sorted := [])
  }

  /** The next step of the process thread in the call it is in. */
  function Proceed(s: State): (r: State) {
    match s.phase
    case Idle => s
    case Filling(count, call) =>
      if count < UPDATE_MAX_EVENTS && s.incoming != [] then Fill(s).(phase := Filling(count + 1, call))
      else s.(phase := Deciding(call))
    case Deciding(call) =>
      if s.sorted != [] && s.sorted[0].pos.whole == 0 then Deliver(s).(phase := Idle)
      else s.(phase := if call.rolling then Dropping(call) else Idle)
    case Dropping(call) =>
      if s.sorted == [] then s.(phase := Idle)
      else if call.offset(s.sorted[0].pos) < GRACE then Drop(s)
      else if call.offset(s.sorted[0].pos) < call.nframes then Deliver(s).(phase := Idle)
      else s.(phase := Idle)
    case Draining => if s.incoming != [] then Drain(s) else s.(phase := Clearing)
    case Clearing => Clear(s).(phase := Idle)
  }

  /** What may happen next: a push by the script thread, a step of the process thread, or, when that
      is idle, the start of one of its two calls. */
  datatype Action = Pushes(pos: Pos) | Proceeds | CallsNext(call: Call) | CallsRecycle

  function Step(s: State, a: Action): (r: State) {
    match a
    case Pushes(pos) => Push(s, pos)
    case Proceeds => Proceed(s)
    case CallsNext(call) => if s.phase.Idle? then s.(phase := Filling(0, call)) else s
    case CallsRecycle => if s.phase.Idle? then s.(phase := Draining) else s
  }

  function Run(s: State, acts: seq<Action>): (r: State)
    decreases |acts|
  {
    if acts == [] then s else Run(Step(s, acts[0]), acts[1..])
  }

  // ---------- Every interleaving ----------

  /** All the events ever pushed: those that have left, in order, then the list, then the queue. */
  function Line(s: State): (l: seq<Event>) {
    s.left + s.sorted + s.incoming
  }

  /** x was pushed after y and is not due before it: x should not leave first. */
  predicate Overtakes(x: Event, y: Event) {
    y.id < x.id && Leq(y.pos, x.pos)
  }

  /** An event overtakes only what it is on record as having passed. */
  ghost predicate Recorded(l: seq<Event>, passed: seq<seq<Event>>) {
    forall i, j :: 0 <= i < j < |l| && Overtakes(l[i], l[j]) ==> i < |passed| && l[j] in passed[i]
  }

  /** The event x had not left before the i-th departure. */
  predicate LeavesAfter(s: State, i: nat, x: Event)
    requires i < |s.left|
  {
    x in s.left[i + 1..] || x in s.sorted || x in s.incoming
  }

  /** What is on record as passed was still there. */
  ghost predicate RecordTrue(s: State) {
    && |s.passed| == |s.left|
    && forall i, k :: 0 <= i < |s.left| && 0 <= k < |s.passed[i]| ==> LeavesAfter(s, i, s.passed[i][k])
  }

  ghost predicate Numbered(s: seq<Event>) {
    forall i :: 0 <= i < |s| ==> s[i].id == i
  }

  ghost predicate Counted(s: State) {
    && Numbered(s.pushed)
    && multiset(Line(s)) == multiset(s.pushed)
    && multiset(s.left) == multiset(s.delivered) + multiset(s.recycled)
  }

  ghost predicate Inv(s: State) {
    Counted(s) && Sorted(s.sorted) && Recorded(Line(s), s.passed) && RecordTrue(s)
  }

  lemma SplitFirst(s: seq<Event>)
    requires s != []
    ensures s == [s[0]] + s[1..] && multiset(s) == multiset{s[0]} + multiset(s[1..])
  {
  }

  lemma PushKeeps(s: State, pos: Pos)
    requires Inv(s)
    ensures Inv(Push(s, pos))
  {
    var e, r := Event(|s.pushed|, pos), Push(s, pos);
    if r != s {
      assert Line(r) == Line(s) + [e];
      forall i | 0 <= i < |Line(s)|
        ensures !Overtakes(Line(s)[i], e)
      {
        assert Line(s)[i] in multiset(s.pushed);
      }
      forall i, k | 0 <= i < |s.left| && 0 <= k < |s.passed[i]|
        ensures LeavesAfter(r, i, s.passed[i][k])
      {
        assert LeavesAfter(s, i, s.passed[i][k]);
      }
    }
  }

  /** Moving e from position q to position p, behind all departures, lets it pass only what is due later. */
  lemma MoveKeeps(was: seq<Event>, l: seq<Event>, p: nat, q: nat, passed: seq<seq<Event>>)
    requires |passed| <= p <= q < |was| == |l| && Recorded(was, passed) && l[p] == was[q]
    requires forall i :: 0 <= i < p || q < i < |l| ==> l[i] == was[i]
    requires forall i :: p <= i < q ==> l[i + 1] == was[i] && !Leq(was[i].pos, was[q].pos)
    ensures Recorded(l, passed)
  {
    forall i, j | 0 <= i < j < |l|
      ensures Overtakes(l[i], l[j]) ==> i < |passed| && l[j] in passed[i]
    {
      var i' := if i == p then q else if p < i <= q then i - 1 else i;
      var j' := if j == p then q else if p < j <= q then j - 1 else j;
      assert l[i] == was[i'] by {
        if p < i <= q { assert l[(i - 1) + 1] == was[i - 1]; }
      }
      assert l[j] == was[j'] by {
        if p < j <= q { assert l[(j - 1) + 1] == was[j - 1]; }
      }
    }
  }

  lemma InsertLine(a: seq<Event>, s: seq<Event>, e: Event, b: seq<Event>, passed: seq<seq<Event>>)
    requires Sorted(s) && |passed| == |a| && Recorded(a + s + [e] + b, passed)
    ensures Recorded(a + Insert(s, e) + b, passed)
  {
    var k := InsertSplits(s, e);
    var was, l := a + s + [e] + b, a + Insert(s, e) + b;
    var p, q := |a| + k, |a| + |s|;
    assert forall i :: p <= i < q ==> l[i + 1] == was[i] && !Leq(was[i].pos, e.pos) by {
      forall i | p <= i < q
        ensures l[i + 1] == was[i] && !Leq(was[i].pos, e.pos)
      {
        assert was[i] == s[i - |a|];
        assert l[i + 1] == Insert(s, e)[i + 1 - |a|];
      }
    }
    assert l[p] == was[q] == e;
    assert forall i :: 0 <= i < p || q < i < |l| ==> l[i] == was[i];
    MoveKeeps(was, l, p, q, passed);
  }

  lemma FillKeeps(s: State)
    requires Inv(s) && s.incoming != []
    ensures Inv(Fill(s))
  {
    var e, rest, r := s.incoming[0], s.incoming[1..], Fill(s);
    SplitFirst(s.incoming);
    assert Line(s) == s.left + s.sorted + [e] + rest;
    assert Line(r) == s.left + Insert(s.sorted, e) + rest;
    InsertLine(s.left, s.sorted, e, rest, s.passed);
    InsertSorted(s.sorted, e);
    forall i, k | 0 <= i < |s.left| && 0 <= k < |s.passed[i]|
      ensures LeavesAfter(r, i, s.passed[i][k])
    {
      var x := s.passed[i][k];
      assert LeavesAfter(s, i, x);
      assert x in r.sorted <==> x in multiset(r.sorted);
    }
  }

  lemma Counts(a: seq<Event>, b: seq<Event>, c: seq<Event>)
    ensures multiset(a + b + c) == multiset(a) + multiset(b) + multiset(c)
    ensures multiset(a + b) == multiset(a) + multiset(b)
  {
  }

  lemma AddBoth(c: multiset<Event>, d: multiset<Event>, e: multiset<Event>)
    ensures c + d + e == c + e + d == c + (d + e)
  {
  }

  /** One event leaves after the others; it may be from the list or from the queue. */
  lemma OneMore(s: State, r: State, e: Event, past: seq<Event>)
    requires RecordTrue(s) && r.left == s.left + [e] && r.passed == s.passed + [past]
    requires forall x :: x in s.sorted || x in s.incoming ==> x == e || x in r.sorted || x in r.incoming
    requires forall x :: x in past ==> x in r.sorted
    ensures RecordTrue(r)
  {
    forall i, k | 0 <= i < |r.left| && 0 <= k < |r.passed[i]|
      ensures LeavesAfter(r, i, r.passed[i][k])
    {
      if i < |s.left| {
        assert LeavesAfter(s, i, s.passed[i][k]);
        assert r.left[i + 1..] == s.left[i + 1..] + [e];
      }
    }
  }

  lemma LeaveKeeps(s: State)
    requires Inv(s) && s.sorted != []
    ensures Inv(Deliver(s)) && Inv(Drop(s))
  {
    var e := s.sorted[0];
    SplitFirst(s.sorted);
    Counts(s.left, [e], []);
    Counts(s.delivered, [e], []);
    Counts(s.recycled, [e], []);
    AddBoth(multiset(s.delivered), multiset(s.recycled), multiset{e});
    assert Line(Deliver(s)) == Line(s) == Line(Drop(s));
    OneMore(s, Deliver(s), e, []);
    OneMore(s, Drop(s), e, []);
    RecordGrows(Line(s), s.passed, []);
  }

  lemma RecordGrows(l: seq<Event>, passed: seq<seq<Event>>, past: seq<Event>)
    requires Recorded(l, passed)
    ensures Recorded(l, passed + [past])
  {
  }

  /** What recycleRemaining takes from the queue goes past the list, on record. */
  lemma DrainLine(a: seq<Event>, s: seq<Event>, e: Event, b: seq<Event>, passed: seq<seq<Event>>)
    requires |passed| == |a| && Recorded(a + s + [e] + b, passed)
    ensures Recorded(a + [e] + s + b, passed + [s])
  {
    var was, l, p, q := a + s + [e] + b, a + [e] + s + b, |a|, |a| + |s|;
    forall i, j | 0 <= i < j < |l|
      ensures Overtakes(l[i], l[j]) ==> i < |passed + [s]| && l[j] in (passed + [s])[i]
    {
      var i' := if i == p then q else if p < i <= q then i - 1 else i;
      var j' := if j == p then q else if p < j <= q then j - 1 else j;
      assert l[i] == was[i'] && l[j] == was[j'];
      if i == p && j <= q {
        assert l[j] == s[j - 1 - p];
      }
    }
  }

  lemma DrainKeeps(s: State)
    requires Inv(s) && s.incoming != []
    ensures Inv(Drain(s))
  {
    var e, rest := s.incoming[0], s.incoming[1..];
    SplitFirst(s.incoming);
    Counts(s.left, [e], []);
    Counts(s.recycled, [e], []);
    AddBoth(multiset(s.delivered), multiset(s.recycled), multiset{e});
    assert Line(s) == s.left + s.sorted + [e] + rest;
    assert Line(Drain(s)) == s.left + [e] + s.sorted + rest;
    DrainLine(s.left, s.sorted, e, rest, s.passed);
    OneMore(s, Drain(s), e, s.sorted);
    DrainCounts(s);
  }

  lemma DrainCounts(s: State)
    requires Counted(s) && s.incoming != []
    ensures multiset(Line(Drain(s))) == multiset(s.pushed)
  {
    var e, rest := s.incoming[0], s.incoming[1..];
    SplitFirst(s.incoming);
    Counts(s.left, s.sorted, s.incoming);
    Counts(s.left + [e], s.sorted, rest);
    Counts(s.left, [e], []);
    var a, b, c, d := multiset(s.left), multiset(s.sorted), multiset(rest), multiset{e};
    assert a + d + b + c == a + b + (d + c);
  }

  lemma ClearKeeps(s: State)
    requires Inv(s)
    ensures Inv(Clear(s))
  {
    var r := Clear(s);
    Counts(s.left, s.sorted, []);
    Counts(s.recycled, s.sorted, []);
    AddBoth(multiset(s.delivered), multiset(s.recycled), multiset(s.sorted));
    assert Line(r) == Line(s);
    forall i, k | 0 <= i < |r.left| && 0 <= k < |r.passed[i]|
      ensures LeavesAfter(r, i, r.passed[i][k])
    {
      assert i < |s.left|;
      assert LeavesAfter(s, i, s.passed[i][k]);
      assert r.left[i + 1..] == s.left[i + 1..] + s.sorted;
    }
  }

  lemma PhaseKeeps(s: State, phase: Phase)
    requires Inv(s)
    ensures Inv(s.(phase := phase))
  {
    var r := s.(phase := phase);
    assert Line(r) == Line(s);
    forall i, k | 0 <= i < |r.left| && 0 <= k < |r.passed[i]|
      ensures LeavesAfter(r, i, r.passed[i][k])
    {
      assert LeavesAfter(s, i, s.passed[i][k]);
    }
  }

  /** What a step does besides moving on: one of these, or nothing. */
  ghost predicate Acts(s: State, u: State) {
    || u == s
    || (s.incoming != [] && (u == Fill(s) || u == Drain(s)))
    || (s.sorted != [] && (u == Deliver(s) || u == Drop(s)))
    || u == Clear(s)
  }

  lemma ProceedActs(s: State) returns (u: State)
    ensures Acts(s, u) && Proceed(s) == u.(phase := Proceed(s).phase)
  {
    var p, r := s.phase, Proceed(s);
    u := if p.Filling? && r.phase.Filling? then Fill(s)
         else if p.Draining? && r.phase.Draining? then Drain(s)
         else if p.Clearing? then Clear(s)
         else if p.Dropping? && r.phase.Dropping? then Drop(s)
         else if |r.left| > |s.left| then Deliver(s)
         else s;
  }

  lemma ActsKeeps(s: State, u: State)
    requires Inv(s) && Acts(s, u)
    ensures Inv(u)
  {
    if s.incoming != [] && u == Fill(s) { FillKeeps(s); }
    else if s.incoming != [] && u == Drain(s) { DrainKeeps(s); }
    else if s.sorted != [] && (u == Deliver(s) || u == Drop(s)) { LeaveKeeps(s); }
    else if u == Clear(s) { ClearKeeps(s); }
  }

  lemma StepKeeps(s: State, a: Action)
    requires Inv(s)
    ensures Inv(Step(s, a))
  {
    match a
    case Pushes(pos) => PushKeeps(s, pos);
    case Proceeds =>
      var u := ProceedActs(s);
      ActsKeeps(s, u);
      PhaseKeeps(u, Proceed(s).phase);
    case CallsNext(call) => if s.phase.Idle? { PhaseKeeps(s, Filling(0, call)); }
    case CallsRecycle => if s.phase.Idle? { PhaseKeeps(s, Draining); }
  }

  lemma {:induction false} RunKeeps(s: State, acts: seq<Action>)
    requires Inv(s)
    ensures Inv(Run(s, acts))
    decreases |acts|
  {
    if acts != [] {
      StepKeeps(s, acts[0]);
      RunKeeps(Step(s, acts[0]), acts[1..]);
    }
  }

  /** In every interleaving, each event is in exactly one place: pushed events are all different, and the
      queue, the list, the delivered and the recycled hold each of them once between them. */
  lemma EachInOnePlace(acts: seq<Action>)
    ensures var s := Run(Init(), acts);
            && Numbered(s.pushed)
            && multiset(s.incoming) + multiset(s.sorted) + multiset(s.delivered) + multiset(s.recycled)
               == multiset(s.pushed)
            && multiset(s.left) == multiset(s.delivered) + multiset(s.recycled)
  {
    RunKeeps(Init(), acts);
    var s := Run(Init(), acts);
    Counts(s.left, s.sorted, s.incoming);
    var i, o, d, r := multiset(s.incoming), multiset(s.sorted), multiset(s.delivered), multiset(s.recycled);
    assert i + o + d + r == (d + r) + o + i;
  }

  lemma {:induction false} NumberedOnce(s: seq<Event>, x: Event)
    requires Numbered(s)
    ensures multiset(s)[x] <= 1
    decreases |s|
  {
    if s != [] {
      var t, e := s[..|s| - 1], s[|s| - 1];
      assert s == t + [e];
      NumberedOnce(t, x);
      if x == e {
        assert x !in t;
      }
    }
  }

  /** An event that is still there after a departure has not left before it. */
  lemma NotTwice(s: State, q: nat, x: Event)
    requires Inv(s) && q < |s.left| && LeavesAfter(s, q, x)
    ensures x !in s.left[..q]
  {
    NumberedOnce(s.pushed, x);
    var a, b := s.left[..q], s.left[q + 1..];
    assert s.left == a + [s.left[q]] + b;
    Counts(a, [s.left[q]], b);
    Counts(s.left, s.sorted, s.incoming);
    assert x in b ==> multiset(b)[x] >= 1;
    assert x in s.sorted ==> multiset(s.sorted)[x] >= 1;
    assert x in s.incoming ==> multiset(s.incoming)[x] >= 1;
    assert multiset(Line(s))[x] >= multiset(a)[x] + 1;
    assert x in a ==> multiset(a)[x] >= 1;
  }

  /** In every interleaving, of two events the one pushed later and due no earlier leaves first exactly if
      recycleRemaining took it from the queue while the other stood in the list. */
  lemma OvertakenIff(acts: seq<Action>, i: nat, j: nat, q: nat)
    requires i < j < |Run(Init(), acts).pushed| && q < |Run(Init(), acts).left| == |Run(Init(), acts).passed|
    requires Leq(Run(Init(), acts).pushed[i].pos, Run(Init(), acts).pushed[j].pos)
    requires Run(Init(), acts).left[q] == Run(Init(), acts).pushed[j]
    ensures var s := Run(Init(), acts);
            s.pushed[i] !in s.left[..q] <==> s.pushed[i] in s.passed[q]
  {
    RunKeeps(Init(), acts);
    var s := Run(Init(), acts);
    var x, y := s.pushed[i], s.pushed[j];
    if x in s.passed[q] {
      var k :| 0 <= k < |s.passed[q]| && s.passed[q][k] == x;
      assert LeavesAfter(s, q, s.passed[q][k]);
      NotTwice(s, q, x);
    } else {
      InLine(s, q, x, y);
    }
  }

  /** A departure that passed nothing due no later leaves none of that behind. */
  lemma InLine(s: State, q: nat, x: Event, y: Event)
    requires Inv(s) && q < |Line(s)| && Line(s)[q] == y && x in s.pushed && Overtakes(y, x)
    requires q < |s.passed| ==> x !in s.passed[q]
    ensures x in Line(s)[..q]
  {
    assert x in multiset(Line(s));
    var p :| 0 <= p < |Line(s)| && Line(s)[p] == x;
    assert Line(s)[..q][p] == x;
  }

  predicate Recycling(s: State) {
    s.phase.Draining? || s.phase.Clearing?
  }

  /** In every interleaving, an event that getNextEvent gives or drops leaves behind none pushed before it
      and due no later. */
  lemma NextLeavesInOrder(acts: seq<Action>, i: nat, j: nat)
    requires var s := Run(Init(), acts);
             && i < j < |s.pushed| && Leq(s.pushed[i].pos, s.pushed[j].pos)
             && !Recycling(s) && Proceed(s).left == s.left + [s.pushed[j]]
    ensures Run(Init(), acts).pushed[i] in Run(Init(), acts).left
  {
    RunKeeps(Init(), acts);
    var s := Run(Init(), acts);
    FirstLeaves(s, s.pushed[j]);
    InLine(s, |s.left|, s.pushed[i], s.pushed[j]);
    assert Line(s)[..|s.left|] == s.left;
  }

  lemma FirstLeaves(s: State, y: Event)
    requires !Recycling(s) && Proceed(s).left == s.left + [y]
    ensures s.sorted != [] && s.sorted[0] == y && Line(s)[|s.left|] == y
  {
    assert (s.left + [y])[|s.left|] == y;
  }

  /** recycleRemaining does let an event overtake: the first of two equal ones is in the list and the second
      in the queue when it begins. */
  lemma OvertakingWitness(pos: Pos, call: Call)
    requires !call.rolling && pos.whole > 0
    ensures var acts := [Pushes(pos), CallsNext(call), Proceeds, Proceeds, Proceeds, Pushes(pos), CallsRecycle,
                         Proceeds];
            var s := Run(Init(), acts);
            && |s.pushed| == 2 && s.left == [s.pushed[1]] && s.sorted == [s.pushed[0]] && s.recycled == [s.pushed[1]]
            && Overtakes(s.pushed[1], s.pushed[0])
  {
    var a := [Pushes(pos), CallsNext(call), Proceeds, Proceeds, Proceeds, Pushes(pos), CallsRecycle, Proceeds];
    var s1 := Push(Init(), pos);
    var s2 := s1.(phase := Filling(0, call));
    var s3 := Proceed(s2);
    var s4 := Proceed(s3);
    var s5 := Proceed(s4);
    var s6 := Push(s5, pos);
    var s7 := s6.(phase := Draining);
    assert s3.sorted == [Event(0, pos)] && s3.incoming == [];
    assert s5.phase == Idle && s5.sorted == s3.sorted;
    RunEight(Init(), a);
  }

  lemma RunEight(s: State, a: seq<Action>)
    requires |a| == 8
    ensures Run(s, a) == Step(Step(Step(Step(Step(Step(Step(Step(s, a[0]), a[1]), a[2]), a[3]), a[4]), a[5]), a[6]),
                           a[7])
  {
    var s1 := Step(s, a[0]);
    assert a[1..][1..] == a[2..] && a[2..][1..] == a[3..] && a[3..][1..] == a[4..] && a[4..][1..] == a[5..];
    assert a[5..][1..] == a[6..] && a[6..][1..] == a[7..] && a[7..][1..] == [];
    var s2 := Step(s1, a[1]);
    assert Run(s, a) == Run(s2, a[2..]);
    var s3 := Step(s2, a[2]);
    var s4 := Step(s3, a[3]);
    assert Run(s2, a[2..]) == Run(s4, a[4..]);
    var s5 := Step(s4, a[4]);
    var s6 := Step(s5, a[5]);
    assert Run(s4, a[4..]) == Run(s6, a[6..]);
    var s7 := Step(s6, a[6]);
    assert Run(s6, a[6..]) == Run(Step(s7, a[7]), []);
  }
}
