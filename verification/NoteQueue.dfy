/** The queue of notes waiting to end: a linked list in time order and a free list, both threaded
    through one array of 50 slots. A slot's delay counts from the moment its predecessor expires. */
module NoteQueue {
  import opened Fractions

  const QSIZE := 50

  /** The pitch of a request for the next accompaniment step, as opposed to a pending note. */
  const REQUEST := -1

  datatype Entry = Entry(delay: int, pitch: int, chan: int, effect: int)

  datatype Slot = Slot(entry: Entry, next: int)

  // ---------- The queue as a sequence ----------

  function Max(a: int, b: int): (r: int) {
    if a < b then b else a
  }

  function Min(a: int, b: int): (r: int) {
    if a < b then a else b
  }

  /** The walk of addtoQ: wait is used up by the delays passed on the way. The entry found behind
      the new one loses wait, and notedelay on top of it, but never goes below zero. */
  function Insert(q: seq<Entry>, e: Entry, notedelay: int): (r: seq<Entry>)
    ensures |r| == |q| + 1
  {
    if q == [] then [e]
    else if q[0].delay > e.delay then
      [e, q[0].(delay := Max(0, q[0].delay - e.delay - notedelay))] + q[1..]
    else
      [q[0]] + Insert(q[1..], e.(delay := e.delay - q[0].delay), notedelay)
  }

  /** Only the head may hold a negative delay. */
  ghost predicate Ordered(q: seq<Entry>) {
    forall k :: 0 < k < |q| ==> q[k].delay >= 0
  }

  /** When the k-th entry expires, counted from now. */
  function Deadline(q: seq<Entry>, k: nat): (d: int)
    requires k < |q|
    decreases k
  {
    if k == 0 then q[0].delay else Deadline(q, k - 1) + q[k].delay
  }

  lemma {:induction false} DeadlineTail(q: seq<Entry>, k: nat)
    requires 0 < k < |q|
    ensures Deadline(q, k) == q[0].delay + Deadline(q[1..], k - 1)
    decreases k
  {
    if k > 1 {
      DeadlineTail(q, k - 1);
    }
  }

  lemma {:induction false} DeadlinePrefix(q: seq<Entry>, p: seq<Entry>, k: nat)
    requires k < |q| && k < |p| && q[..k + 1] == p[..k + 1]
    ensures Deadline(q, k) == Deadline(p, k)
    decreases k
  {
    assert q[k] == q[..k + 1][k] == p[..k + 1][k] == p[k];
    if k > 0 {
      assert q[..k] == q[..k + 1][..k] == p[..k + 1][..k] == p[..k];
      DeadlinePrefix(q, p, k - 1);
    }
  }

  lemma {:induction false} DeadlinesMonotone(q: seq<Entry>, j: nat, k: nat)
    requires Ordered(q) && j <= k < |q|
    ensures Deadline(q, j) <= Deadline(q, k)
    decreases k
  {
    if j < k {
      DeadlinesMonotone(q, j, k - 1);
    }
  }

  /** How many entries expire by the given time: where a new entry of that deadline goes. */
  function Expired(q: seq<Entry>, time: int): (n: nat)
    ensures n <= |q|
  {
    if q == [] || q[0].delay > time then 0 else 1 + Expired(q[1..], time - q[0].delay)
  }

  lemma {:induction false} ExpiredIsCount(q: seq<Entry>, time: int)
    requires Ordered(q)
    ensures forall k :: 0 <= k < |q| ==> (k < Expired(q, time) <==> Deadline(q, k) <= time)
  {
    if q != [] {
      forall k | 0 <= k < |q|
        ensures k < Expired(q, time) <==> Deadline(q, k) <= time
      {
        DeadlinesMonotone(q, 0, k);
        if k > 0 {
          ExpiredIsCount(q[1..], time - q[0].delay);
          DeadlineTail(q, k);
        }
      }
    }
  }

  /** An entry but for its delay. */
  predicate Same(a: Entry, b: Entry) {
    a.pitch == b.pitch && a.chan == b.chan && a.effect == b.effect
  }

  /** By how much addtoQ moves the later entries forward. */
  function Pull(q: seq<Entry>, wait: int, notedelay: int): (s: int)
  {
    var p := Expired(q, wait);
    if p == |q| then 0 else Min(notedelay, Deadline(q, p) - wait)
  }

  /** r is q with e inserted at its deadline: what is due no later stays as it was, all that is due
      later moves forward by one common amount, never past e. */
  ghost predicate InsertedAt(q: seq<Entry>, e: Entry, pull: int, p: nat, r: seq<Entry>) {
    && p <= |q| && |r| == |q| + 1
    && r[..p] == q[..p]
    && Same(r[p], e) && Deadline(r, p) == e.delay
    && (forall k :: p <= k < |q| ==> Moved(q, r, k, pull) && Deadline(q, k) - pull >= e.delay)
  }

  /** The k-th entry of q comes one place later in r and expires earlier by pull. */
  ghost predicate Moved(q: seq<Entry>, r: seq<Entry>, k: nat, pull: int)
    requires k < |q| && |r| == |q| + 1
  {
    Same(r[k + 1], q[k]) && Deadline(r, k + 1) == Deadline(q, k) - pull
  }

  /** addtoQ is a stable insertion by absolute deadline. */
  lemma {:induction false} InsertRefines(q: seq<Entry>, e: Entry, notedelay: int)
    requires Ordered(q)
    ensures Ordered(Insert(q, e, notedelay))
    ensures InsertedAt(q, e, Pull(q, e.delay, notedelay), Expired(q, e.delay), Insert(q, e, notedelay))
    decreases |q|
  {
    if q == [] {
    } else if q[0].delay > e.delay {
      InsertedAtHead(q, e, notedelay);
    } else {
      var e' := e.(delay := e.delay - q[0].delay);
      InsertRefines(q[1..], e', notedelay);
      InsertedNonNegative(q[1..], e', notedelay);
      var r, r' := Insert(q, e, notedelay), Insert(q[1..], e', notedelay);
      assert r == [q[0]] + r';
      var p := Expired(q, e.delay);
      assert Pull(q, e.delay, notedelay) == Pull(q[1..], e'.delay, notedelay) by {
        if p < |q| {
          DeadlineTail(q, p);
        }
      }
      InsertedDeeper(q, e, Pull(q, e.delay, notedelay), p, r');
    }
  }

  lemma InsertedAtHead(q: seq<Entry>, e: Entry, notedelay: int)
    requires Ordered(q) && q != [] && q[0].delay > e.delay
    ensures InsertedAt(q, e, Pull(q, e.delay, notedelay), 0, Insert(q, e, notedelay))
  {
    var pull := Pull(q, e.delay, notedelay);
    forall k: nat | k < |q|
      ensures Moved(q, Insert(q, e, notedelay), k, pull) && Deadline(q, k) - pull >= e.delay
    {
      HeadDeadlines(q, e, notedelay, k);
      DeadlinesMonotone(q, 0, k);
    }
  }

  /** An insertion into the tail is an insertion into the whole. */
  lemma InsertedDeeper(q: seq<Entry>, e: Entry, pull: int, p: nat, r': seq<Entry>)
    requires q != [] && p > 0
    requires InsertedAt(q[1..], e.(delay := e.delay - q[0].delay), pull, p - 1, r')
    ensures InsertedAt(q, e, pull, p, [q[0]] + r')
  {
    var r := [q[0]] + r';
    assert r[1..] == r';
    assert r[..p] == q[..p] by {
      assert r[..p] == [q[0]] + r'[..p - 1];
      assert q[..p] == [q[0]] + q[1..][..p - 1];
    }
    DeadlineTail(r, p);
    forall k: nat | p <= k < |q|
      ensures Moved(q, r, k, pull) && Deadline(q, k) - pull >= e.delay
    {
      assert Moved(q[1..], r', k - 1, pull);
      DeadlineTail(r, k + 1);
      DeadlineTail(q, k);
    }
  }

  lemma {:induction false} HeadDeadlines(q: seq<Entry>, e: Entry, notedelay: int, k: nat)
    requires k < |q| && q[0].delay > e.delay
    ensures Same(Insert(q, e, notedelay)[k + 1], q[k])
    ensures Deadline(Insert(q, e, notedelay), k + 1)
         == Deadline(q, k) - Min(notedelay, q[0].delay - e.delay)
    decreases k
  {
    var r := Insert(q, e, notedelay);
    if k == 0 {
      assert Deadline(r, 0) == e.delay;
    } else {
      HeadDeadlines(q, e, notedelay, k - 1);
      assert r[k + 1] == q[k];
    }
  }

  /** A non-negative wait never makes the head negative. */
  lemma InsertedNonNegative(q: seq<Entry>, e: Entry, notedelay: int)
    requires e.delay >= 0 && (q != [] ==> q[0].delay >= 0)
    ensures Insert(q, e, notedelay)[0].delay >= 0
  {
  }

  // ---------- Chains threaded through the array ----------

  /** Following next from slot `from` visits exactly the slots s and then reaches `to`. */
  ghost predicate Seg(a: seq<Slot>, from: int, s: seq<int>, to: int)
    decreases s
  {
    if s == [] then from == to
    else from == s[0] && 0 <= from < |a| && Seg(a, a[from].next, s[1..], to)
  }

  lemma {:induction false} SegJoin(a: seq<Slot>, from: int, s: seq<int>, mid: int, t: seq<int>, to: int)
    requires Seg(a, from, s, mid) && Seg(a, mid, t, to)
    ensures Seg(a, from, s + t, to)
    decreases s
  {
    if s == [] {
      assert s + t == t;
    } else {
      SegJoin(a, a[from].next, s[1..], mid, t, to);
      assert (s + t)[1..] == s[1..] + t;
    }
  }

  ghost predicate InRange(s: seq<int>, n: int) {
    forall k :: 0 <= k < |s| ==> 0 <= s[k] < n
  }

  lemma {:induction false} SegFrame(a: seq<Slot>, b: seq<Slot>, from: int, s: seq<int>, to: int)
    requires Seg(a, from, s, to) && |a| == |b| && InRange(s, |a|)
    requires forall k :: 0 <= k < |s| ==> a[s[k]].next == b[s[k]].next
    ensures Seg(b, from, s, to)
    decreases s
  {
    if s != [] {
      SegFrame(a, b, a[from].next, s[1..], to);
    }
  }

  ghost function Entries(a: seq<Slot>, s: seq<int>): (r: seq<Entry>)
    requires InRange(s, |a|)
  {
    seq(|s|, k requires 0 <= k < |s| => a[s[k]].entry)
  }

  lemma {:induction false} SegInit(a: seq<Slot>, from: int, s: seq<int>, to: int)
    requires s != [] && Seg(a, from, s, to) && InRange(s, |a|)
    ensures Seg(a, from, s[..|s| - 1], s[|s| - 1]) && a[s[|s| - 1]].next == to
    decreases s
  {
    if |s| > 1 {
      SegInit(a, a[from].next, s[1..], to);
      assert s[1..][..|s| - 2] == s[..|s| - 1][1..];
    } else {
      assert s[1..] == [];
    }
  }

  /** Storing i where the pointer to the k-th slot of a chain was splices i into the chain. */
  lemma Spliced(a: seq<Slot>, b: seq<Slot>, head: int, head': int, s: seq<int>, k: nat, cur: int, i: int)
    requires k <= |s| && |a| == |b| && InRange(s, |a|) && 0 <= i < |a|
    requires Distinct(s) && i !in s
    requires Seg(a, head, s[..k], cur) && Seg(a, cur, s[k..], -1)
    requires b[i].next == cur
    requires if k == 0 then head' == i else head' == head && b[s[k - 1]].next == i
    requires forall j :: 0 <= j < |s| && j != k - 1 ==> b[s[j]].next == a[s[j]].next
    ensures Seg(b, head', s[..k] + [i] + s[k..], -1)
  {
    SegFrame(a, b, cur, s[k..], -1);
    assert ([i] + s[k..])[1..] == s[k..];
    if k == 0 {
      assert s[..k] + [i] + s[k..] == [i] + s[k..];
    } else {
      var prev := s[k - 1];
      SegInit(a, head, s[..k], cur);
      assert s[..k][..k - 1] == s[..k - 1];
      SegFrame(a, b, head, s[..k - 1], prev);
      assert ([prev] + ([i] + s[k..]))[1..] == [i] + s[k..];
      SegJoin(b, head, s[..k - 1], prev, [prev] + ([i] + s[k..]), -1);
      assert s[..k - 1] + ([prev] + ([i] + s[k..])) == s[..k] + [i] + s[k..];
    }
  }

  ghost predicate Distinct(s: seq<int>) {
    forall i, j :: 0 <= i < j < |s| ==> s[i] != s[j]
  }

  function Upto(n: nat): (r: set<int>)
    ensures forall i :: i in r <==> 0 <= i < n
  {
    if n == 0 then {} else Upto(n - 1) + {n - 1}
  }

  lemma {:induction false} UptoSize(n: nat)
    ensures |Upto(n)| == n
  {
    if n > 0 {
      UptoSize(n - 1);
    }
  }

  function Elements(s: seq<int>): (r: set<int>)
    ensures forall x :: x in r <==> x in s
  {
    if s == [] then {} else {s[0]} + Elements(s[1..])
  }

  lemma {:induction false} DistinctSize(s: seq<int>)
    requires Distinct(s)
    ensures |Elements(s)| == |s|
  {
    if s != [] {
      assert forall j :: 0 <= j < |s[1..]| ==> s[1..][j] == s[j + 1];
      DistinctSize(s[1..]);
    }
  }

  lemma SubsetSameSize(a: set<int>, b: set<int>)
    requires a <= b && |a| == |b|
    ensures a == b
  {
    assert |b - a| == |b| - |a|;
  }

  /** The two chains share no slot, repeat none, and together have the size of the array. */
  ghost predicate Partition(chain: seq<int>, free: seq<int>) {
    && Distinct(chain + free)
    && |chain| + |free| == QSIZE
    && InRange(chain, QSIZE) && InRange(free, QSIZE)
  }

  ghost predicate Apart(s: seq<int>, t: seq<int>) {
    forall j, k :: 0 <= j < |s| && 0 <= k < |t| ==> s[j] != t[k]
  }

  lemma DistinctApart(s: seq<int>, t: seq<int>)
    requires Distinct(s + t)
    ensures Distinct(s) && Distinct(t) && Apart(s, t)
  {
    assert forall k :: 0 <= k < |s| ==> (s + t)[k] == s[k];
    assert forall k :: 0 <= k < |t| ==> (s + t)[|s| + k] == t[k];
  }

  lemma Pigeonhole(s: seq<int>, n: nat, i: int)
    requires Distinct(s) && InRange(s, n) && |s| == n && 0 <= i < n
    ensures i in s
  {
    DistinctSize(s);
    UptoSize(n);
    SubsetSameSize(Elements(s), Upto(n));
    assert i in Elements(s);
  }

  /** Then no slot is lost: each of the 50 is in one of the chains and in one only. */
  lemma PartitionCovers(chain: seq<int>, free: seq<int>, i: int)
    requires Partition(chain, free) && 0 <= i < 50
    ensures i in chain <==> i !in free
  {
    var all := chain + free;
    Pigeonhole(all, |all|, i);
    if i in chain && i in free {
      var j :| 0 <= j < |chain| && chain[j] == i;
      var k :| 0 <= k < |free| && free[k] == i;
      DistinctApart(chain, free);
      assert false;
    }
  }

  /** The first free slot is in neither the chain nor the rest of the free list. */
  lemma HeadFresh(chain: seq<int>, free: seq<int>)
    requires Partition(chain, free) && free != []
    ensures free[0] !in chain && free[0] !in free[1..]
    ensures Distinct(chain) && Apart(chain, free)
  {
    DistinctApart(chain, free);
  }

  /** The two chains as the array holds them. */
  ghost predicate Threaded(a: seq<Slot>, head: int, freehead: int, chain: seq<int>, free: seq<int>) {
    && |a| == QSIZE + 1
    && InRange(chain, |a|)
    && Seg(a, head, chain, -1)
    && Seg(a, freehead, free, -1)
    && Ordered(Entries(a, chain))
  }

  lemma PartitionMoved(chain: seq<int>, free: seq<int>, i: int, k: nat)
    requires Partition(chain, [i] + free) && k <= |chain|
    ensures Partition(chain[..k] + [i] + chain[k..], free)
  {
    var all := chain + ([i] + free);
    var s := chain[..k] + [i] + chain[k..];
    var n := |chain|;
    assert forall j :: 0 <= j < |s + free| ==>
      (s + free)[j] == all[if j < k then j else if j == k then n else if j <= n then j - 1 else j];
    assert InRange(free, QSIZE) by {
      assert forall j :: 0 <= j < |free| ==> free[j] == ([i] + free)[j + 1];
    }
    assert i == ([i] + free)[0];
  }

  /** One step along a chain: the visited part grows by the slot stepped over. */
  lemma WalkStep(a: seq<Slot>, head: int, s: seq<int>, k: nat, cur: int)
    requires k < |s| && cur == s[k] && InRange(s, |a|)
    requires Seg(a, head, s[..k], cur) && Seg(a, cur, s[k..], -1)
    ensures Seg(a, head, s[..k + 1], a[cur].next) && Seg(a, a[cur].next, s[k + 1..], -1)
    ensures a[cur].next == (if k + 1 == |s| then -1 else s[k + 1])
  {
    assert s[k..][0] == cur && s[k..][1..] == s[k + 1..];
    assert [cur][1..] == [];
    SegJoin(a, head, s[..k], cur, [cur], a[cur].next);
    assert s[..k + 1] == s[..k] + [cur];
    if k + 1 < |s| {
      assert s[k + 1..][0] == s[k + 1];
    }
  }

  lemma InsertStep(q: seq<Entry>, k: nat, e: Entry, notedelay: int)
    requires k < |q| && q[k].delay <= e.delay
    ensures q[..k] + Insert(q[k..], e, notedelay)
         == q[..k + 1] + Insert(q[k + 1..], e.(delay := e.delay - q[k].delay), notedelay)
  {
    assert q[k..][0] == q[k] && q[k..][1..] == q[k + 1..];
    assert q[..k + 1] == q[..k] + [q[k]];
  }

  /** The place before the k-th slot of a chain: prev points to cur. */
  ghost predicate Place(a: seq<Slot>, head: int, s: seq<int>, k: nat, prev: int, cur: int) {
    && k <= |s|
    && prev == (if k == 0 then -1 else s[k - 1])
    && cur == (if k == |s| then -1 else s[k])
    && Seg(a, head, s[..k], cur) && Seg(a, cur, s[k..], -1)
  }

  /** The stores of addtoQ, from array a to array b, link slot i in before the k-th of the chain. */
  lemma LinkedIn(a: seq<Slot>, b: seq<Slot>, head: int, head': int, s: seq<int>, k: nat,
                 prev: int, cur: int, i: int, wait: int, notedelay: int)
    requires |a| == |b| && InRange(s, |a|) && 0 <= i < |a|
    requires Distinct(s) && i !in s && Place(a, head, s, k, prev, cur)
    requires k < |s| ==> a[cur].entry.delay > wait
    requires b[i] == Slot(a[i].entry.(delay := wait), cur)
    requires if k == 0 then head' == i else head' == head && b[s[k - 1]] == a[s[k - 1]].(next := i)
    requires k < |s| ==>
      b[cur] == a[cur].(entry := a[cur].entry.(delay := Max(0, a[cur].entry.delay - wait - notedelay)))
    requires forall j :: 0 <= j < |s| && j != k - 1 && j != k ==> b[s[j]] == a[s[j]]
    ensures Seg(b, head', s[..k] + [i] + s[k..], -1)
    ensures InRange(s[..k] + [i] + s[k..], |a|)
    ensures Entries(b, s[..k] + [i] + s[k..])
         == Entries(a, s)[..k] + Insert(Entries(a, s)[k..], a[i].entry.(delay := wait), notedelay)
  {
    Spliced(a, b, head, head', s, k, cur, i);
    EntriesLinked(a, b, s, k, i, a[i].entry.(delay := wait), notedelay);
  }

  lemma EntriesLinked(a: seq<Slot>, b: seq<Slot>, s: seq<int>, k: nat, i: int, e: Entry, notedelay: int)
    requires |a| == |b| && InRange(s, |a|) && 0 <= i < |a| && k <= |s| && b[i].entry == e
    requires k < |s| ==> var x := a[s[k]].entry;
               x.delay > e.delay && b[s[k]].entry == x.(delay := Max(0, x.delay - e.delay - notedelay))
    requires forall j :: 0 <= j < |s| && j != k ==> b[s[j]].entry == a[s[j]].entry
    ensures InRange(s[..k] + [i] + s[k..], |a|)
    ensures Entries(b, s[..k] + [i] + s[k..]) == Entries(a, s)[..k] + Insert(Entries(a, s)[k..], e, notedelay)
  {
    var r, q := s[..k] + [i] + s[k..], Entries(a, s);
    var q' := q[..k] + Insert(q[k..], e, notedelay);
    forall j | 0 <= j < |r|
      ensures b[r[j]].entry == q'[j]
    {
      if j < k {
        assert r[j] == s[j];
      } else if j > k {
        assert r[j] == s[j - 1] && q[k..][j - 1 - k] == q[j - 1];
      }
    }
    assert Entries(b, r) == q';
  }

  lemma HeadMoved(chain: seq<int>, free: seq<int>)
    requires Partition(chain, free) && chain != []
    ensures Partition(chain[1..], [chain[0]] + free)
    ensures chain[0] !in chain[1..] && chain[0] !in free
  {
    DistinctApart(chain, free);
    assert chain[1..] + ([chain[0]] + free) == chain[1..] + [chain[0]] + free;
    var s, t := chain + free, chain[1..] + ([chain[0]] + free);
    var n := |chain| - 1;
    assert forall j :: 0 <= j < |t| ==> t[j] == s[if j < n then j + 1 else if j == n then 0 else j];
  }

  // ---------- The array ----------

  class Queue {
    const Q: array<Slot>
    var Qhead: int
    var freehead: int
    var freetail: int
    ghost var chain: seq<int>
    ghost var free: seq<int>

    ghost predicate Valid()
      reads this, Q
    {
      Threaded(Q[..], Qhead, freehead, chain, free) && Partition(chain, free)
    }

    ghost function Contents(): (q: seq<Entry>)
      requires Valid()
      reads this, Q
      ensures |q| == |chain| <= QSIZE && Ordered(q)
    {
      Entries(Q[..], chain)
    }

    /** Qinit */
    constructor ()
      ensures Valid() && fresh(Q)
      ensures Contents() == []
    {
      Q := new Slot[QSIZE + 1](_ => Slot(Entry(0, 0, 0, 0), -1));
      Qhead := -1;
      freehead := 0;
      freetail := QSIZE - 1;
      new;
      var i := 0;
      while i < QSIZE - 1
        invariant 0 <= i <= QSIZE - 1
        invariant Qhead == -1 && freehead == 0
        invariant forall k :: 0 <= k < i ==> Q[k].next == k + 1
      {
        Q[i] := Q[i].(next := i + 1);
        i := i + 1;
      }
      Q[QSIZE - 1] := Q[QSIZE - 1].(next := -1);
      chain := [];
      free := Ascending(0, QSIZE);
      AscendingSeg(Q[..], 0, QSIZE);
      assert chain + free == free;
    }

    /** Between taking slot i off the free list and linking it into the queue. */
    ghost predicate Holding(i: int)
      reads this, Q
    {
      Threaded(Q[..], Qhead, freehead, chain, free) && Partition(chain, [i] + free)
    }

    /** addtoQ; the caller's globals div_factor and notedelay are passed in. The result says whether
        there was a free slot: if not, nothing changes and the source reports an error. */
    method AddToQ(num: int, denom: int, pitch: int, chan: int, effect: int, d: int,
                  div_factor: int, notedelay: int) returns (added: bool)
      requires Valid() && denom != 0
      modifies this, Q
      ensures Valid()
      ensures added <==> old(|Contents()|) < 50
      ensures !added ==> Contents() == old(Contents())
      ensures added ==> Contents() == Insert(old(Contents()),
                          Entry(CDiv(div_factor * num, denom) + d, pitch, chan, effect), notedelay)
    {
      var wait := CDiv(div_factor * num, denom) + d;
      ghost var q := Contents();
      if freehead == -1 {
        assert free == [];
        return false;
      }
      var i := freehead;
      TakeFree(Entry(wait, pitch, chan, effect));
      var prev, cur, left, k := FindPlace(i, notedelay);
      InsertRefines(q, Entry(wait, pitch, chan, effect), notedelay);
      LinkIn(i, prev, cur, left, notedelay, k);
      return true;
    }

    method TakeFree(e: Entry)
      requires Valid() && freehead != -1
      modifies this`freehead, this`free, Q
      ensures Holding(old(freehead)) && Q[old(freehead)].entry == e
      ensures Entries(Q[..], chain) == old(Contents())
    {
      var i := freehead;
      ghost var was := Q[..];
      assert free[0] == i && [i] + free[1..] == free;
      HeadFresh(chain, free);
      freehead := Q[freehead].next;
      free := free[1..];
      Q[i] := Q[i].(entry := e);
      SegFrame(was, Q[..], Qhead, chain, -1);
      assert Entries(Q[..], chain) == Entries(was, chain);
      SegFrame(was, Q[..], freehead, free, -1);
    }

    /** The walk along the chain to the first slot that expires later than wait. */
    method FindPlace(i: int, notedelay: int) returns (prev: int, cur: int, wait: int, ghost k: nat)
      requires Threaded(Q[..], Qhead, freehead, chain, free) && 0 <= i < QSIZE
      ensures Place(Q[..], Qhead, chain, k, prev, cur)
      ensures cur != -1 ==> Q[cur].entry.delay > wait
      ensures var q := Entries(Q[..], chain);
              Insert(q, Q[i].entry, notedelay) == q[..k] + Insert(q[k..], Q[i].entry.(delay := wait), notedelay)
    {
      ghost var a, s, e := Q[..], chain, Q[i].entry;
      ghost var q := Entries(a, s);
      ghost var r := Insert(q, e, notedelay);
      prev, cur, wait, k := -1, Qhead, Q[i].entry.delay, 0;
      assert r == q[..0] + Insert(q[0..], e, notedelay) by {
        assert q[0..] == q;
      }
      assert s[0..] == s;
      while cur != -1 && Q[cur].entry.delay <= wait
        invariant Place(a, Qhead, s, k, prev, cur)
        invariant r == q[..k] + Insert(q[k..], e.(delay := wait), notedelay)
        decreases |s| - k
      {
        WalkStep(a, Qhead, s, k, cur);
        InsertStep(q, k, e.(delay := wait), notedelay);
        wait := wait - Q[cur].entry.delay;
        prev, cur, k := cur, Q[cur].next, k + 1;
      }
    }

    method LinkIn(i: int, prev: int, cur: int, wait: int, notedelay: int, ghost k: nat)
      requires Holding(i) && 0 <= i < QSIZE
      requires Place(Q[..], Qhead, chain, k, prev, cur)
      requires cur != -1 ==> Q[cur].entry.delay > wait
      requires Ordered(Entries(Q[..], chain)[..k]
               + Insert(Entries(Q[..], chain)[k..], Q[i].entry.(delay := wait), notedelay))
      modifies this, Q
      ensures Valid()
      ensures Contents() == old(Entries(Q[..], chain)[..k]
                                + Insert(Entries(Q[..], chain)[k..], Q[i].entry.(delay := wait), notedelay))
    {
      HeadFresh(chain, [i] + free);
      PartitionMoved(chain, free, i, k);
      ghost var a := Q[..];
      if cur != -1 {
        var rest := Q[cur].entry.delay - wait - notedelay;
        if rest < 0 {
          rest := 0;
        }
        Q[cur] := Q[cur].(entry := Q[cur].entry.(delay := rest));
      }
      Q[i] := Slot(Q[i].entry.(delay := wait), cur);
      if prev == -1 {
        Qhead := i;
      } else {
        Q[prev] := Q[prev].(next := i);
      }
      LinkedIn(a, Q[..], old(Qhead), Qhead, chain, k, prev, cur, i, wait, notedelay);
      SegFrame(a, Q[..], freehead, free, -1);
      chain := chain[..k] + [i] + chain[k..];
    }

    predicate Empty()
      requires Valid()
      reads this, Q
      ensures Empty() <==> Contents() == []
    {
      Qhead == -1
    }

    function Head(): (e: Entry)
      requires Valid() && !Empty()
      reads this, Q
      ensures e == Contents()[0]
    {
      Q[Qhead].entry
    }

    /** The head slot goes to the front of the free list. */
    method Unlink()
      requires Valid() && !Empty()
      modifies this, Q
      ensures Valid() && Contents() == old(Contents()[1..])
    {
      var i := Qhead;
      ghost var a, s := Q[..], chain;
      HeadMoved(s, free);
      assert s[0] == i;
      Qhead := Q[i].next;
      Q[i] := Q[i].(next := freehead);
      freehead := i;
      SegFrame(a, Q[..], Qhead, s[1..], -1);
      SegFrame(a, Q[..], Q[i].next, free, -1);
      assert ([i] + free)[1..] == free;
      assert Entries(Q[..], s[1..]) == Entries(a, s)[1..];
      chain, free := s[1..], [i] + free;
    }

    /** removefromQ on the head; a false result is the source's fatal internal error. */
    method RemoveFromQ() returns (ok: bool)
      requires Valid()
      modifies this, Q
      ensures Valid()
      ensures ok <==> old(Contents()) != [] && old(Contents())[0].delay == 0
      ensures Contents() == if ok then old(Contents())[1..] else old(Contents())
    {
      if Qhead == -1 {
        return false;
      }
      if Q[Qhead].entry.delay != 0 {
        return false;
      }
      Unlink();
      return true;
    }

    method AdvanceQ(t: int)
      requires Valid() && !Empty()
      modifies Q
      ensures Valid()
      ensures Contents() == [old(Head()).(delay := old(Head()).delay - t)] + old(Contents())[1..]
    {
      ghost var a := Q[..];
      Q[Qhead] := Q[Qhead].(entry := Q[Qhead].entry.(delay := Q[Qhead].entry.delay - t));
      SegFrame(a, Q[..], Qhead, chain, -1);
      SegFrame(a, Q[..], freehead, free, -1);
      DistinctApart(chain, free);
      assert Entries(Q[..], chain) == [a[Qhead].entry.(delay := a[Qhead].entry.delay - t)] + Entries(a, chain)[1..];
    }
  }

  /** The slots from i on, in the order of Qinit. */
  function Ascending(i: nat, n: nat): (s: seq<int>)
    requires i <= n
  {
    seq(n - i, k => i + k)
  }

  lemma {:induction false} AscendingSeg(a: seq<Slot>, i: nat, n: nat)
    requires i < n <= |a| && a[n - 1].next == -1
    requires forall k :: 0 <= k < n - 1 ==> a[k].next == k + 1
    ensures Seg(a, i, Ascending(i, n), -1)
    decreases n - i
  {
    if i < n - 1 {
      AscendingSeg(a, i + 1, n);
      assert Ascending(i, n)[1..] == Ascending(i + 1, n);
    } else {
      assert Ascending(i, n)[1..] == [];
    }
  }
}
