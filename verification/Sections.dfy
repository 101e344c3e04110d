/** The meaning of repeats: a tune made of plain, repeated and variant sections, and what playing it
    amounts to when the repeats are written out. */
module Sections {
  import opened Tune
  import opened Playback

  // ---------- Written-out playing ----------

  function Apply(f: Feature, env: Settings): (r: Settings) {
    if f.kind.Channel? then env.(channel := f.pitch)
    else if f.kind.Transpose? then env.(transpose := f.pitch)
    else env
  }

  function After(x: Features, env: Settings): (r: Settings)
    decreases |x|
  {
    if x == [] then env else After(x[1..], Apply(x[0], env))
  }

  /** The last channel feature decides the channel, the last transpose feature the transposition. */
  lemma {:induction false} SettingsInForce(x: Features, env: Settings, i: nat)
    requires i <= |x|
    ensures After(x, env).divFactor == env.divFactor
    ensures i < |x| && x[i].kind.Channel? && (forall k :: i < k < |x| ==> !x[k].kind.Channel?) ==>
              After(x, env).channel == x[i].pitch
    ensures (forall k :: 0 <= k < |x| ==> !x[k].kind.Channel?) ==> After(x, env).channel == env.channel
    ensures i < |x| && x[i].kind.Transpose? && (forall k :: i < k < |x| ==> !x[k].kind.Transpose?) ==>
              After(x, env).transpose == x[i].pitch
    ensures (forall k :: 0 <= k < |x| ==> !x[k].kind.Transpose?) ==> After(x, env).transpose == env.transpose
    decreases |x|
  {
    if x != [] {
      assert forall k :: 1 <= k < |x| ==> x[k] == x[1..][k - 1];
      SettingsInForce(x[1..], Apply(x[0], env), if i > 0 then i - 1 else |x| - 1);
    }
  }

  /** A double bar is not played. */
  function Perform(x: Features, env: Settings): (r: seq<Event>)
    decreases |x|
  {
    if x == [] then []
    else (if x[0].kind.DoubleBar? then [] else [Event(x[0], env)]) + Perform(x[1..], Apply(x[0], env))
  }

  /** There is nothing in x to play. */
  predicate Void(x: Features) {
    forall k :: 0 <= k < |x| ==> x[k].kind.DoubleBar?
  }

  lemma {:induction false} VoidPlaysNothing(x: Features, env: Settings)
    ensures Perform(x, env) == [] <==> Void(x)
    decreases |x|
  {
    if x != [] {
      VoidPlaysNothing(x[1..], Apply(x[0], env));
      assert forall k :: 1 <= k < |x| ==> x[k] == x[1..][k - 1];
    }
  }

  lemma VoidJoin(x: Features, y: Features, env: Settings)
    ensures Perform(x + y, env) == [] <==> Void(x) && Void(y)
  {
    PerformJoin(x, y, env);
    VoidPlaysNothing(x, env);
    VoidPlaysNothing(y, After(x, env));
  }

  lemma {:induction false} PerformJoin(x: Features, y: Features, env: Settings)
    ensures Perform(x + y, env) == Perform(x, env) + Perform(y, After(x, env))
    ensures After(x + y, env) == After(y, After(x, env))
    decreases |x|
  {
    if x == [] {
      assert x + y == y;
    } else {
      assert (x + y)[1..] == x[1..] + y;
      PerformJoin(x[1..], y, Apply(x[0], env));
    }
  }

  /** Features that do not steer the repeat machine; a double bar does only in a variant ending. */
  predicate IsBody(x: Features) {
    forall k :: 0 <= k < |x| ==> x[k].kind.DoubleBar? || (!IsMark(x[k].kind) && !ClosesEnding(x[k].kind))
  }

  /** What can stand in a variant ending. */
  predicate IsEnding(x: Features) {
    forall k :: 0 <= k < |x| ==> !IsMark(x[k].kind) && !ClosesEnding(x[k].kind)
  }

  // ---------- Runs in pieces ----------

  /** What a control state leads to: all that is played from it, and where that ends. */
  type Run = Control -> (seq<Event>, Control)

  predicate Seen(a: Control) {
    true
  }

  /** run follows the turns of the loop. */
  ghost predicate Follows(t: Features, v: int, run: Run) {
    forall a {:trigger Seen(a)} :: Seen(a) && Inv(t, a) && a.j < |t| ==>
      run(a) == (Emitted(t, a) + run(Next(t, v, a)).0, run(Next(t, v, a)).1)
  }

  /** Running from a is playing ev and then running from b. */
  ghost predicate Leads(t: Features, run: Run, a: Control, ev: seq<Event>, b: Control) {
    Inv(t, a) && Inv(t, b) && run(a) == (ev + run(b).0, run(b).1)
  }

  lemma LeadsOne(t: Features, v: int, run: Run, a: Control)
    requires Follows(t, v, run) && Inv(t, a) && a.j < |t|
    ensures Leads(t, run, a, Emitted(t, a), Next(t, v, a))
  {
    assert Seen(a);
    NextProgress(t, v, a);
  }

  lemma LeadsNone(t: Features, run: Run, a: Control)
    requires Inv(t, a)
    ensures Leads(t, run, a, [], a)
  {
    assert [] + run(a).0 == run(a).0;
  }

  lemma LeadsTrans(t: Features, run: Run, a: Control, ev: seq<Event>, b: Control, ev': seq<Event>, c: Control)
    requires Leads(t, run, a, ev, b) && Leads(t, run, b, ev', c)
    ensures Leads(t, run, a, ev + ev', c)
  {
    assert (ev + ev') + run(c).0 == ev + (ev' + run(c).0);
  }

  lemma LeadsAfter(t: Features, run: Run, a: Control, b: Control, ev: seq<Event>, c: Control)
    requires Leads(t, run, a, [], b) && Leads(t, run, b, ev, c)
    ensures Leads(t, run, a, ev, c)
  {
    LeadsTrans(t, run, a, [], b, ev, c);
    assert [] + ev == ev;
  }

  lemma LeadsThen(t: Features, run: Run, a: Control, ev: seq<Event>, b: Control, c: Control)
    requires Leads(t, run, a, ev, b) && Leads(t, run, b, [], c)
    ensures Leads(t, run, a, ev, c)
  {
    LeadsTrans(t, run, a, ev, b, [], c);
    assert ev + [] == ev;
  }

  lemma {:induction false} LeadsBody(t: Features, v: int, run: Run, a: Control, n: nat)
    requires Follows(t, v, run) && Inv(t, a) && a.j + n <= |t| && IsBody(t[a.j..a.j + n])
    requires !a.inVarend || IsEnding(t[a.j..a.j + n])
    ensures var x := t[a.j..a.j + n];
            Leads(t, run, a, Perform(x, a.now), a.(j := a.j + n, now := After(x, a.now)))
    decreases n
  {
    var x := t[a.j..a.j + n];
    if n == 0 {
      LeadsNone(t, run, a);
    } else {
      var b := Next(t, v, a);
      assert t[a.j] == x[0] && x[1..] == t[b.j..b.j + (n - 1)];
      assert b == a.(j := a.j + 1, now := Apply(x[0], a.now));
      LeadsOne(t, v, run, a);
      LeadsBody(t, v, run, b, n - 1);
      LeadsTrans(t, run, a, Emitted(t, a), b, Perform(x[1..], b.now), a.(j := a.j + n, now := After(x, a.now)));
    }
  }

  // ---------- Sections ----------

  datatype Section =
    | Straight(body: Features)
    | Repeated(bodies: seq<Features>)                                    // |: X :: Y :|
    | Variants(body: Features, endings: seq<Features>, closer: Kind)     // |: X [1 Y :| [2 Z ||
  {
    predicate Ok() {
      match this
      case Straight(x) => IsBody(x)
      case Repeated(xs) => xs != [] && forall k :: 0 <= k < |xs| ==> IsBody(xs[k])
      case Variants(x, ys, c) =>
        IsBody(x) && |ys| >= 2 && (c.DoubleBar? || c.RepBar?) && forall k :: 0 <= k < |ys| ==> IsEnding(ys[k])
    }
  }

  function Bar(k: Kind): (f: Feature) {
    Feature(k, 0, 0, 0, 0, 0, 0, 0, "")
  }

  function Ending(n: int): (f: Feature) {
    Feature(PlayOnRep, 0, 0, n, 0, 0, 0, 0, "")
  }

  function PrintBodies(xs: seq<Features>): (r: Features)
    decreases |xs|
  {
    if xs == [] then []
    else xs[0] + [Bar(if |xs| == 1 then RepBar else DoubleRep)] + PrintBodies(xs[1..])
  }

  /** Endings n, n + 1, ... */
  function PrintEndings(ys: seq<Features>, n: int, closer: Kind): (r: Features)
    decreases |ys|
  {
    if ys == [] then []
    else [Ending(n)] + ys[0] + [Bar(if |ys| == 1 then closer else RepBar)] + PrintEndings(ys[1..], n + 1, closer)
  }

  function Print(s: Section): (r: Features) {
    match s
    case Straight(x) => x
    case Repeated(xs) => [Bar(BarRep)] + PrintBodies(xs)
    case Variants(x, ys, c) => [Bar(BarRep)] + x + PrintEndings(ys, 1, c)
  }

  // ---------- Repeats: |: X :: Y :| plays X X Y Y ----------

  function UnrollBodies(xs: seq<Features>, env: Settings): (r: seq<Event>)
    decreases |xs|
  {
    if xs == [] then []
    else Perform(xs[0], env) + Perform(xs[0], env) + UnrollBodies(xs[1..], After(xs[0], env))
  }

  function AfterBodies(xs: seq<Features>, env: Settings): (r: Settings)
    decreases |xs|
  {
    if xs == [] then env else AfterBodies(xs[1..], After(xs[0], env))
  }

  /** Just past |: or a :: that opens, with everything saved there. */
  predicate Opened(a: Control) {
    && a.expectRepeat && a.pass == 1 && a.maxpass == 2 && !a.inVarend
    && a.j == a.savedJ + 1 && a.saved == a.now
  }

  /** Between sections: no repeat is open. */
  predicate Settled(a: Control) {
    !a.expectRepeat && !a.inVarend
  }

  predicate At(t: Features, j: nat, x: Features) {
    j + |x| <= |t| && t[j..j + |x|] == x
  }

  lemma AtSplit(t: Features, j: nat, x: Features, y: Features)
    requires At(t, j, x + y)
    ensures At(t, j, x) && At(t, j + |x|, y)
  {
    assert t[j..j + |x|] == (x + y)[..|x|] == x;
    assert t[j + |x|..j + |x| + |y|] == (x + y)[|x|..] == y;
  }

  lemma AtBar(t: Features, j: nat, f: Feature)
    requires At(t, j, [f])
    ensures j < |t| && t[j] == f
  {
    assert t[j..j + 1][0] == f;
  }

  /** X :| or X :: after an opening mark plays X twice, both times with the saved settings. */
  lemma LeadsTwice(t: Features, v: int, run: Run, a: Control, x: Features, bar: Kind) returns (c: Control)
    requires Follows(t, v, run) && Inv(t, a) && Opened(a) && IsBody(x) && (bar.RepBar? || bar.DoubleRep?)
    requires At(t, a.j, x + [Bar(bar)])
    ensures Leads(t, run, a, Perform(x, a.now) + Perform(x, a.now), c)
    ensures c.now == After(x, a.now) && c.j == a.j + |x| + 1 && c.errors == a.errors
    ensures if bar.DoubleRep? then Opened(c) else Settled(c)
  {
    AtSplit(t, a.j, x, [Bar(bar)]);
    AtBar(t, a.j + |x|, Bar(bar));
    LeadsBody(t, v, run, a, |x|);
    var b1 := a.(j := a.j + |x|, now := After(x, a.now));
    LeadsOne(t, v, run, b1);
    var a2 := Next(t, v, b1);
    assert a2.j == a.j && a2.now == a.now && a2.pass == 2;
    LeadsBody(t, v, run, a2, |x|);
    var b2 := a2.(j := a.j + |x|, now := After(x, a.now));
    LeadsOne(t, v, run, b2);
    c := Next(t, v, b2);
    LeadsThen(t, run, a, Perform(x, a.now), b1, a2);
    LeadsThen(t, run, a2, Perform(x, a.now), b2, c);
    LeadsTrans(t, run, a, Perform(x, a.now), a2, Perform(x, a.now), c);
  }

  lemma {:induction false} LeadsBodies(t: Features, v: int, run: Run, a: Control, xs: seq<Features>)
      returns (c: Control)
    requires Follows(t, v, run) && Inv(t, a) && Opened(a) && xs != [] && At(t, a.j, PrintBodies(xs))
    requires forall k :: 0 <= k < |xs| ==> IsBody(xs[k])
    ensures Leads(t, run, a, UnrollBodies(xs, a.now), c)
    ensures Settled(c) && c.now == AfterBodies(xs, a.now) && c.j == a.j + |PrintBodies(xs)| && c.errors == a.errors
    decreases |xs|
  {
    var bar := if |xs| == 1 then RepBar else DoubleRep;
    AtSplit(t, a.j, xs[0] + [Bar(bar)], PrintBodies(xs[1..]));
    var b := LeadsTwice(t, v, run, a, xs[0], bar);
    if |xs| == 1 {
      c := b;
      assert UnrollBodies(xs[1..], b.now) == [];
      assert UnrollBodies(xs, a.now) == Perform(xs[0], a.now) + Perform(xs[0], a.now);
    } else {
      c := LeadsBodies(t, v, run, b, xs[1..]);
      LeadsTrans(t, run, a, Perform(xs[0], a.now) + Perform(xs[0], a.now), b, UnrollBodies(xs[1..], b.now), c);
    }
  }

  lemma LeadsOpen(t: Features, v: int, run: Run, a: Control) returns (b: Control)
    requires Follows(t, v, run) && Inv(t, a) && Settled(a) && At(t, a.j, [Bar(BarRep)])
    ensures Leads(t, run, a, [], b) && Opened(b) && b.j == a.j + 1 && b.now == a.now && b.errors == a.errors
  {
    AtBar(t, a.j, Bar(BarRep));
    LeadsOne(t, v, run, a);
    b := Next(t, v, a);
  }

  // ---------- Variant endings: |: X [1 Y :| [2 Z || plays X Y X Z ----------

  /** Pass p and the passes after it. The machine counts no further than four passes, and a closing
      :| sends it back once more when it has not counted that far. */
  function UnrollPasses(x: Features, ys: seq<Features>, closer: Kind, p: nat, env: Settings): (r: seq<Event>)
    requires 1 <= p <= 4
    decreases 4 - p
  {
    if p > |ys| then Perform(x, env)
    else if p == 4 || (p == |ys| && closer.DoubleBar?) then Perform(x + ys[p - 1], env)
    else Perform(x + ys[p - 1], env) + UnrollPasses(x, ys, closer, p + 1, env)
  }

  function AfterPasses(x: Features, ys: seq<Features>, closer: Kind, p: nat, env: Settings): (r: Settings)
    requires 1 <= p <= 4
    decreases 4 - p
  {
    if p > |ys| then After(x, env)
    else if p == 4 || (p == |ys| && closer.DoubleBar?) then After(x + ys[p - 1], env)
    else AfterPasses(x, ys, closer, p + 1, env)
  }

  lemma {:induction false} SkipBody(t: Features, j: nat, n: nat, v: int)
    requires j + n < |t| && IsEnding(t[j..j + n]) && ClosesEnding(t[j + n].kind)
    ensures SkipEnding(t, j, v) == j + n && ToVoice(t, j, v) == j
    decreases n
  {
    if n > 0 {
      assert t[j] == t[j..j + n][0];
      assert t[j + 1..j + 1 + (n - 1)] == t[j..j + n][1..];
      SkipBody(t, j + 1, n - 1, v);
    }
  }

  predicate Closing(k: Kind) {
    k.RepBar? || k.DoubleBar?
  }

  /** In the middle of a pass, in front of an ending. */
  predicate Passing(a: Control) {
    (a.expectRepeat || a.pass > 1) && !a.inVarend
  }

  lemma LeadsPastEnding(t: Features, v: int, run: Run, a: Control, n: int, y: Features, bar: Kind) returns (b: Control)
    requires Follows(t, v, run) && Inv(t, a) && Passing(a) && a.pass != n && n != 0 && IsEnding(y) && Closing(bar)
    requires At(t, a.j, [Ending(n)] + y + [Bar(bar)])
    ensures b == a.(j := a.j + |y| + 2) && Leads(t, run, a, [], b)
  {
    b := NextPastEnding(t, v, a, n, y, bar);
    LeadsOne(t, v, run, a);
  }

  lemma EndingSkipped(t: Features, v: int, j: nat, n: int, y: Features, bar: Kind)
    requires IsEnding(y) && Closing(bar) && At(t, j, [Ending(n)] + y + [Bar(bar)])
    ensures j + 1 + |y| < |t| && t[j] == Ending(n) && t[j + 1 + |y|].kind == bar
    ensures SkipEnding(t, ToVoice(t, j + 1, v), v) == j + 1 + |y|
  {
    AtSplit(t, j, [Ending(n)] + y, [Bar(bar)]);
    AtSplit(t, j, [Ending(n)], y);
    AtBar(t, j, Ending(n));
    AtBar(t, j + 1 + |y|, Bar(bar));
    SkipBody(t, j + 1, |y|, v);
  }

  lemma NextPastEnding(t: Features, v: int, a: Control, n: int, y: Features, bar: Kind) returns (b: Control)
    requires Passing(a) && a.pass != n && n != 0 && IsEnding(y) && Closing(bar)
    requires At(t, a.j, [Ending(n)] + y + [Bar(bar)])
    ensures a.j < |t| && t[a.j] == Ending(n) && b == Next(t, v, a) == a.(j := a.j + |y| + 2)
  {
    EndingSkipped(t, v, a.j, n, y, bar);
    b := Next(t, v, a);
  }

  lemma LeadsThroughEnding(t: Features, v: int, run: Run, a: Control, n: int, y: Features) returns (b: Control)
    requires Follows(t, v, run) && Inv(t, a) && Passing(a) && a.pass == n && IsEnding(y)
    requires At(t, a.j, [Ending(n)] + y)
    ensures Leads(t, run, a, Perform(y, a.now), b)
    ensures b == a.(j := a.j + 1 + |y|, now := After(y, a.now), inVarend := true,
                    maxpass := if a.maxpass < 4 then a.pass + 1 else a.maxpass)
  {
    AtSplit(t, a.j, [Ending(n)], y);
    AtBar(t, a.j, Ending(n));
    LeadsOne(t, v, run, a);
    var m := Next(t, v, a);
    LeadsBody(t, v, run, m, |y|);
    b := m.(j := m.j + |y|, now := After(y, m.now));
    LeadsAfter(t, run, a, m, Perform(y, a.now), b);
  }

  ghost predicate EndingsOk(ys: seq<Features>, closer: Kind) {
    Closing(closer) && forall k :: 0 <= k < |ys| ==> IsEnding(ys[k])
  }

  lemma EndingsSplit(t: Features, j: nat, ys: seq<Features>, n: int, closer: Kind)
    requires ys != [] && At(t, j, PrintEndings(ys, n, closer))
    ensures var bar := if |ys| == 1 then closer else RepBar;
            && At(t, j, [Ending(n)] + ys[0] + [Bar(bar)])
            && At(t, j, [Ending(n)] + ys[0])
            && At(t, j + 1 + |ys[0]|, [Bar(bar)])
            && At(t, j + |ys[0]| + 2, PrintEndings(ys[1..], n + 1, closer))
  {
    var bar := if |ys| == 1 then closer else RepBar;
    AtSplit(t, j, [Ending(n)] + ys[0] + [Bar(bar)], PrintEndings(ys[1..], n + 1, closer));
    AtSplit(t, j, [Ending(n)] + ys[0], [Bar(bar)]);
  }

  lemma {:induction false} LeadsPastEndings(t: Features, v: int, run: Run, a: Control, ys: seq<Features>, n: int,
                                            closer: Kind)
      returns (b: Control)
    requires Follows(t, v, run) && Inv(t, a) && Passing(a) && n >= 1 && EndingsOk(ys, closer)
    requires a.pass < n || a.pass >= n + |ys|
    requires At(t, a.j, PrintEndings(ys, n, closer))
    ensures b == a.(j := a.j + |PrintEndings(ys, n, closer)|) && Leads(t, run, a, [], b)
    decreases |ys|
  {
    if ys == [] {
      b := a;
      LeadsNone(t, run, a);
    } else {
      EndingsSplit(t, a.j, ys, n, closer);
      var m := LeadsPastEnding(t, v, run, a, n, ys[0], if |ys| == 1 then closer else RepBar);
      b := LeadsPastEndings(t, v, run, m, ys[1..], n + 1, closer);
      LeadsAfter(t, run, a, m, [], b);
    }
  }

  /** The ending of the current pass is found and played up to its closing bar. */
  lemma {:induction false} LeadsToEnding(t: Features, v: int, run: Run, a: Control, ys: seq<Features>, n: int,
                                         closer: Kind)
      returns (b: Control, rest: seq<Features>)
    requires Follows(t, v, run) && Inv(t, a) && Passing(a) && 1 <= n <= a.pass < n + |ys| && EndingsOk(ys, closer)
    requires At(t, a.j, PrintEndings(ys, n, closer))
    ensures EndingReached(t, run, a, ys, n, closer, b, rest)
    decreases |ys|
  {
    EndingsSplit(t, a.j, ys, n, closer);
    if a.pass == n {
      rest := ys[1..];
      b := LeadsThroughEnding(t, v, run, a, n, ys[0]);
      EndingNow(t, run, a, ys, n, closer, b);
    } else {
      var m := LeadsPastEnding(t, v, run, a, n, ys[0], if |ys| == 1 then closer else RepBar);
      b, rest := LeadsToEnding(t, v, run, m, ys[1..], n + 1, closer);
      EndingLater(t, run, a, m, ys, n, closer, b, rest);
    }
  }

  /** The ending of this pass has been played, and these follow it. */
  ghost predicate EndingReached(t: Features, run: Run, a: Control, ys: seq<Features>, n: int, closer: Kind,
                                b: Control, rest: seq<Features>)
  {
    && 0 <= a.pass - n < |ys| && rest == ys[a.pass - n + 1..]
    && Leads(t, run, a, Perform(ys[a.pass - n], a.now), b)
    && b == a.(j := b.j, now := After(ys[a.pass - n], a.now), inVarend := true,
               maxpass := if a.maxpass < 4 then a.pass + 1 else a.maxpass)
    && At(t, b.j, [Bar(if rest == [] then closer else RepBar)])
    && At(t, b.j + 1, PrintEndings(rest, a.pass + 1, closer))
    && b.j + 1 + |PrintEndings(rest, a.pass + 1, closer)| == a.j + |PrintEndings(ys, n, closer)|
  }

  lemma EndingsLength(ys: seq<Features>, n: int, closer: Kind)
    requires ys != []
    ensures |PrintEndings(ys, n, closer)| == |ys[0]| + 2 + |PrintEndings(ys[1..], n + 1, closer)|
  {
  }

  lemma EndingNow(t: Features, run: Run, a: Control, ys: seq<Features>, n: int, closer: Kind, b: Control)
    requires ys != [] && a.pass == n && Leads(t, run, a, Perform(ys[0], a.now), b)
    requires b == a.(j := a.j + 1 + |ys[0]|, now := After(ys[0], a.now), inVarend := true,
                     maxpass := if a.maxpass < 4 then a.pass + 1 else a.maxpass)
    requires At(t, a.j + 1 + |ys[0]|, [Bar(if |ys| == 1 then closer else RepBar)])
    requires At(t, a.j + |ys[0]| + 2, PrintEndings(ys[1..], n + 1, closer))
    ensures EndingReached(t, run, a, ys, n, closer, b, ys[1..])
  {
    EndingsLength(ys, n, closer);
    assert ys[a.pass - n + 1..] == ys[1..];
  }

  lemma EndingLater(t: Features, run: Run, a: Control, m: Control, ys: seq<Features>, n: int, closer: Kind,
                    b: Control, rest: seq<Features>)
    requires ys != [] && n < a.pass && m == a.(j := a.j + |ys[0]| + 2) && Leads(t, run, a, [], m)
    requires EndingReached(t, run, m, ys[1..], n + 1, closer, b, rest)
    ensures EndingReached(t, run, a, ys, n, closer, b, rest)
  {
    assert ys[1..][a.pass - (n + 1)] == ys[a.pass - n];
    assert ys[1..][a.pass - (n + 1) + 1..] == ys[a.pass - n + 1..];
    LeadsAfter(t, run, a, m, Perform(ys[a.pass - n], a.now), b);
    EndingsLength(ys, n, closer);
  }

  /** Pass p is about to begin, right after |: with the settings saved there. */
  predicate PassStart(a: Control, p: int) {
    && a.pass == p && a.expectRepeat == (p == 1) && a.maxpass == (if p == 1 then 2 else p)
    && !a.inVarend && a.j == a.savedJ + 1 && a.saved == a.now
  }

  lemma {:induction false} LeadsPasses(t: Features, v: int, run: Run, a: Control, x: Features, ys: seq<Features>,
                                       closer: Kind, p: nat)
      returns (c: Control)
    requires Follows(t, v, run) && Inv(t, a) && 1 <= p <= 4 && PassStart(a, p) && |ys| >= 2 && p <= |ys| + 1
    requires IsBody(x) && EndingsOk(ys, closer)
    requires At(t, a.j, x + PrintEndings(ys, 1, closer))
    ensures Leads(t, run, a, UnrollPasses(x, ys, closer, p, a.now), c)
    ensures Settled(c) && c.now == AfterPasses(x, ys, closer, p, a.now) && c.errors == a.errors
    ensures c.j == a.j + |x + PrintEndings(ys, 1, closer)|
    decreases 4 - p, 1
  {
    var end := PrintEndings(ys, 1, closer);
    AtSplit(t, a.j, x, end);
    LeadsBody(t, v, run, a, |x|);
    var b := a.(j := a.j + |x|, now := After(x, a.now));
    if p > |ys| {
      c := LeadsPastEndings(t, v, run, b, ys, 1, closer);
      LeadsThen(t, run, a, Perform(x, a.now), b, c);
    } else {
      var m, rest := LeadsToEnding(t, v, run, b, ys, 1, closer);
      PerformJoin(x, ys[p - 1], a.now);
      LeadsTrans(t, run, a, Perform(x, a.now), b, Perform(ys[p - 1], b.now), m);
      c := LeadsFromBar(t, v, run, a, m, x, ys, closer, p, rest);
    }
  }

  /** The bar that closes the ending of pass p: back for another pass, or on. */
  lemma LeadsFromBar(t: Features, v: int, run: Run, a: Control, m: Control, x: Features, ys: seq<Features>,
                     closer: Kind, p: nat, rest: seq<Features>) returns (c: Control)
    requires Follows(t, v, run) && Inv(t, a) && 1 <= p <= 4 && PassStart(a, p) && |ys| >= 2 && p <= |ys|
    requires IsBody(x) && EndingsOk(ys, closer)
    requires At(t, a.j, x + PrintEndings(ys, 1, closer))
    requires Leads(t, run, a, Perform(x + ys[p - 1], a.now), m) && rest == ys[p..]
    requires m == a.(j := m.j, now := After(x + ys[p - 1], a.now), inVarend := true,
                     maxpass := if a.maxpass < 4 then p + 1 else a.maxpass)
    requires At(t, m.j, [Bar(if rest == [] then closer else RepBar)])
    requires At(t, m.j + 1, PrintEndings(rest, p + 1, closer))
    requires m.j + 1 + |PrintEndings(rest, p + 1, closer)| == a.j + |x + PrintEndings(ys, 1, closer)|
    ensures Leads(t, run, a, UnrollPasses(x, ys, closer, p, a.now), c)
    ensures Settled(c) && c.now == AfterPasses(x, ys, closer, p, a.now) && c.errors == a.errors
    ensures c.j == a.j + |x + PrintEndings(ys, 1, closer)|
    decreases 4 - p, 0
  {
    var ev := Perform(x + ys[p - 1], a.now);
    AtBar(t, m.j, Bar(if rest == [] then closer else RepBar));
    LeadsOne(t, v, run, m);
    var n := Next(t, v, m);
    LeadsThen(t, run, a, ev, m, n);
    if p == 4 {
      c := LeadsPastEndings(t, v, run, n, rest, p + 1, closer);
      LeadsThen(t, run, a, ev, n, c);
    } else if rest == [] && closer.DoubleBar? {
      c := n;
      assert PrintEndings(rest, p + 1, closer) == [];
    } else {
      c := LeadsPasses(t, v, run, n, x, ys, closer, p + 1);
      LeadsTrans(t, run, a, ev, n, UnrollPasses(x, ys, closer, p + 1, a.now), c);
    }
  }

  // ---------- Whole tunes ----------

  /** What the machine plays of a section. */
  function Unroll(s: Section, env: Settings): (r: seq<Event>) {
    match s
    case Straight(x) => Perform(x, env)
    case Repeated(xs) => UnrollBodies(xs, env)
    case Variants(x, ys, c) => UnrollPasses(x, ys, c, 1, env)
  }

  function AfterSection(s: Section, env: Settings): (r: Settings) {
    match s
    case Straight(x) => After(x, env)
    case Repeated(xs) => AfterBodies(xs, env)
    case Variants(x, ys, c) => AfterPasses(x, ys, c, 1, env)
  }

  function PrintAll(ss: seq<Section>): (r: Features) {
    if ss == [] then [] else Print(ss[0]) + PrintAll(ss[1..])
  }

  function UnrollAll(ss: seq<Section>, env: Settings): (r: seq<Event>) {
    if ss == [] then [] else Unroll(ss[0], env) + UnrollAll(ss[1..], AfterSection(ss[0], env))
  }

  /** From a, where section s begins, to c behind it. */
  ghost predicate SectionPlayed(t: Features, run: Run, a: Control, s: Section, c: Control)
    requires s.Ok()
  {
    && Leads(t, run, a, Unroll(s, a.now), c)
    && Settled(c) && c.now == AfterSection(s, a.now) && c.errors == a.errors && c.j == a.j + |Print(s)|
  }

  lemma LeadsRepeated(t: Features, v: int, run: Run, a: Control, s: Section) returns (c: Control)
    requires Follows(t, v, run) && Inv(t, a) && Settled(a) && s.Repeated? && s.Ok() && At(t, a.j, Print(s))
    ensures SectionPlayed(t, run, a, s, c)
  {
    AtSplit(t, a.j, [Bar(BarRep)], PrintBodies(s.bodies));
    var b := LeadsOpen(t, v, run, a);
    c := LeadsBodies(t, v, run, b, s.bodies);
    LeadsAfter(t, run, a, b, UnrollBodies(s.bodies, a.now), c);
  }

  lemma LeadsVariants(t: Features, v: int, run: Run, a: Control, s: Section) returns (c: Control)
    requires Follows(t, v, run) && Inv(t, a) && Settled(a) && s.Variants? && s.Ok() && At(t, a.j, Print(s))
    ensures SectionPlayed(t, run, a, s, c)
  {
    var Variants(x, ys, closer) := s;
    assert [Bar(BarRep)] + x + PrintEndings(ys, 1, closer) == [Bar(BarRep)] + (x + PrintEndings(ys, 1, closer));
    AtSplit(t, a.j, [Bar(BarRep)], x + PrintEndings(ys, 1, closer));
    var b := LeadsOpen(t, v, run, a);
    c := LeadsPasses(t, v, run, b, x, ys, closer, 1);
    LeadsAfter(t, run, a, b, UnrollPasses(x, ys, closer, 1, a.now), c);
  }

  lemma LeadsSection(t: Features, v: int, run: Run, a: Control, s: Section) returns (c: Control)
    requires Follows(t, v, run) && Inv(t, a) && Settled(a) && s.Ok() && At(t, a.j, Print(s))
    ensures SectionPlayed(t, run, a, s, c)
  {
    if s.Straight? {
      LeadsBody(t, v, run, a, |s.body|);
      c := a.(j := a.j + |s.body|, now := After(s.body, a.now));
    } else if s.Repeated? {
      c := LeadsRepeated(t, v, run, a, s);
    } else {
      c := LeadsVariants(t, v, run, a, s);
    }
  }

  lemma {:induction false} LeadsSections(t: Features, v: int, run: Run, a: Control, ss: seq<Section>)
      returns (c: Control)
    requires Follows(t, v, run) && Inv(t, a) && Settled(a) && At(t, a.j, PrintAll(ss))
    requires forall k :: 0 <= k < |ss| ==> ss[k].Ok()
    ensures Leads(t, run, a, UnrollAll(ss, a.now), c)
    ensures Settled(c) && c.errors == a.errors && c.j == a.j + |PrintAll(ss)|
    decreases |ss|
  {
    if ss == [] {
      c := a;
      LeadsNone(t, run, a);
    } else {
      AtSplit(t, a.j, Print(ss[0]), PrintAll(ss[1..]));
      var b := LeadsSection(t, v, run, a, ss[0]);
      c := LeadsSections(t, v, run, b, ss[1..]);
      LeadsTrans(t, run, a, Unroll(ss[0], a.now), b, UnrollAll(ss[1..], b.now), c);
      assert Unroll(ss[0], a.now) + UnrollAll(ss[1..], b.now) == UnrollAll(ss, a.now);
    }
  }

  /** Any tune made of sections is played as its written-out form, each pass from the settings saved
      at the opening mark; no repeat is left open and no error is reported. */
  lemma PlaybackUnrolls(ss: seq<Section>, v: int, env: Settings)
    requires forall k :: 0 <= k < |ss| ==> ss[k].Ok()
    ensures var t := PrintAll(ss);
            && Played(t, v, Start(t, v, 0, env)) == UnrollAll(ss, env)
            && Final(t, v, Start(t, v, 0, env)).errors == 0
            && !Final(t, v, Start(t, v, 0, env)).expectRepeat
  {
    var t := PrintAll(ss);
    var run := RunOf(t, v);
    var a := Start(t, v, 0, env);
    assert At(t, 0, PrintAll(ss));
    var c := LeadsSections(t, v, run, a, ss);
    Over(t, v, run, a, UnrollAll(ss, env), c);
  }

  // ---------- Repeats that were not opened, or not closed ----------

  /** run is what playing t amounts to. */
  ghost predicate Plays(t: Features, v: int, run: Run) {
    Follows(t, v, run) && forall c {:trigger run(c)} :: Inv(t, c) ==> run(c) == (Played(t, v, c), Final(t, v, c))
  }

  lemma RunOf(t: Features, v: int) returns (run: Run)
    ensures Plays(t, v, run)
  {
    run := c => if Inv(t, c) then (Played(t, v, c), Final(t, v, c)) else ([], c);
    forall c | Seen(c) && Inv(t, c) && c.j < |t|
      ensures run(c) == (Emitted(t, c) + run(Next(t, v, c)).0, run(Next(t, v, c)).1)
    {
      NextProgress(t, v, c);
    }
  }

  /** X :| Y where nothing is open plays X Y, with an error. */
  lemma StrayPlays(x: Features, y: Features, v: int, env: Settings)
    requires IsBody(x) && IsBody(y)
    ensures var t := x + [Bar(RepBar)] + y;
            && Played(t, v, Start(t, v, 0, env)) == Perform(x, env) + Perform(y, After(x, env))
            && Final(t, v, Start(t, v, 0, env)).errors == 1
  {
    var t := x + [Bar(RepBar)] + y;
    var run := RunOf(t, v);
    var a := Start(t, v, 0, env);
    assert At(t, 0, x + [Bar(RepBar)] + y);
    AtSplit(t, 0, x + [Bar(RepBar)], y);
    AtSplit(t, 0, x, [Bar(RepBar)]);
    AtBar(t, |x|, Bar(RepBar));
    LeadsBody(t, v, run, a, |x|);
    var b := a.(j := |x|, now := After(x, env));
    LeadsOne(t, v, run, b);
    var c := Next(t, v, b);
    LeadsBody(t, v, run, c, |y|);
    var d := c.(j := |t|, now := After(y, c.now));
    LeadsThen(t, run, a, Perform(x, env), b, c);
    LeadsTrans(t, run, a, Perform(x, env), c, Perform(y, c.now), d);
    Over(t, v, run, a, Perform(x, env) + Perform(y, c.now), d);
  }

  lemma Over(t: Features, v: int, run: Run, a: Control, ev: seq<Event>, d: Control)
    requires Plays(t, v, run) && Leads(t, run, a, ev, d) && d.j >= |t|
    ensures Played(t, v, a) == ev && Final(t, v, a) == d
  {
    assert run(d) == ([], d);
    assert ev + [] == ev;
  }

  /** X :: Y :| where nothing is open plays X Y Y, with an error. */
  lemma UnopenedPlays(x: Features, y: Features, v: int, env: Settings)
    requires IsBody(x) && IsBody(y)
    ensures var t := x + [Bar(DoubleRep)] + (y + [Bar(RepBar)]);
            var e := After(x, env);
            && Played(t, v, Start(t, v, 0, env)) == Perform(x, env) + (Perform(y, e) + Perform(y, e))
            && Final(t, v, Start(t, v, 0, env)).errors == 1
  {
    var t := x + [Bar(DoubleRep)] + (y + [Bar(RepBar)]);
    var run := RunOf(t, v);
    var a := Start(t, v, 0, env);
    assert At(t, 0, x + [Bar(DoubleRep)] + (y + [Bar(RepBar)]));
    AtSplit(t, 0, x + [Bar(DoubleRep)], y + [Bar(RepBar)]);
    AtSplit(t, 0, x, [Bar(DoubleRep)]);
    AtBar(t, |x|, Bar(DoubleRep));
    LeadsBody(t, v, run, a, |x|);
    var b := a.(j := |x|, now := After(x, env));
    LeadsOne(t, v, run, b);
    var c := Next(t, v, b);
    var d := LeadsTwice(t, v, run, c, y, RepBar);
    LeadsThen(t, run, a, Perform(x, env), b, c);
    LeadsTrans(t, run, a, Perform(x, env), c, Perform(y, c.now) + Perform(y, c.now), d);
    Over(t, v, run, a, Perform(x, env) + (Perform(y, c.now) + Perform(y, c.now)), d);
  }

  /** |: X |: Y :| plays X Y Y, with an error: the second |: is where the repeat begins. */
  lemma ReopenedPlays(x: Features, y: Features, v: int, env: Settings)
    requires IsBody(x) && IsBody(y)
    ensures var t := [Bar(BarRep)] + x + [Bar(BarRep)] + (y + [Bar(RepBar)]);
            var e := After(x, env);
            && Played(t, v, Start(t, v, 0, env)) == Perform(x, env) + (Perform(y, e) + Perform(y, e))
            && Final(t, v, Start(t, v, 0, env)).errors == 1
  {
    var t := [Bar(BarRep)] + x + [Bar(BarRep)] + (y + [Bar(RepBar)]);
    var run := RunOf(t, v);
    var a := Start(t, v, 0, env);
    assert At(t, 0, [Bar(BarRep)] + x + [Bar(BarRep)] + (y + [Bar(RepBar)]));
    AtSplit(t, 0, [Bar(BarRep)] + x + [Bar(BarRep)], y + [Bar(RepBar)]);
    AtSplit(t, 0, [Bar(BarRep)] + x, [Bar(BarRep)]);
    AtSplit(t, 0, [Bar(BarRep)], x);
    var o := LeadsOpen(t, v, run, a);
    AtBar(t, 1 + |x|, Bar(BarRep));
    LeadsBody(t, v, run, o, |x|);
    var b := o.(j := 1 + |x|, now := After(x, env));
    LeadsOne(t, v, run, b);
    var c := Next(t, v, b);
    var d := LeadsTwice(t, v, run, c, y, RepBar);
    LeadsAfter(t, run, a, o, Perform(x, env), b);
    LeadsThen(t, run, a, Perform(x, env), b, c);
    LeadsTrans(t, run, a, Perform(x, env), c, Perform(y, c.now) + Perform(y, c.now), d);
    Over(t, v, run, a, Perform(x, env) + (Perform(y, c.now) + Perform(y, c.now)), d);
  }

  /** The double bar that is put behind the first line of music changes nothing that is played. */
  lemma PlaybackBehindDoubleBar(pre: Features, ss: seq<Section>, v: int, env: Settings)
    requires IsBody(pre) && forall k :: 0 <= k < |ss| ==> ss[k].Ok()
    ensures var t := pre + [Bar(DoubleBar)] + PrintAll(ss);
            && Played(t, v, Start(t, v, 0, env)) == Perform(pre, env) + UnrollAll(ss, After(pre, env))
            && Final(t, v, Start(t, v, 0, env)).errors == 0
  {
    var first := Straight(pre + [Bar(DoubleBar)]);
    assert ([first] + ss)[1..] == ss;
    PlaybackUnrolls([first] + ss, v, env);
    PerformJoin(pre, [Bar(DoubleBar)], env);
    var last := [Bar(DoubleBar)];
    assert last[1..] == [];
    assert Perform(last, After(pre, env)) == [] && After(last, After(pre, env)) == After(pre, env);
    assert Perform(pre, env) + [] == Perform(pre, env);
  }

  // ---------- Against the notation ----------

  /** The notation's meaning: the body with each ending in turn. */
  function EachEnding(x: Features, ys: seq<Features>, p: nat, env: Settings): (r: seq<Event>)
    requires p >= 1
    decreases |ys| - p
  {
    if p > |ys| then [] else Perform(x + ys[p - 1], env) + EachEnding(x, ys, p + 1, env)
  }

  /** Up to four endings, the last one closed by a double bar; with exactly four, :| will do. */
  predicate EndingsMeant(x: Features, ys: seq<Features>, closer: Kind) {
    if |ys| < 4 then closer.RepBar? ==> Void(x)
    else forall k :: 4 <= k < |ys| ==> Void(x) && Void(ys[k])
  }

  lemma {:induction false} NothingLeft(x: Features, ys: seq<Features>, p: nat, env: Settings)
    requires p >= 5
    ensures EachEnding(x, ys, p, env) == [] <==> forall k :: p - 1 <= k < |ys| ==> Void(x) && Void(ys[k])
    decreases |ys| - p
  {
    if p <= |ys| {
      NothingLeft(x, ys, p + 1, env);
      VoidJoin(x, ys[p - 1], env);
    }
  }

  lemma {:induction false} PassesMeant(x: Features, ys: seq<Features>, closer: Kind, p: nat, env: Settings)
    requires 1 <= p <= 4 && p <= |ys| + 1 && Closing(closer)
    requires p == |ys| + 1 ==> closer.RepBar?
    ensures UnrollPasses(x, ys, closer, p, env) == EachEnding(x, ys, p, env) <==> EndingsMeant(x, ys, closer)
    decreases 4 - p
  {
    if p <= |ys| {
      var fst := Perform(x + ys[p - 1], env);
      if p == 4 {
        NothingLeft(x, ys, 5, env);
        Cancel(fst, [], EachEnding(x, ys, 5, env));
        assert fst + [] == fst;
      } else if p == |ys| && closer.DoubleBar? {
        assert EachEnding(x, ys, p + 1, env) == [];
        assert fst + [] == fst;
      } else {
        PassesMeant(x, ys, closer, p + 1, env);
        Cancel(fst, UnrollPasses(x, ys, closer, p + 1, env), EachEnding(x, ys, p + 1, env));
      }
    } else {
      VoidPlaysNothing(x, env);
    }
  }

  lemma Cancel<T>(a: seq<T>, b: seq<T>, c: seq<T>)
    ensures a + b == a + c <==> b == c
  {
    assert b == (a + b)[|a|..] && c == (a + c)[|a|..];
  }

  /** A variant section is played as the notation means exactly when it has at most four endings and
      the last is closed by a double bar, or has exactly four; otherwise the machine drops the
      endings after the fourth, or plays the body once too often. */
  lemma VariantsMeantIff(x: Features, ys: seq<Features>, closer: Kind, env: Settings)
    requires Variants(x, ys, closer).Ok()
    ensures Unroll(Variants(x, ys, closer), env) == EachEnding(x, ys, 1, env) <==> EndingsMeant(x, ys, closer)
  {
    PassesMeant(x, ys, closer, 1, env);
  }
}
