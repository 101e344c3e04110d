/** tiefix on a chord-free single voice: NOTE and TIE become TNOTE and RESTs, in place. */
module Ties {
  import opened Fractions
  import opened Tune

  /** addfract: both fractions are added and the sum brought to lowest terms. */
  function AddFract(x: Frac, f: Frac): (r: Frac)
    requires x.Ok() && f.Ok()
    ensures r.Ok() && r.Val() == x.Val() + f.Val()
  {
    var s := Frac(x.num * f.denom + f.num * x.denom, x.denom * f.denom);
    ReduceSound(s);
    FracSum(x, f);
    Reduced(s)
  }

  function Length(f: Feature): (r: Frac) {
    Frac(f.num, f.denom)
  }

  /** The time writetrack waits for a feature. */
  ghost function Delay(f: Feature): (r: real) {
    if (f.kind.Note? || f.kind.Rest?) && f.denom > 0 then Length(f).Val() else 0.0
  }

  /** The time waited for the features from lo up to hi. */
  ghost function Span(t: Features, lo: nat, hi: nat): (r: real)
    requires lo <= hi <= |t|
    decreases hi - lo
  {
    if lo == hi then 0.0 else Span(t, lo, hi - 1) + Delay(t[hi - 1])
  }

  lemma {:induction false} SpanJoin(t: Features, lo: nat, mid: nat, hi: nat)
    requires lo <= mid <= hi <= |t|
    ensures Span(t, lo, hi) == Span(t, lo, mid) + Span(t, mid, hi)
    decreases hi - mid
  {
    if mid < hi {
      SpanJoin(t, lo, mid, hi - 1);
    }
  }

  lemma {:induction false} SpanSame(t: Features, u: Features, lo: nat, hi: nat)
    requires lo <= hi <= |t| && |t| == |u| && forall k :: lo <= k < hi ==> Delay(t[k]) == Delay(u[k])
    ensures Span(t, lo, hi) == Span(u, lo, hi)
    decreases hi - lo
  {
    if lo < hi {
      SpanSame(t, u, lo, hi - 1);
    }
  }

  predicate IsBar(k: Kind) {
    k.SingleBar? || k.BarRep? || k.RepBar? || k.DoubleBar?
  }

  /** What a chord-free single voice may hold before ties are resolved. */
  ghost predicate SingleVoice(t: Features) {
    forall k :: 0 <= k < |t| ==>
      && !t[k].kind.ChordOn? && !t[k].kind.ChordOff? && !t[k].kind.ChordOffEx? && !t[k].kind.Voice?
      && ((t[k].kind.Note? || t[k].kind.TNote? || t[k].kind.Rest?) ==> t[k].num > 0 && t[k].denom > 0)
  }

  predicate Starts(k: Kind) {
    k.Note? || k.TNote?
  }

  /** From k up to e a tied note is covered: it lasts exactly as long as the rests there, and no other
      note begins. */
  ghost predicate Covers(t: Features, k: nat, e: nat)
    requires k < |t|
  {
    && k < e <= |t| && t[k].denom > 0
    && Length(t[k]).Val() == Span(t, k + 1, e)
    && forall i :: k < i < e ==> !Starts(t[i].kind)
  }

  /** Ties were joined on the way from t to u: time runs as before at every note that still begins, each
      joined note is covered by the stretch of t whose notes it joins, and those have its pitch. */
  ghost predicate Joined(t: Features, u: Features) {
    && |u| == |t|
    && (forall k :: 0 <= k < |t| ==> Became(t[k], u[k]))
    && Span(u, 0, |u|) == Span(t, 0, |t|)
    && (forall k :: 0 <= k < |u| && Starts(u[k].kind) ==> Span(u, 0, k) == Span(t, 0, k))
    && (forall k :: 0 <= k < |u| && u[k].kind.TNote? ==> exists e: nat :: JoinedTo(t, u, k, e))
  }

  ghost predicate JoinedTo(t: Features, u: Features, k: nat, e: nat)
    requires |u| == |t| && k < |u|
  {
    && Covers(u, k, e) && Span(u, k + 1, e) == Span(t, k, e)
    && forall i :: k < i < e && t[i].kind.Note? ==>
         u[i].kind.Rest? && u[i].pitch == u[k].pitch && Continues(t, k, i)
  }

  predicate Silent(k: Kind) {
    !k.Note? && !k.Rest?
  }

  ghost predicate TieJustBefore(t: Features, i: nat)
    requires i < |t|
  {
    exists q: nat :: q < i && t[q].kind.Tie? && forall x :: q < x < i ==> Silent(t[x].kind)
  }

  ghost predicate BarWithin(t: Features, lo: nat, hi: nat)
    requires hi <= |t|
  {
    exists b: nat :: lo < b < hi && IsBar(t[b].kind)
  }

  /** The note at i may be joined to the note at k: a tie leads into it, and it has the same pitch, or,
      past a bar line, the same place on the staff. */
  ghost predicate Continues(t: Features, k: nat, i: nat)
    requires k < i < |t|
  {
    && TieJustBefore(t, i)
    && (t[i].pitch == t[k].pitch || (t[i].line == t[k].line && BarWithin(t, k, i)))
  }

  /** Two equal notes with a tie between them and no bar line before the tie. */
  ghost predicate Equal3(t: Features, p: nat, q: nat, m: nat) {
    && p < q < m < |t| && t[p].kind.Note? && t[q].kind.Tie? && t[m].kind.Note?
    && (forall i :: p < i < m ==> Silent(t[i].kind)) && (forall i :: p < i < q ==> !IsBar(t[i].kind))
    && t[p].pitch == t[m].pitch && t[p].line == t[m].line
  }

  /** Two notes at the same place on the staff, with one tie between them and a bar line behind it. */
  ghost predicate Across3(t: Features, p: nat, q: nat, m: nat) {
    && p < q < m < |t| && t[p].kind.Note? && t[q].kind.Tie? && t[m].kind.Note?
    && (forall i :: p < i < m ==> Silent(t[i].kind)) && (forall i :: p < i < m && t[i].kind.Tie? ==> i == q)
    && BarWithin(t, q, m) && t[p].line == t[m].line
  }

  /** No tie up to place j is left undone: equal notes are joined, and so are the two notes at a place
      on the staff that a tie links across a bar line, unless the first was itself joined to another. */
  ghost predicate Complete(t: Features, u: Features, j: nat)
    requires |u| == |t|
  {
    && (forall p: nat, q: nat, m: nat :: Equal3(t, p, q, m) && (q < j || !u[p].kind.Note? || !u[q].kind.Tie?) ==>
        u[m].kind.Rest?)
    && (forall p: nat, q: nat, m: nat :: Across3(t, p, q, m) && (q < j || !u[p].kind.Note? || !u[q].kind.Tie?) ==>
          u[p].kind.Rest? || u[m].kind.Rest?)
  }

  /** A note may become tied or silent, a tie may become silent; nothing else changes. */
  predicate Became(f: Feature, g: Feature) {
    || g == f
    || (f.kind.Note? && g == f.(kind := TNote, num := g.num, denom := g.denom))
    || (f.kind.Note? && g == f.(kind := Rest, pitch := g.pitch))
    || (f.kind.Tie? && (g.kind.Rest? || g == f.(kind := OldTie)))
  }

  /** Every tied note is followed, before place j, by the rest its own tie became. */
  ghost predicate Anchored(u: Features, j: nat) {
    forall k :: 0 <= k < |u| && u[k].kind.TNote? ==> exists q: nat :: k < q < j && q < |u| && u[q].kind.Rest?
  }

  /** One tie resolved: all that changed lies between the tied note k and e. */
  ghost predicate TieDone(t: Features, u0: Features, u: Features, k: nat, j: nat, e: nat) {
    && |u0| == |t| && |u| == |t| && k < j < e <= |t|
    && u0[k].kind.Note? && u[k].kind.TNote? && u[j].kind.Rest?
    && JoinedTo(t, u, k, e) && Span(u, k, e) == Span(u0, k, e)
    && (forall i :: 0 <= i < |u| && (i < k || i >= e) ==> u[i] == u0[i])
    && (forall i :: k < i < e ==> Became(t[i], u[i]) && !Starts(u[i].kind))
    && Became(t[k], u[k])
  }

  /** Resolving one more tie keeps everything true of the ties resolved before. */
  lemma TieDoneJoins(t: Features, u0: Features, u: Features, k: nat, j: nat, e: nat)
    requires Joined(t, u0) && Anchored(u0, j) && TieDone(t, u0, u, k, j, e)
    requires forall i :: k < i < j ==> !u0[i].kind.Note? && !u0[i].kind.Rest?
    requires u0[k] == t[k]
    ensures Joined(t, u) && Anchored(u, j + 1)
  {
    forall i | 0 <= i <= |u| && (i <= k || i >= e)
      ensures Span(u, 0, i) == Span(u0, 0, i)
    {
      OutsideSame(u0, u, k, e, i);
    }
    forall p | 0 <= p < |u| && u[p].kind.TNote?
      ensures exists e': nat :: JoinedTo(t, u, p, e')
      ensures exists q: nat :: p < q < j + 1 && q < |u| && u[q].kind.Rest?
    {
      if p == k {
        assert JoinedTo(t, u, p, e);
      } else {
        OtherTieKept(t, u0, u, k, j, e, p);
      }
    }
  }

  lemma OutsideSame(u0: Features, u: Features, k: nat, e: nat, i: nat)
    requires |u| == |u0| && k < e <= |u| && i <= |u| && (i <= k || i >= e)
    requires forall i :: 0 <= i < |u| && (i < k || i >= e) ==> u[i] == u0[i]
    requires Span(u, k, e) == Span(u0, k, e)
    ensures Span(u, 0, i) == Span(u0, 0, i)
  {
    if i <= k {
      SpanSame(u0, u, 0, i);
    } else {
      SpanJoin(u, 0, k, e);
      SpanJoin(u0, 0, k, e);
      SpanJoin(u, 0, e, i);
      SpanJoin(u0, 0, e, i);
      SpanSame(u0, u, 0, k);
      SpanSame(u0, u, e, i);
    }
  }

  /** A tied note resolved before lies, with all that covers it, in front of the new one. */
  lemma OtherTieKept(t: Features, u0: Features, u: Features, k: nat, j: nat, e: nat, p: nat)
    requires Joined(t, u0) && Anchored(u0, j) && TieDone(t, u0, u, k, j, e)
    requires forall i :: k < i < j ==> !u0[i].kind.Note? && !u0[i].kind.Rest?
    requires p < |u| && p != k && u[p].kind.TNote? && (p < k || p >= e)
    ensures exists e': nat :: JoinedTo(t, u, p, e')
    ensures exists q: nat :: p < q < j && q < |u| && u[q].kind.Rest?
  {
    assert u0[p].kind.TNote?;
    var q: nat :| p < q < j && q < |u0| && u0[q].kind.Rest?;
    assert q < k;
    assert u[q].kind.Rest?;
    var e': nat :| JoinedTo(t, u0, p, e');
    assert Starts(u0[k].kind);
    assert e' <= k;
    SpanSame(u0, u, p + 1, e');
    assert JoinedTo(t, u, p, e');
  }

  /** The last note or rest before place j, or the first feature. */
  method FindTied(a: array<Feature>, j: nat) returns (k: nat)
    requires j < a.Length
    ensures k <= j && (k > 0 ==> a[k].kind.Note? || a[k].kind.Rest?)
    ensures forall i :: k < i <= j ==> !a[i].kind.Note? && !a[i].kind.Rest?
  {
    k := j;
    while k > 0 && !a[k].kind.Note? && !a[k].kind.Rest?
      invariant k <= j && forall i :: k < i <= j ==> !a[i].kind.Note? && !a[i].kind.Rest?
    {
      k := k - 1;
    }
  }

  /** The loop of dotie has run from tie j up to place, and joined what lies before e to note k. */
  ghost predicate Joining(t: Features, u0: Features, u: Features, k: nat, j: nat, e: nat, place: nat) {
    && k < j < e <= place <= |t| && TieDone(t, u0, u, k, j, e)
    && (forall i :: e <= i < place ==>
        Delay(t[i]) == 0.0 && Delay(u[i]) == 0.0 && !Starts(u[i].kind) && !t[i].kind.Note?)
  }

  /** u' is u with the matching note at place joined to k, and the tie before it spent. */
  ghost predicate JoinStep(t: Features, u0: Features, u: Features, u': Features, k: nat, j: nat, e: nat, place: nat,
                           lasttie: nat) {
    && Joining(t, u0, u, k, j, e, place) && place < |t| && j <= lasttie < place
    && u[place].kind.Note? && u[place] == t[place] == u0[place] && u[place].denom > 0
    && (lasttie == j || (u[lasttie].kind.Tie? && t[lasttie].kind.Tie?))
    && |u'| == |u|
    && u'[place] == u[place].(kind := Rest, pitch := u[k].pitch)
    && u'[k] == u[k].(num := u'[k].num, denom := u'[k].denom) && u'[k].denom > 0
    && Length(u'[k]).Val() == Length(u[k]).Val() + Length(u[place]).Val()
    && (lasttie != j ==> u'[lasttie] == u[lasttie].(kind := OldTie))
    && Continues(t, k, place)
    && forall i :: 0 <= i < |u| && i != k && i != place && (lasttie == j || i != lasttie) ==> u'[i] == u[i]
  }

  lemma JoinedLength(t: Features, u0: Features, u: Features, u': Features, k: nat, j: nat, e: nat, place: nat,
                     lasttie: nat)
    requires JoinStep(t, u0, u, u', k, j, e, place, lasttie)
    ensures Length(u'[k]).Val() == Span(u', k + 1, place + 1) == Span(t, k, place + 1)
  {
    SpanSame(u, u', k + 1, place);
    SpanJoin(u, k + 1, e, place);
    SpanJoin(t, k, e, place);
    ZeroSpan(u, e, place);
    ZeroSpan(t, e, place);
    SpanJoin(u', k + 1, place, place + 1);
    SpanJoin(t, k, place, place + 1);
  }

  lemma JoinSpans(t: Features, u0: Features, u: Features, u': Features, k: nat, j: nat, e: nat, place: nat,
                  lasttie: nat)
    requires JoinStep(t, u0, u, u', k, j, e, place, lasttie)
    ensures Length(u'[k]).Val() == Span(u', k + 1, place + 1) == Span(t, k, place + 1)
    ensures Span(u', k, place + 1) == Span(u0, k, place + 1)
  {
    JoinedLength(t, u0, u, u', k, j, e, place, lasttie);
    ZeroSpan(u, e, place);
    SpanJoin(u', k, k + 1, place + 1);
    SpanJoin(u, k, k + 1, e);
    SpanJoin(u0, k, e, place + 1);
    SpanJoin(u0, e, place, place + 1);
    SpanSame(u, u0, e, place);
  }

  lemma JoinNote(t: Features, u0: Features, u: Features, u': Features, k: nat, j: nat, e: nat, place: nat, lasttie: nat)
    requires Joined(t, u0) && JoinStep(t, u0, u, u', k, j, e, place, lasttie)
    ensures Joining(t, u0, u', k, j, place + 1, place + 1)
  {
    JoinSpans(t, u0, u, u', k, j, e, place, lasttie);
    forall i | k < i < place + 1
      ensures Became(t[i], u'[i]) && !Starts(u'[i].kind)
    {
      assert i < e ==> Became(t[i], u[i]);
      if e <= i < place {
        assert u[i] == u0[i] && Became(t[i], u0[i]);
      }
    }
  }

  lemma {:induction false} ZeroSpan(t: Features, lo: nat, hi: nat)
    requires lo <= hi <= |t| && forall i :: lo <= i < hi ==> Delay(t[i]) == 0.0
    ensures Span(t, lo, hi) == 0.0
    decreases hi - lo
  {
    if lo < hi {
      ZeroSpan(t, lo, hi - 1);
    }
  }

  lemma Positive(f: Frac)
    requires f.Ok()
    ensures f.Val() > 0.0 <==> f.num > 0
    ensures f.Val() == 0.0 <==> f.num == 0
  {
  }

  /** NOTE and TIE become TNOTE and REST. */
  lemma StartTie(t: Features, u0: Features, u: Features, k: nat, j: nat)
    requires Joined(t, u0) && Anchored(u0, j) && k < j < |t| && |u| == |t|
    requires forall i :: k < i < j ==> !u0[i].kind.Note? && !u0[i].kind.Rest?
    requires u0[k].kind.Note? && u0[k].denom > 0 && u0[j].kind.Tie?
    requires u[k] == u0[k].(kind := TNote)
    requires u[j] == u0[j].(kind := Rest, num := u0[k].num, denom := u0[k].denom)
    requires forall i :: 0 <= i < |u| && i != k && i != j ==> u[i] == u0[i]
    ensures Joining(t, u0, u, k, j, j + 1, j + 1)
  {
    forall i | k < i < j
      ensures Delay(u[i]) == 0.0 && Delay(u0[i]) == 0.0 && Delay(t[i]) == 0.0 && !Starts(u[i].kind) && !t[i].kind.Note?
    {
      if u0[i].kind.TNote? {
        assert false;
      }
      assert Became(t[i], u0[i]);
    }
    assert Became(t[k], u0[k]) && u0[k] == t[k];
    assert Became(t[j], u0[j]) && u0[j] == t[j];
    ZeroSpan(u, k + 1, j);
    ZeroSpan(t, k + 1, j);
    ZeroSpan(u0, k + 1, j);
    SpanJoin(u, k, k + 1, j + 1);
    SpanJoin(t, k, k + 1, j + 1);
    SpanJoin(u0, k, k + 1, j + 1);
  }

  /** A feature that neither waits nor begins is passed over. */
  lemma PassOver(t: Features, u0: Features, u: Features, k: nat, j: nat, e: nat, place: nat)
    requires Joined(t, u0) && Anchored(u0, j) && Joining(t, u0, u, k, j, e, place) && place < |t|
    requires !u[place].kind.Note? && !u[place].kind.Rest?
    ensures Joining(t, u0, u, k, j, e, place + 1)
  {
    assert u[place] == u0[place] && Became(t[place], u0[place]);
    if u0[place].kind.TNote? {
      assert false;
    }
  }

  // ---------- The search along a chain of ties ----------

  /** The loop of dotie is past j and has joined the notes up to last: silence since then. A tie is
      pending exactly if one was passed; newbar tells of a bar line, though a bar line between a note
      and its tie clears it. */
  ghost predicate Scanning(t: Features, k: nat, j: nat, last: nat, place: nat, tietodo: bool, newbar: bool) {
    && k <= last < place <= |t| && k < j < place && (last == k || last > j)
    && t[k].kind.Note? && t[j].kind.Tie? && t[last].kind.Note?
    && (forall i :: last < i < place ==> Silent(t[i].kind))
    && (tietodo <==> exists q: nat :: last < q < place && t[q].kind.Tie?)
    && (newbar ==> BarWithin(t, k, place))
    && (t[last].pitch == t[k].pitch || (t[last].line == t[k].line && (newbar || BarBeforeTie(t, last, place))))
    && (last == k ==> BarWithin(t, j, place) ==> newbar)
  }

  ghost predicate BarBeforeTie(t: Features, last: nat, place: nat)
    requires place <= |t|
  {
    exists b: nat :: last < b < place && IsBar(t[b].kind) && forall q :: last < q < b ==> !t[q].kind.Tie?
  }

  /** Nothing further continues the chain. */
  ghost predicate NoMore(t: Features, k: nat, last: nat) {
    forall q: nat, m: nat :: !Equal3(t, last, q, m) && (last == k ==> !Across3(t, k, q, m))
  }

  lemma BarWithinMore(t: Features, lo: nat, hi: nat, hi': nat)
    requires hi <= hi' <= |t| && BarWithin(t, lo, hi)
    ensures BarWithin(t, lo, hi')
  {
    var b: nat :| lo < b < hi && IsBar(t[b].kind);
  }

  lemma ScanOn(t: Features, k: nat, j: nat, last: nat, place: nat, tietodo: bool, newbar: bool)
    requires Scanning(t, k, j, last, place, tietodo, newbar) && place < |t| && Silent(t[place].kind)
    ensures Scanning(t, k, j, last, place + 1, tietodo || t[place].kind.Tie?,
                     if IsBar(t[place].kind) then tietodo else newbar)
  {
    var f := t[place];
    if t[place].kind.Tie? {
      assert last < place < place + 1;
    }
    if BarWithin(t, k, place) {
      BarWithinMore(t, k, place, place + 1);
    }
    if IsBar(f.kind) {
      assert k < place < place + 1 && IsBar(t[place].kind);
      if !tietodo {
        assert BarBeforeTie(t, last, place + 1);
      }
    } else if BarWithin(t, j, place + 1) {
      var b: nat :| j < b < place + 1 && IsBar(t[b].kind);
      assert b != place;
      assert BarWithin(t, j, place);
    }
    if BarBeforeTie(t, last, place) {
      var b: nat :| last < b < place && IsBar(t[b].kind) && forall q :: last < q < b ==> !t[q].kind.Tie?;
      assert BarBeforeTie(t, last, place + 1);
    }
  }

  predicate Matches(t: Features, k: nat, place: nat, newbar: bool)
    requires k < |t| && place < |t|
  {
    (t[place].line == t[k].line && newbar) || t[place].pitch == t[k].pitch
  }

  lemma ScanJoins(t: Features, k: nat, j: nat, last: nat, place: nat, newbar: bool)
    requires Scanning(t, k, j, last, place, true, newbar) && place < |t| && t[place].kind.Note?
    requires Matches(t, k, place, newbar)
    ensures Continues(t, k, place) && Scanning(t, k, j, place, place + 1, false, newbar)
  {
    assert TieJustBefore(t, place) by {
      var q: nat :| last < q < place && t[q].kind.Tie?;
      assert q < place && t[q].kind.Tie? && forall x :: q < x < place ==> Silent(t[x].kind);
    }
    if newbar {
      BarWithinMore(t, k, place, place + 1);
    }
  }

  lemma ScanFails(t: Features, k: nat, j: nat, last: nat, place: nat, tietodo: bool, newbar: bool)
    requires Scanning(t, k, j, last, place, tietodo, newbar) && place < |t| && t[place].kind.Note?
    requires !(tietodo && Matches(t, k, place, newbar))
    ensures NoMore(t, k, last)
  {
    forall q: nat, m: nat
      ensures !Equal3(t, last, q, m) && (last == k ==> !Across3(t, k, q, m))
    {
      if Equal3(t, last, q, m) {
        FirstAfter(t, last, m, place);
        if BarBeforeTie(t, last, place) {
          assert false;
        }
      } else if last == k && Across3(t, k, q, m) {
        FirstAfter(t, k, m, place);
        assert false;
      }
    }
  }

  lemma FirstAfter(t: Features, last: nat, m: nat, place: nat)
    requires last < m < |t| && last < place < |t| && !Silent(t[m].kind) && !Silent(t[place].kind)
    requires forall i :: last < i < m ==> Silent(t[i].kind)
    requires forall i :: last < i < place ==> Silent(t[i].kind)
    ensures m == place
  {
  }

  lemma ScanEnds(t: Features, k: nat, j: nat, last: nat, place: nat, tietodo: bool, newbar: bool)
    requires Scanning(t, k, j, last, place, tietodo, newbar) && (place == |t| || t[place].kind.Rest?)
    ensures NoMore(t, k, last)
  {
    forall q: nat, m: nat
      ensures !Equal3(t, last, q, m) && (last == k ==> !Across3(t, k, q, m))
    {
      if (Equal3(t, last, q, m) || Across3(t, last, q, m)) && place < |t| {
        FirstAfter(t, last, m, place);
      }
    }
  }

  // ---------- No tie is left undone ----------

  /** Nothing from hw on has changed yet, and the stretch just before it belongs to a resolved tie. */
  ghost predicate Fresh(t: Features, u: Features, hw: nat, j: nat) {
    && |u| == |t| && hw <= |t| && (forall i :: hw <= i < |t| ==> u[i] == t[i])
    && (hw > 0 ==> exists r: nat :: r < j && r < hw && u[r].kind.Rest? && forall i :: r <= i < hw ==> !u[i].kind.Note?)
  }

  /** The note a tie belongs to is untouched, and so is all that follows. */
  lemma TiedIsFresh(t: Features, u: Features, hw: nat, j: nat, k: nat)
    requires Fresh(t, u, hw, j) && k <= j < |u| && u[k].kind.Note?
    requires forall i :: k < i <= j ==> !u[i].kind.Note? && !u[i].kind.Rest?
    ensures k >= hw
  {
    if hw > 0 && k < hw {
      assert false;
    }
  }

  lemma TieCompletes(t: Features, u0: Features, u: Features, k: nat, j: nat, e: nat, last: nat)
    requires TieDone(t, u0, u, k, j, e) && Complete(t, u0, j) && NoMore(t, k, last)
    requires forall i :: k <= i < |t| ==> u0[i] == t[i]
    requires forall i :: k < i < j ==> Silent(t[i].kind)
    requires t[j].kind.Tie? && last == (if e == j + 1 then k else e - 1) && t[last].kind.Note?
    ensures Complete(t, u, j + 1)
  {
    forall p: nat, q: nat, m: nat | Equal3(t, p, q, m) && (q < j + 1 || !u[p].kind.Note? || !u[q].kind.Tie?)
      ensures u[m].kind.Rest?
    {
      if p < k {
        assert m <= k;
        assert u0[m].kind.Rest?;
      } else {
        assert p < e;
        assert p != last;
        assert m <= last;
      }
    }
    forall p: nat, q: nat, m: nat | Across3(t, p, q, m) && (q < j + 1 || !u[p].kind.Note? || !u[q].kind.Tie?)
      ensures u[p].kind.Rest? || u[m].kind.Rest?
    {
      if p < k {
        assert m <= k;
        assert u0[p].kind.Rest? || u0[m].kind.Rest?;
      } else if p == k {
        assert last != k;
        assert m <= last;
      }
    }
  }

  /** A tie without a note before it was undone already, or has nothing to join. */
  lemma SkipCompletes(t: Features, u: Features, j: nat, k: nat)
    requires Joined(t, u) && Complete(t, u, j) && k <= j < |u| && u[j].kind.Tie? && !u[k].kind.Note?
    requires k > 0 ==> u[k].kind.Rest?
    requires forall i :: k < i <= j ==> !u[i].kind.Note? && !u[i].kind.Rest?
    ensures Complete(t, u, j + 1)
  {
    forall p: nat, q: nat, m: nat | Equal3(t, p, q, m) && q == j && u[p].kind.Note?
      ensures u[m].kind.Rest?
    {
      assert p < k < j;
      assert Became(t[k], u[k]);
      assert Equal3(t, p, k, m);
    }
    assert Became(t[k], u[k]);
    forall p: nat, q: nat, m: nat
      ensures !(Across3(t, p, q, m) && q == j && u[p].kind.Note?)
    {
      if Across3(t, p, q, m) && q == j && u[p].kind.Note? {
        assert false;
      }
    }
  }

  /** dotie: the tie at j is resolved, with all the ties that continue it. The results are the number
      of errors reported and how far the tune has been changed. */
  method DoTie(a: array<Feature>, ghost t: Features, j: nat, ghost hw: nat) returns (errors: nat, ghost e: nat)
    requires j < a.Length && a[j].kind.Tie?
    requires SingleVoice(a[..]) && Joined(t, a[..]) && Anchored(a[..], j)
    requires Fresh(t, a[..], hw, j) && Complete(t, a[..], j)
    modifies a
    ensures SingleVoice(a[..]) && Joined(t, a[..]) && Anchored(a[..], j + 1)
    ensures Fresh(t, a[..], e, j + 1) && Complete(t, a[..], j + 1)
  {
    errors, e := 0, hw;
    ghost var u0 := a[..];
    var k := FindTied(a, j);
    if !a[k].kind.Note? {
      SkipCompletes(t, a[..], j, k);
      errors := 1;
      return;
    }
    TiedIsFresh(t, u0, hw, j, k);
    errors, e := ResolveTie(a, TieAt(t, u0, k, j), k, j);
  }

  /** The tie at j of the note at k. */
  method ResolveTie(a: array<Feature>, ghost x: TieAt, k: nat, j: nat) returns (errors: nat, ghost e: nat)
    requires k < j < a.Length == |x.t| && k == x.k && j == x.j && x.u0 == a[..] && SingleVoice(x.u0)
    requires Joined(x.t, x.u0) && Anchored(x.u0, j) && Complete(x.t, x.u0, j)
    requires a[k].kind.Note? && a[j].kind.Tie?
    requires forall i :: k <= i < |x.t| ==> x.u0[i] == x.t[i]
    requires forall i :: k < i < j ==> Silent(x.t[i].kind)
    modifies a
    ensures SingleVoice(a[..]) && Joined(x.t, a[..]) && Anchored(a[..], j + 1)
    ensures Fresh(x.t, a[..], e, j + 1) && Complete(x.t, a[..], j + 1)
  {
    StartTied(a, k, j);
    SearchBegins(x, a[..]);
    ghost var c;
    errors, c := FollowTies(a, k, j, x);
    e := c.e;
    SearchDone(x, c);
  }

  /** The note is tied, and the tie becomes a rest of its length. */
  method StartTied(a: array<Feature>, k: nat, j: nat)
    requires k < j < a.Length && a[k].kind.Note? && a[j].kind.Tie? && SingleVoice(a[..])
    modifies a
    ensures a[..] == old(a[..])[k := old(a[k]).(kind := TNote)]
                               [j := old(a[j]).(kind := Rest, num := old(a[k]).num, denom := old(a[k]).denom)]
    ensures SingleVoice(a[..])
  {
    a[k] := a[k].(kind := TNote);
    a[j] := a[j].(kind := Rest);
    a[j] := a[j].(num := a[k].num, denom := a[k].denom);
  }

  lemma SearchBegins(x: TieAt, u: Features)
    requires Joined(x.t, x.u0) && Anchored(x.u0, x.j) && x.k < x.j < |x.t| && |u| == |x.t|
    requires forall i :: x.k < i < x.j ==> !x.u0[i].kind.Note? && !x.u0[i].kind.Rest?
    requires forall i :: x.k <= i < |x.t| ==> x.u0[i] == x.t[i]
    requires x.u0[x.k].kind.Note? && x.u0[x.k].denom > 0 && x.u0[x.j].kind.Tie?
    requires u[x.k] == x.u0[x.k].(kind := TNote)
    requires u[x.j] == x.u0[x.j].(kind := Rest, num := x.u0[x.k].num, denom := x.u0[x.k].denom)
    requires forall i :: 0 <= i < |u| && i != x.k && i != x.j ==> u[i] == x.u0[i]
    ensures Before(x) && Searching(x, Chain(u, x.j + 1, x.k), Search(x.j + 1, true, false, -1, x.j))
  {
    StartTie(x.t, x.u0, u, x.k, x.j);
  }

  lemma SearchDone(x: TieAt, c: Chain)
    requires Joined(x.t, x.u0) && Anchored(x.u0, x.j) && Complete(x.t, x.u0, x.j) && Ended(x, c)
    requires x.k < x.j < |x.t| && |c.u| == |x.t| && x.t[x.j].kind.Tie?
    requires forall i :: x.k <= i < |x.t| ==> x.u0[i] == x.t[i]
    requires forall i :: x.k < i < x.j ==> Silent(x.t[i].kind)
    ensures Joined(x.t, c.u) && Anchored(c.u, x.j + 1) && Fresh(x.t, c.u, c.e, x.j + 1) && Complete(x.t, c.u, x.j + 1)
  {
    assert Open(0);
    TieDoneJoins(x.t, x.u0, c.u, x.k, x.j, c.e);
    TieCompletes(x.t, x.u0, c.u, x.k, x.j, c.e, c.last);
    assert c.u[c.e - 1].kind.Rest?;
  }

  // ---------- The search, in place ----------

  /** The tie at j of the note at k, in the tune as it was and as it was before this tie. */
  datatype TieAt = TieAt(t: Features, u0: Features, k: nat, j: nat)

  /** The tune so far, how far it has been changed, and the last note joined. */
  datatype Chain = Chain(u: Features, e: nat, last: nat)

  /** The variables of the loop of dotie. */
  datatype Search = Search(place: nat, tietodo: bool, newbar: bool, lastnote: int, lasttie: nat)

  predicate Open(x: int) {
    true
  }

  /** The state a tie is resolved from. The facts are at hand only where Open is mentioned, so that the
      loop below is not searched with them. */
  ghost predicate Before(x: TieAt) {
    forall y: int {:trigger Open(y)} :: Open(y) ==>
      && Joined(x.t, x.u0) && Anchored(x.u0, x.j) && x.k < x.j < |x.t|
      && (forall i :: x.k <= i < |x.t| ==> x.u0[i] == x.t[i])
  }

  /** The state of the search while it goes on; again at hand only where Open is mentioned. */
  ghost predicate Searching(x: TieAt, c: Chain, s: Search) {
    && x.k < x.j < s.place <= |x.t| == |c.u| == |x.u0| && -1 <= s.lastnote < s.place && x.j < c.e <= s.place
    && forall y: int {:trigger Open(y)} :: Open(y) ==>
         && Joining(x.t, x.u0, c.u, x.k, x.j, c.e, s.place)
         && Scanning(x.t, x.k, x.j, c.last, s.place, s.tietodo, s.newbar)
         && c.u[c.e - 1].kind.Rest? && c.last == (if c.e == x.j + 1 then x.k else c.e - 1)
         && s.lastnote == (if c.last == x.k then -1 else c.last)
         && x.j <= s.lasttie < s.place && (s.tietodo ==> s.lasttie == x.j || c.u[s.lasttie].kind.Tie?)
  }

  /** The state once it is over. */
  ghost predicate Ended(x: TieAt, c: Chain) {
    forall y: int {:trigger Open(y)} :: Open(y) ==>
      && TieDone(x.t, x.u0, c.u, x.k, x.j, c.e) && c.u[c.e - 1].kind.Rest?
      && c.last < |x.t| && c.last == (if c.e == x.j + 1 then x.k else c.e - 1)
      && x.t[c.last].kind.Note? && NoMore(x.t, x.k, c.last)
  }

  /** Between the turns of the loop: the search goes on with no time left over, or it has ended. */
  ghost predicate Underway(x: TieAt, c: Chain, s: Search, tied: Frac, done: bool) {
    && tied.Ok() && SingleVoice(c.u)
    && if tied.num >= 0 && !done then tied.num == 0 && Searching(x, c, s) else Ended(x, c)
  }

  /** The second part of dotie: the search for the notes to join. */
  method FollowTies(a: array<Feature>, k: nat, j: nat, ghost x: TieAt) returns (errors: nat, ghost c: Chain)
    requires k < j < a.Length && SingleVoice(a[..]) && Before(x) && k == x.k && j == x.j
    requires Searching(x, Chain(a[..], j + 1, k), Search(j + 1, true, false, -1, j))
    requires a[j].kind.Rest? && a[k].kind.TNote? && a[j].num == a[k].num && a[j].denom == a[k].denom
    modifies a
    ensures c.u == a[..] && SingleVoice(c.u) && Ended(x, c)
  {
    errors := 0;
    // the first turn of the loop meets the rest at j itself, which uses up the tied time
    var tied := TakeOff(Length(a[k]), a[j]);
    var s, done := Search(j + 1, true, false, -1, j), false;
    c := Chain(a[..], j + 1, k);
    while s.place < a.Length && tied.num >= 0 && !done
      invariant c.u == a[..] && s.place <= a.Length && Underway(x, c, s, tied, done)
      decreases a.Length - s.place
    {
      var n;
      s, tied, done, n, c := MeetFeature(a, k, j, s, tied, x, c);
      errors := errors + n;
    }
    if tied.num >= 0 && !done {
      SearchStops(x, c, s);
    }
    if s.tietodo {
      errors := errors + 1;
    }
  }

  /** One turn of the loop. */
  method MeetFeature(a: array<Feature>, k: nat, j: nat, s: Search, tied: Frac, ghost x: TieAt, ghost c: Chain)
      returns (s': Search, tied': Frac, done: bool, errors: nat, ghost c': Chain)
    requires c.u == a[..] && s.place < a.Length && k == x.k && j == x.j && Before(x)
    requires tied.num == 0 && Underway(x, c, s, tied, false)
    modifies a
    ensures c'.u == a[..] && s'.place == s.place + 1 && Underway(x, c', s', tied', done)
  {
    s', tied', done, errors, c' := s.(place := s.place + 1), tied, false, 0, c;
    SearchFacts(x, c, s);
    var f := a[s.place];
    if f.kind.Note? {
      s', tied', done, c' := MeetNote(a, k, j, s, tied, x, c);
    } else if f.kind.Rest? {
      done := !s.tietodo;
      SearchStops(x, c, s);
      tied' := TakeOff(tied, f);
    } else {
      s', errors := MeetOther(a, k, s, x, c);
    }
  }

  /** A note met by the search: it continues the chain, or it ends it. No time is left over when it
      continues, so no mismatch is reported. */
  method MeetNote(a: array<Feature>, k: nat, j: nat, s: Search, tied: Frac, ghost x: TieAt, ghost c: Chain)
      returns (s': Search, tied': Frac, done: bool, ghost c': Chain)
    requires c.u == a[..] && s.place < a.Length && k == x.k && j == x.j && Before(x)
    requires SingleVoice(c.u) && Searching(x, c, s)
    requires tied.Ok() && tied.num == 0 && a[s.place].kind.Note?
    modifies a
    ensures c'.u == a[..] && s'.place == s.place + 1 && Underway(x, c', s', tied', done)
  {
    var f, place := a[s.place], s.place;
    SearchFacts(x, c, s);
    s', tied', done, c' := s.(place := place + 1, lastnote := place), tied, !s.tietodo, c;
    if ((f.line == a[k].line && s.newbar) || f.pitch == a[k].pitch) && s.tietodo {
      c' := JoinNext(a, k, j, s, x, c);
      Positive(tied);
      tied' := AddFract(tied, Length(f));
      s' := s'.(tietodo := false);
    } else {
      SearchStops(x, c, s);
    }
    tied' := Less(tied', f);
  }

  /** The note continues the chain. */
  method JoinNext(a: array<Feature>, k: nat, j: nat, s: Search, ghost x: TieAt, ghost c: Chain)
      returns (ghost c': Chain)
    requires c.u == a[..] && s.place < a.Length && k == x.k && j == x.j && Before(x)
    requires SingleVoice(c.u) && Searching(x, c, s) && a[s.place].kind.Note? && s.tietodo
    requires (a[s.place].line == a[k].line && s.newbar) || a[s.place].pitch == a[k].pitch
    modifies a
    ensures c'.u == a[..] && SingleVoice(c'.u)
    ensures Searching(x, c', Search(s.place + 1, false, s.newbar, s.place, s.lasttie))
  {
    SearchFacts(x, c, s);
    assert Open(0);
    ScanJoins(x.t, k, j, c.last, s.place, s.newbar);
    Join(a, x.t, x.u0, k, j, c.e, s.place, s.lasttie);
    c' := Chain(a[..], s.place + 1, s.place);
    SearchJoined(x, c', Search(s.place + 1, false, s.newbar, s.place, s.lasttie));
  }

  /** The state after a note has been joined. */
  lemma SearchJoined(x: TieAt, c: Chain, s: Search)
    requires x.k < x.j < s.lasttie + 1 < s.place <= |x.t| == |c.u| == |x.u0| && s.lastnote == c.last == s.place - 1
    requires c.e == s.place && !s.tietodo && c.u[s.place - 1].kind.Rest?
    requires Joining(x.t, x.u0, c.u, x.k, x.j, c.e, s.place)
             && Scanning(x.t, x.k, x.j, c.last, s.place, false, s.newbar)
    ensures Searching(x, c, s)
  {
  }

  /** A feature that is neither a note nor a rest: a bar line, a tie, or nothing to the search. */
  method MeetOther(a: array<Feature>, k: nat, s: Search, ghost x: TieAt, ghost c: Chain)
      returns (s': Search, errors: nat)
    requires c.u == a[..] && s.place < a.Length && k == x.k && Before(x) && Searching(x, c, s)
    requires !a[s.place].kind.Note? && !a[s.place].kind.Rest?
    ensures Searching(x, c, s') && s'.place == s.place + 1
  {
    SearchFacts(x, c, s);
    SearchOn(x, c, s);
    s', errors := s.(place := s.place + 1), 0;
    if IsBar(a[s.place].kind) {
      s' := s'.(newbar := s.tietodo);
    } else if a[s.place].kind.Tie? {
      if s.lastnote == -1 {
        errors := 1;
      } else if a[s.lastnote].pitch == a[k].pitch {
        s' := s'.(lasttie := s.place, tietodo := true);
      }
    }
  }

  /** The search is over at a note that does not continue the chain, at a rest, and at the end. */
  lemma SearchStops(x: TieAt, c: Chain, s: Search)
    requires Searching(x, c, s)
    requires s.place == |x.t| || x.t[s.place].kind.Rest?
             || (x.t[s.place].kind.Note? && !(s.tietodo && Matches(x.t, x.k, s.place, s.newbar)))
    ensures Ended(x, c)
  {
    assert Open(0);
    if s.place < |x.t| && x.t[s.place].kind.Note? {
      ScanFails(x.t, x.k, x.j, c.last, s.place, s.tietodo, s.newbar);
    } else {
      ScanEnds(x.t, x.k, x.j, c.last, s.place, s.tietodo, s.newbar);
    }
  }

  lemma SearchFacts(x: TieAt, c: Chain, s: Search)
    requires Searching(x, c, s) && Before(x)
    ensures x.k < s.place <= |x.t| == |c.u| == |x.u0|
    ensures s.place < |x.t| ==> c.u[s.place] == x.u0[s.place] == x.t[s.place]
    ensures c.u[x.k].line == x.t[x.k].line && c.u[x.k].pitch == x.t[x.k].pitch
  {
    assert Open(0);
  }

  /** A feature that is neither a note nor a rest. */
  lemma SearchOn(x: TieAt, c: Chain, s: Search)
    requires Before(x) && Searching(x, c, s) && s.place < |x.t|
    requires !c.u[s.place].kind.Note? && !c.u[s.place].kind.Rest? && c.u[s.place] == x.t[s.place]
    ensures s.lastnote == -1 ==> s.tietodo
    ensures s.lastnote != -1 ==> c.u[s.lastnote].pitch == c.u[x.k].pitch
    ensures var f := x.t[s.place];
            Searching(x, c, Search(s.place + 1, s.tietodo || f.kind.Tie?, if IsBar(f.kind) then s.tietodo else s.newbar,
                                   s.lastnote, if f.kind.Tie? && s.lastnote != -1 then s.place else s.lasttie))
  {
    assert Open(0);
    PassOver(x.t, x.u0, c.u, x.k, x.j, c.e, s.place);
    ScanOn(x.t, x.k, x.j, c.last, s.place, s.tietodo, s.newbar);
  }

  /** Time is subtracted: from what is still tied. */
  function Less(tied: Frac, f: Feature): (r: Frac)
    requires tied.Ok() && f.denom > 0 && f.num > 0
    ensures r.Ok() && r.Val() == tied.Val() - Length(f).Val()
    ensures tied.num == 0 ==> r.num < 0
    ensures tied.Val() == Length(f).Val() ==> r.num == 0
  {
    var minus := Frac(-f.num, f.denom);
    assert minus.Val() == -Length(f).Val();
    var r := AddFract(tied, minus);
    Positive(r);
    Positive(tied);
    Positive(Length(f));
    r
  }

  method TakeOff(tied: Frac, f: Feature) returns (r: Frac)
    requires tied.Ok() && f.denom > 0 && f.num > 0
    ensures r.Ok()
    ensures tied.num == 0 ==> r.num < 0
    ensures tied == Length(f) ==> r.num == 0
  {
    r := Less(tied, f);
  }

  /** The note at place is added to the tied note and silenced; the tie before it is spent. */
  method Join(a: array<Feature>, ghost t: Features, ghost u0: Features, k: nat, j: nat, ghost e: nat, place: nat,
              lasttie: nat)
    requires SingleVoice(a[..]) && Joined(t, u0) && place < a.Length
    requires Joining(t, u0, a[..], k, j, e, place)
    requires a[place].kind.Note? && a[place] == t[place] == u0[place]
    requires j <= lasttie < place && (lasttie == j || a[lasttie].kind.Tie?) && Continues(t, k, place)
    modifies a
    ensures SingleVoice(a[..]) && Joining(t, u0, a[..], k, j, place + 1, place + 1)
    ensures forall i :: place < i < a.Length ==> a[i] == old(a[i])
  {
    ghost var u := a[..];
    a[place] := a[place].(pitch := a[k].pitch);
    var sum := AddFract(Length(a[k]), Length(a[place]));
    Positive(sum);
    Positive(Length(a[k]));
    Positive(Length(a[place]));
    a[k] := a[k].(num := sum.num, denom := sum.denom);
    a[place] := a[place].(kind := Rest);
    if lasttie != j {
      a[lasttie] := a[lasttie].(kind := OldTie);
      assert u[lasttie].kind.Tie?;
    }
    JoinNote(t, u0, u, a[..], k, j, e, place, lasttie);
  }

  /** tiefix: ties are resolved from left to right; the result counts the errors reported. */
  method TieFix(a: array<Feature>) returns (errors: nat)
    requires SingleVoice(a[..]) && forall i :: 0 <= i < a.Length ==> !a[i].kind.TNote?
    modifies a
    ensures Joined(old(a[..]), a[..]) && SingleVoice(a[..]) && Complete(old(a[..]), a[..], a.Length)
  {
    ghost var t := a[..];
    errors := 0;
    ghost var hw := 0;
    var j := 0;
    while j < a.Length
      invariant 0 <= j <= a.Length
      invariant SingleVoice(a[..]) && Joined(t, a[..]) && Anchored(a[..], j)
      invariant Fresh(t, a[..], hw, j) && Complete(t, a[..], j)
    {
      if a[j].kind.Tie? {
        var n;
        n, hw := DoTie(a, t, j, hw);
        errors := errors + n;
      } else {
        NotATie(t, a[..], hw, j);
      }
      j := j + 1;
    }
  }

  lemma NotATie(t: Features, u: Features, hw: nat, j: nat)
    requires j < |u| && Anchored(u, j) && Fresh(t, u, hw, j) && Complete(t, u, j) && !u[j].kind.Tie?
    ensures Anchored(u, j + 1) && Fresh(t, u, hw, j + 1) && Complete(t, u, j + 1)
  {
    StaysComplete(t, u, j);
  }

  lemma StaysComplete(t: Features, u: Features, j: nat)
    requires j < |u| == |t| && Complete(t, u, j) && !u[j].kind.Tie?
    ensures Complete(t, u, j + 1)
  {
  }
}
