/** Ties end to end: a single voice whose ties were resolved is a phrase, so what is read back holds
    each chain of tied notes as one tone of their joint length. */
module TiedTune {
  import opened Fractions
  import opened Tune
  import opened Ties
  import P = Playback
  import S = Sections
  import E = EndToEnd
  import C = Clock
  import R = Reader
  import W = WriteTrack
  import Wr = Writer

  /** A length in ticks. */
  ghost function Scaled(divFactor: nat, length: real): (t: real) {
    divFactor as real * length
  }

  ghost function At(u: Features, divFactor: nat, i: nat): (at: real)
    requires i <= |u|
  {
    Scaled(divFactor, Span(u, 0, i))
  }

  lemma LenIsLength(f: Feature, divFactor: nat)
    requires f.denom > 0
    ensures E.Len(f, divFactor) == Scaled(divFactor, Length(f).Val())
  {
    assert (divFactor * f.num) as real == divFactor as real * f.num as real;
  }

  lemma AtStep(u: Features, divFactor: nat, i: nat)
    requires i < |u| && SingleVoice(u)
    ensures At(u, divFactor, i + 1) == At(u, divFactor, i)
              + (if u[i].kind.Note? || u[i].kind.Rest? then E.Len(u[i], divFactor) else 0.0)
  {
    if u[i].kind.Note? || u[i].kind.Rest? {
      LenIsLength(u[i], divFactor);
    }
  }

  lemma {:induction false} SpanGrows(u: Features, lo: nat, hi: nat)
    requires lo <= hi <= |u| && SingleVoice(u)
    ensures Span(u, 0, lo) <= Span(u, 0, hi)
    decreases hi - lo
  {
    if lo < hi {
      SpanGrows(u, lo, hi - 1);
      if u[hi - 1].kind.Note? || u[hi - 1].kind.Rest? {
        Positive(Length(u[hi - 1]));
      }
    }
  }

  /** What follows place i, played under env, with every note fit to be heard. */
  ghost predicate Heard(u: Features, i: nat, env: P.Settings, divFactor: nat, g: E.Tuning)
    requires i <= |u|
    decreases |u| - i
  {
    i < |u| ==>
      var e := P.Event(u[i], env);
      && (Starts(u[i].kind) ==> E.Sings(e, divFactor, g))
      && (u[i].kind.Rest? ==> E.Waits(e, divFactor))
      && (Starts(u[i].kind) || u[i].kind.Rest? || u[i].kind.DoubleBar? || E.Neutral(u[i].kind))
      && Heard(u, i + 1, S.Apply(u[i], env), divFactor, g)
  }

  /** The time up to which the tied note at k is covered, or a time already past if k is -1. */
  ghost function TiedUntil(u: Features, divFactor: nat, k: int): (at: real)
    requires k < |u|
  {
    if k < 0 || u[k].denom <= 0 then 0.0 else At(u, divFactor, k) + Scaled(divFactor, Length(u[k]).Val())
  }

  /** The chains of a resolved voice cover their notes, so the voice is a phrase from any place on. */
  lemma {:induction false} ResolvedIsPhraseFrom(u: Features, i: nat, k: int, env: P.Settings, divFactor: nat,
                                                g: E.Tuning)
    requires SingleVoice(u) && i <= |u| && divFactor > 0 && Heard(u, i, env, divFactor, g)
    requires forall n: nat :: n < |u| && u[n].kind.TNote? ==> exists e: nat :: Covers(u, n, e)
    requires -1 <= k < i && (k >= 0 ==> u[k].kind.TNote?)
    ensures E.Phrase(S.Perform(u[i..], env), divFactor, At(u, divFactor, i), TiedUntil(u, divFactor, k), g)
    decreases |u| - i
  {
    if i == |u| {
      TiedIsOver(u, i, k, divFactor);
    } else {
      var f := u[i];
      assert u[i..][0] == f && u[i..][1..] == u[i + 1..];
      if Starts(f.kind) {
        TiedIsOver(u, i, k, divFactor);
      }
      AtStep(u, divFactor, i);
      if f.kind.DoubleBar? {
        ResolvedIsPhraseFrom(u, i + 1, k, env, divFactor, g);
        assert S.Perform(u[i..], env) == S.Perform(u[i + 1..], env);
        return;
      }
      var k' := if f.kind.TNote? then i else k;
      TiedNext(u, divFactor, i, k);
      ResolvedIsPhraseFrom(u, i + 1, k', S.Apply(f, env), divFactor, g);
      assert S.Perform(u[i..], env)[1..] == S.Perform(u[i + 1..], S.Apply(f, env));
      PhraseCons(S.Perform(u[i..], env), divFactor, At(u, divFactor, i), TiedUntil(u, divFactor, k),
                 At(u, divFactor, i + 1), TiedUntil(u, divFactor, k'), g);
    }
  }

  lemma TiedNext(u: Features, divFactor: nat, i: nat, k: int)
    requires SingleVoice(u) && -1 <= k < i < |u|
    ensures u[i].kind.TNote? ==> TiedUntil(u, divFactor, i) == At(u, divFactor, i) + E.Len(u[i], divFactor)
  {
    if u[i].kind.TNote? {
      LenIsLength(u[i], divFactor);
    }
  }

  lemma PhraseCons(ev: seq<P.Event>, divFactor: nat, at: real, tied: real, at': real, tied': real, g: E.Tuning)
    requires ev != [] && E.Phrase(ev[1..], divFactor, at', tied', g)
    requires var e := ev[0];
             if e.f.kind.Note? then
               E.Sings(e, divFactor, g) && tied <= at && at' == at + E.Len(e.f, divFactor) && tied' == tied
             else if e.f.kind.TNote? then
               && E.Sings(e, divFactor, g) && tied <= at && e.f.num > 0 && divFactor > 0
               && at' == at && tied' == at + E.Len(e.f, divFactor)
             else if e.f.kind.Rest? then
               E.Waits(e, divFactor) && at' == at + E.Len(e.f, divFactor) && tied' == tied
             else E.Neutral(e.f.kind) && at' == at && tied' == tied
    ensures E.Phrase(ev, divFactor, at, tied, g)
  {
  }

  /** Where a note begins, and at the end, no tied note is still owed time. */
  lemma TiedIsOver(u: Features, i: nat, k: int, divFactor: nat)
    requires SingleVoice(u) && i <= |u| && (i < |u| ==> Starts(u[i].kind))
    requires -1 <= k < i && (k >= 0 ==> u[k].kind.TNote? && exists e: nat :: Covers(u, k, e))
    ensures k < |u| && TiedUntil(u, divFactor, k) <= At(u, divFactor, i)
  {
    if k >= 0 {
      CoveredSpan(u, k, i);
      ScaledUntil(u, divFactor, k, i);
    } else {
      SpanGrows(u, 0, i);
      ScaleUp(divFactor, 0.0, 0.0, Span(u, 0, i));
    }
  }

  lemma ScaledUntil(u: Features, divFactor: nat, k: nat, i: nat)
    requires k < |u| && i <= |u| && u[k].denom > 0 && Span(u, 0, k) + Length(u[k]).Val() <= Span(u, 0, i)
    ensures TiedUntil(u, divFactor, k) <= At(u, divFactor, i)
  {
    ScaleUp(divFactor, Span(u, 0, k), Length(u[k]).Val(), Span(u, 0, i));
  }

  lemma CoveredSpan(u: Features, k: nat, i: nat)
    requires SingleVoice(u) && k < i <= |u| && (i < |u| ==> Starts(u[i].kind))
    requires u[k].kind.TNote? && exists e: nat :: Covers(u, k, e)
    ensures Span(u, 0, k) + Length(u[k]).Val() <= Span(u, 0, i)
  {
    var e: nat :| Covers(u, k, e);
    assert e <= i;
    SpanJoin(u, 0, k, e);
    SpanJoin(u, k, k + 1, e);
    assert Span(u, k, k + 1) == 0.0;
    SpanGrows(u, e, i);
  }

  lemma ScaleUp(divFactor: nat, x: real, y: real, z: real)
    requires x + y <= z
    ensures Scaled(divFactor, x) + Scaled(divFactor, y) <= Scaled(divFactor, z)
  {
    assert divFactor as real * (z - x - y) >= 0.0;
  }

  /** Joining ties and then writing: the voice is a phrase, and the total time is that of the notes as
      they were written down. */
  lemma ResolvedIsPhrase(t: Features, u: Features, env: P.Settings, divFactor: nat, g: E.Tuning)
    requires SingleVoice(u) && Joined(t, u) && divFactor > 0 && Heard(u, 0, env, divFactor, g)
    ensures E.Phrase(S.Perform(u, env), divFactor, 0.0, 0.0, g)
    ensures Span(u, 0, |u|) == Span(t, 0, |t|)
  {
    forall n: nat | n < |u| && u[n].kind.TNote?
      ensures exists e: nat :: Covers(u, n, e)
    {
      var e: nat :| JoinedTo(t, u, n, e);
    }
    assert u[0..] == u;
    AtStart(u, divFactor);
    ResolvedIsPhraseFrom(u, 0, -1, env, divFactor, g);
  }

  /** Joining ties, writing and reading back: a voice without repeats, a double bar in front of it or anywhere
      in it, comes back as the tones of its chains, exactly when each lasts a tick. */
  lemma TiedReadBack(t: Features, u: Features, voice: int, c: C.Config, env: P.Settings, gap: int)
    requires SingleVoice(u) && Joined(t, u) && S.IsBody(u) && LengthsOk(u) && env.divFactor > 0
    requires Wr.NoteTrack(c) && gap >= 0 && Heard(u, 0, env, env.divFactor, E.Tuning(0, c.drumMap))
    ensures Wr.SoundOk(Wr.Opening(gap))
    ensures E.Phrase(S.Perform(u, env), env.divFactor, 0.0, 0.0, E.Tuning(0, c.drumMap))
    ensures var ev := S.Perform(u, env);
            var (ct, s) := W.Sounds(u, voice, c, gap, P.Start(u, voice, 0, env), Wr.Opening(gap));
            var s' := W.Cleared(c, ct, s);
            var rd := R.ReadAll(R.Score(0, map[], map[], []), s'.clock.log);
            && (rd.tones == E.Expect(ev, env.divFactor, 0.0, 0.0, E.Tuning(0, c.drumMap), gap)
                <==> E.Timely(ev, env.divFactor, gap))
            && rd.active == map[] && ct.errors == 0 && s'.clock.errors == 0
  {
    ResolvedIsPhrase(t, u, env, env.divFactor, E.Tuning(0, c.drumMap));
    var ss := [S.Straight(u)];
    assert ss[1..] == [] && S.PrintAll(ss) == u + [] == u;
    assert S.UnrollAll(ss, env) == S.Perform(u, env) + [] == S.Perform(u, env);
    E.WrittenAndReadBack(ss, voice, c, env, gap);
  }

  lemma AtStart(u: Features, divFactor: nat)
    ensures At(u, divFactor, 0) == 0.0
  {
    assert Span(u, 0, 0) == 0.0;
  }
}
