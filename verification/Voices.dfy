/** Several voices in one feature list: a track plays the features of its own voice, as if they stood alone. */
module Voices {
  import opened Tune
  import opened Playback
  import S = Sections

  // ---------- The part of one voice ----------

  /** Whether the voice has the word after a feature, when it had it or not before. A voice mark gives it to the
      voice it names, and a part begins with voice 1. */
  predicate HasWord(f: Feature, v: int, own: bool) {
    if f.kind.Voice? then f.pitch == v else own || (f.kind.Part? && v == 1)
  }

  /** Whether it has the word in front of place j; own says so for the beginning of the tune. */
  predicate Owns(t: Features, v: int, own: bool, j: nat)
    requires j <= |t|
    decreases j
  {
    if j == 0 then own else HasWord(t[j - 1], v, Owns(t, v, own, j - 1))
  }

  predicate IsKept(t: Features, v: int, own: bool, j: nat)
    requires j < |t|
  {
    !t[j].kind.Voice? && Owns(t, v, own, j + 1)
  }

  /** The part of the voice in the first j features, without its voice marks. */
  function PartTo(t: Features, v: int, own: bool, j: nat): (u: Features)
    requires j <= |t|
    ensures |u| <= j
    decreases j
  {
    if j == 0 then []
    else PartTo(t, v, own, j - 1) + if IsKept(t, v, own, j - 1) then [t[j - 1]] else []
  }

  function PartOf(t: Features, v: int, own: bool): (u: Features) {
    PartTo(t, v, own, |t|)
  }

  lemma {:induction false} PartPrefix(t: Features, v: int, own: bool, i: nat, j: nat)
    requires i <= j <= |t|
    ensures PartTo(t, v, own, i) <= PartTo(t, v, own, j)
    decreases j
  {
    if i < j {
      PartPrefix(t, v, own, i, j - 1);
    }
  }

  /** Its place in the part. */
  function At(t: Features, v: int, own: bool, j: nat): (p: nat)
    ensures p <= |PartOf(t, v, own)|
  {
    PartPrefix(t, v, own, if j < |t| then j else |t|, |t|);
    |PartTo(t, v, own, if j < |t| then j else |t|)|
  }

  /** A feature of the voice stands at its place in the part. */
  lemma KeptAt(t: Features, v: int, own: bool, j: nat)
    requires j < |t| && IsKept(t, v, own, j)
    ensures var p, u := At(t, v, own, j), PartOf(t, v, own);
            p < |u| && u[p] == t[j] && At(t, v, own, j + 1) == p + 1
  {
    PartPrefix(t, v, own, j + 1, |t|);
  }

  lemma AtMost(t: Features, v: int, own: bool, i: nat, j: nat)
    requires i <= j
    ensures At(t, v, own, i) <= At(t, v, own, j) <= |PartOf(t, v, own)|
  {
    var i', j' := if i < |t| then i else |t|, if j < |t| then j else |t|;
    PartPrefix(t, v, own, i', j');
    PartPrefix(t, v, own, j', |t|);
  }

  lemma {:induction false} NoVoiceMarks(t: Features, v: int, own: bool, j: nat)
    requires j <= |t|
    ensures forall k :: 0 <= k < |PartTo(t, v, own, j)| ==> !PartTo(t, v, own, j)[k].kind.Voice?
    decreases j
  {
    if j > 0 {
      NoVoiceMarks(t, v, own, j - 1);
    }
  }

  // ---------- Finding the voice again ----------

  /** findvoice stops at the next mark that gives the voice the word. */
  lemma {:induction false} FindsEntry(t: Features, v: int, j: nat)
    requires j <= |t|
    ensures var r := FindVoice(t, j, v);
            && j <= r <= |t| && (r < |t| ==> IsEntry(t[r], v))
            && forall k :: j <= k < r ==> !IsEntry(t[k], v)
    decreases |t| - j
  {
    if j < |t| && FindVoice(t, j, v) != j {
      FindsEntry(t, v, j + 1);
    }
  }

  /** Nothing of the voice lies between a place where it has no word and its next mark. */
  lemma {:induction false} NothingBetween(t: Features, v: int, own: bool, j: nat, r: nat)
    requires j <= r <= |t| && (forall k :: j <= k < r ==> !IsEntry(t[k], v))
    requires j < r ==> t[j].kind.Voice? || !Owns(t, v, own, j)
    ensures PartTo(t, v, own, r) == PartTo(t, v, own, j)
    ensures j < r ==> !Owns(t, v, own, r)
    decreases r
  {
    if j < r {
      if j < r - 1 {
        NothingBetween(t, v, own, j, r - 1);
      }
      assert !IsEntry(t[r - 1], v);
      assert !Owns(t, v, own, r);
      if j == r - 1 {
        assert !IsKept(t, v, own, j);
      }
    }
  }

  /** Where a search for the voice leads. */
  lemma Found(t: Features, v: int, own: bool, j: nat) returns (r: nat)
    requires j < |t| && t[j].kind.Voice?
    ensures r == FindVoice(t, j, v) && j <= r <= |t| && (r < |t| ==> IsEntry(t[r], v))
    ensures At(t, v, own, r) == At(t, v, own, j)
  {
    r := FindVoice(t, j, v);
    FindsEntry(t, v, j);
    NothingBetween(t, v, own, j, r);
  }

  // ---------- The end of a variant ending ----------

  /** The voice goes on from j. */
  predicate GoesOn(t: Features, v: int, own: bool, j: nat) {
    j >= |t| || Owns(t, v, own, j) || IsEntry(t[j], v)
  }

  lemma EntryWord(t: Features, v: int, own: bool, j: nat)
    requires j < |t| && GoesOn(t, v, own, j) && (IsEntry(t[j], v) || !t[j].kind.Voice?)
    ensures Owns(t, v, own, j + 1)
  {
  }

  /** From a place where the voice goes on, or the first voice mark behind it. */
  lemma ToVoiceAt(t: Features, v: int, own: bool, j: nat) returns (r: nat)
    requires j <= |t| && (j < |t| ==> t[j].kind.Voice? || Owns(t, v, own, j))
    ensures r == ToVoice(t, j, v) && j <= r <= |t| && GoesOn(t, v, own, r)
    ensures r < |t| && t[r].kind.Voice? ==> IsEntry(t[r], v)
    ensures At(t, v, own, r) == At(t, v, own, j)
  {
    r := j;
    if j < |t| && t[j].kind.Voice? {
      r := Found(t, v, own, j);
    }
  }

  /** The skipping of an ending in the tune is the skipping of the ending in the part alone. */
  lemma {:induction false} SkipAlone(t: Features, v: int, own: bool, j: nat) returns (r: nat)
    requires j <= |t| && GoesOn(t, v, own, j) && (j < |t| && t[j].kind.Voice? ==> IsEntry(t[j], v))
    ensures r == SkipEnding(t, j, v) && GoesOn(t, v, own, r)
    ensures At(t, v, own, r) == SkipEnding(PartOf(t, v, own), At(t, v, own, j), v)
    ensures r < |t| ==> IsKept(t, v, own, r) && ClosesEnding(t[r].kind)
    ensures r == |t| ==> At(t, v, own, r) == |PartOf(t, v, own)|
    decreases |t| - j
  {
    var u := PartOf(t, v, own);
    r := SkipEnding(t, j, v);
    AtMost(t, v, own, j, |t|);
    if j < |t| {
      EntryWord(t, v, own, j);
      if !t[j].kind.Voice? {
        KeptAt(t, v, own, j);
      }
      if !ClosesEnding(t[j].kind) {
        var k := ToVoiceAt(t, v, own, j + 1);
        r := SkipAlone(t, v, own, k);
        SkipStep(t, v, own, j);
      }
    }
  }

  lemma SkipStep(t: Features, v: int, own: bool, j: nat)
    requires j < |t| && Owns(t, v, own, j + 1) && !ClosesEnding(t[j].kind)
    ensures SkipEnding(PartOf(t, v, own), At(t, v, own, j), v) == SkipEnding(PartOf(t, v, own), At(t, v, own, j + 1), v)
  {
    AtMost(t, v, own, j, j + 1);
    AtMost(t, v, own, j + 1, |t|);
    NoVoiceMarks(t, v, own, |t|);
    if !t[j].kind.Voice? {
      KeptAt(t, v, own, j);
    }
  }

  /** No feature of the voice in front of r closes an ending. */
  lemma {:induction false} SkipsNothing(t: Features, v: int, own: bool, j: nat) returns (r: nat)
    requires j <= |t| && GoesOn(t, v, own, j) && (j < |t| && t[j].kind.Voice? ==> IsEntry(t[j], v))
    ensures r == SkipEnding(t, j, v) <= |t| && (r < |t| ==> IsKept(t, v, own, r) && ClosesEnding(t[r].kind))
    ensures forall k :: j <= k < r && IsKept(t, v, own, k) ==> !ClosesEnding(t[k].kind)
    decreases |t| - j
  {
    r := SkipEnding(t, j, v);
    if j < |t| {
      EntryWord(t, v, own, j);
      if !ClosesEnding(t[j].kind) {
        var i := ToVoiceAt(t, v, own, j + 1);
        r := SkipsNothing(t, v, own, i);
        NothingKept(t, v, own, j + 1, i);
      }
    }
  }

  lemma {:induction false} NothingKept(t: Features, v: int, own: bool, j: nat, i: nat)
    requires j <= i <= |t| && At(t, v, own, i) == At(t, v, own, j)
    ensures forall k :: j <= k < i ==> !IsKept(t, v, own, k)
  {
    forall k | j <= k < i
      ensures !IsKept(t, v, own, k)
    {
      if IsKept(t, v, own, k) {
        KeptAt(t, v, own, k);
        AtMost(t, v, own, j, k);
        AtMost(t, v, own, k + 1, i);
        assert false;
      }
    }
  }

  /** A repeat mark but ::, a double bar of any form, a part, or another ending. */
  predicate Stops(k: Kind) {
    || k.RepBar? || k.BarRep? || k.DoubleBar? || k.ThickThin? || k.ThinThick? || k.Part? || k.PlayOnRep?
  }

  /** A variant ending of the voice that is not played ends where the first feature of the same voice behind it
      closes an ending, whatever the stretches of other voices in between hold. */
  lemma EndingOfVoice(t: Features, v: int, own: bool, j: nat) returns (r: nat)
    requires j < |t| && IsKept(t, v, own, j)
    ensures r == SkipEnding(t, ToVoice(t, j + 1, v), v) && j < r <= |t|
    ensures r < |t| ==> IsKept(t, v, own, r) && Stops(t[r].kind)
    ensures forall k :: j < k < r && IsKept(t, v, own, k) ==> !Stops(t[k].kind)
  {
    var i := ToVoiceAt(t, v, own, j + 1);
    r := SkipsNothing(t, v, own, i);
    NothingKept(t, v, own, j + 1, i);
  }

  // ---------- The voice alone ----------

  ghost predicate NoParts(t: Features) {
    forall k :: 0 <= k < |t| ==> !t[k].kind.Part?
  }

  /** The same but for the places. */
  predicate SameState(a: Control, b: Control, strict: bool) {
    && a.pass == b.pass && a.maxpass == b.maxpass && a.expectRepeat == b.expectRepeat
    && a.now == b.now && a.saved == b.saved
    && (strict ==> a.inVarend == b.inVarend && a.errors == b.errors)
  }

  /** A repeat is open or being played again. */
  predicate Bound(a: Control) {
    a.expectRepeat || a.pass > 1
  }

  ghost predicate SamePlaces(t: Features, v: int, own: bool, a: Control, b: Control) {
    && GoesOn(t, v, own, a.j)
    && (if a.j < |t| then b.j == At(t, v, own, a.j) else b.j >= |PartOf(t, v, own)|)
    && b.savedJ == At(t, v, own, a.savedJ)
    && (Bound(a) ==> a.savedJ < |t| && IsKept(t, v, own, a.savedJ))
  }

  /** The run over the tune has come as far as the run over the part alone. A part mark that a search for the
      voice stops at is passed over, so that it does not end a variant ending. */
  ghost predicate Alike(t: Features, v: int, own: bool, a: Control, b: Control) {
    SameState(a, b, NoParts(t)) && SamePlaces(t, v, own, a, b)
  }

  /** A voice mark sounds nothing; the search behind it may stop at a part mark, which the part holds too. */
  lemma MarkStep(t: Features, v: int, own: bool, a: Control, b: Control) returns (b': Control)
    requires Inv(t, a) && a.j < |t| && t[a.j].kind.Voice? && Alike(t, v, own, a, b)
    ensures Alike(t, v, own, Next(t, v, a), b')
    ensures var u := PartOf(t, v, own); b' == b || (b.j < |u| && Emitted(u, b) == [] && b' == Next(u, v, b))
  {
    var r := Found(t, v, own, a.j);
    b' := b;
    if r < |t| {
      assert Owns(t, v, own, r + 1);
      if t[r].kind.Part? {
        KeptAt(t, v, own, r);
        b' := Next(PartOf(t, v, own), v, b);
      } else {
        assert PartTo(t, v, own, r + 1) == PartTo(t, v, own, r);
      }
    }
  }

  /** How a turn that does not look for a place moves: back behind the saved place, or on by one, perhaps
      saving the place. */
  predicate Moves(a: Control, a': Control, back: bool, saves: bool) {
    && a'.j == (if back then a.savedJ else a.j) + 1 && a'.savedJ == (if saves then a.j else a.savedJ)
    && !(back && saves) && (back ==> Bound(a)) && (Bound(a') ==> saves || Bound(a))
  }

  lemma TurnAlike(t: Features, u: Features, v: int, a: Control, b: Control, strict: bool)
      returns (back: bool, saves: bool)
    requires Inv(t, a) && a.j < |t| && b.j < |u| && t[a.j] == u[b.j] && SameState(a, b, strict)
    requires !t[a.j].kind.Voice? && !t[a.j].kind.PlayOnRep?
    ensures var a', b' := Next(t, v, a), Next(u, v, b);
            SameState(a', b', strict) && Moves(a, a', back, saves) && Moves(b, b', back, saves)
  {
    var k := t[a.j].kind;
    back := (k.RepBar? && if a.pass == 1 then a.expectRepeat else a.pass < a.maxpass)
         || (k.DoubleRep? && a.pass == 1 && a.expectRepeat);
    saves := k.BarRep? || (k.DoubleRep? && !back);
  }

  lemma PlacesMove(t: Features, v: int, own: bool, a: Control, b: Control, a': Control, b': Control, back: bool,
                   saves: bool)
    requires a.j < |t| && IsKept(t, v, own, a.j) && SamePlaces(t, v, own, a, b) && Bound(a) == Bound(b)
    requires Moves(a, a', back, saves) && Moves(b, b', back, saves)
    ensures SamePlaces(t, v, own, a', b')
  {
    KeptAt(t, v, own, a.j);
    if back {
      KeptAt(t, v, own, a.savedJ);
    }
  }

  /** A feature of the voice does in the tune what it does in the part. */
  lemma OwnStep(t: Features, v: int, own: bool, a: Control, b: Control) returns (b': Control)
    requires Inv(t, a) && a.j < |t| && !t[a.j].kind.Voice? && Alike(t, v, own, a, b)
    ensures var u := PartOf(t, v, own);
            && b.j < |u| && Emitted(u, b) == Emitted(t, a) && b' == Next(u, v, b)
            && Alike(t, v, own, Next(t, v, a), b')
  {
    var u := PartOf(t, v, own);
    EntryWord(t, v, own, a.j);
    KeptAt(t, v, own, a.j);
    b' := Next(u, v, b);
    if t[a.j].kind.PlayOnRep? {
      EndingStep(t, v, own, a, b);
    } else {
      var back, saves := TurnAlike(t, u, v, a, b, NoParts(t));
      PlacesMove(t, v, own, a, b, Next(t, v, a), b', back, saves);
    }
  }

  /** Where an ending that is not played is left: at its end, in the tune and in the part. */
  lemma EndingLeft(t: Features, v: int, own: bool, j: nat, p: nat) returns (r: nat, q: nat)
    requires j < |t| && IsKept(t, v, own, j) && p == At(t, v, own, j)
    ensures p + 1 == At(t, v, own, j + 1) <= |PartOf(t, v, own)|
    ensures r == SkipEnding(t, ToVoice(t, j + 1, v), v) && GoesOn(t, v, own, r)
    ensures q == SkipEnding(PartOf(t, v, own), ToVoice(PartOf(t, v, own), p + 1, v), v) == At(t, v, own, r)
    ensures r < |t| ==> IsKept(t, v, own, r) && q < |PartOf(t, v, own)| && PartOf(t, v, own)[q] == t[r]
    ensures r < |t| ==> At(t, v, own, r + 1) == q + 1
    ensures r == |t| ==> q == |PartOf(t, v, own)|
  {
    KeptAt(t, v, own, j);
    var k := ToVoiceAt(t, v, own, j + 1);
    r := SkipAlone(t, v, own, k);
    q := At(t, v, own, r);
    NoVoiceMarks(t, v, own, |t|);
    if r < |t| {
      KeptAt(t, v, own, r);
    }
  }

  /** Whether the ending at hand is played. */
  predicate Hit(f: Feature, a: Control) {
    InList(f, if Bound(a) then a.pass else 1).0
  }

  lemma EndingStep(t: Features, v: int, own: bool, a: Control, b: Control)
    requires Inv(t, a) && a.j < |t| && t[a.j].kind.PlayOnRep? && Alike(t, v, own, a, b)
    requires IsKept(t, v, own, a.j) && b.j < |PartOf(t, v, own)| && PartOf(t, v, own)[b.j] == t[a.j]
    ensures Alike(t, v, own, Next(t, v, a), Next(PartOf(t, v, own), v, b))
  {
    var u := PartOf(t, v, own);
    var r, q := EndingLeft(t, v, own, a.j, b.j);
    EndingTurn(t, v, a, r);
    EndingTurn(u, v, b, q);
    EndingState(t, u, v, a, b, r, q, NoParts(t));
    EndingPlaces(t, v, own, a, b, Next(t, v, a), Next(u, v, b), r, q);
  }

  /** The turn, given where the ending would be left. */
  lemma EndingTurn(t: Features, v: int, a: Control, r: nat)
    requires a.j < |t| && t[a.j].kind.PlayOnRep? && r == SkipEnding(t, ToVoice(t, a.j + 1, v), v) <= |t|
    ensures var a' := Next(t, v, a);
            && Bound(a') == Bound(a) && a'.savedJ == a.savedJ
            && a'.j == if Hit(t[a.j], a) then a.j + 1 else if r < |t| && t[r].kind.Part? then r else r + 1
  {
  }

  lemma EndingState(t: Features, u: Features, v: int, a: Control, b: Control, r: nat, q: nat, strict: bool)
    requires a.j < |t| && b.j < |u| && t[a.j] == u[b.j] && t[a.j].kind.PlayOnRep? && SameState(a, b, strict)
    requires r == SkipEnding(t, ToVoice(t, a.j + 1, v), v) <= |t|
    requires q == SkipEnding(u, ToVoice(u, b.j + 1, v), v) <= |u|
    requires r < |t| <==> q < |u|
    ensures SameState(Next(t, v, a), Next(u, v, b), strict)
  {
  }

  lemma EndingPlaces(t: Features, v: int, own: bool, a: Control, b: Control, a': Control, b': Control, r: nat, q: nat)
    requires a.j < |t| && IsKept(t, v, own, a.j) && SamePlaces(t, v, own, a, b) && Bound(a) == Bound(b) == Bound(a')
    requires Hit(t[a.j], a) == Hit(t[a.j], b) && a'.savedJ == a.savedJ && b'.savedJ == b.savedJ
    requires r <= |t| && GoesOn(t, v, own, r) && q == At(t, v, own, r)
    requires r < |t| ==> IsKept(t, v, own, r) && q < |PartOf(t, v, own)| && PartOf(t, v, own)[q] == t[r]
    requires r == |t| ==> q == |PartOf(t, v, own)|
    requires a'.j == if Hit(t[a.j], a) then a.j + 1 else if r < |t| && t[r].kind.Part? then r else r + 1
    requires b'.j == if Hit(t[a.j], a) then b.j + 1
                     else if r < |t| && t[r].kind.Part? then q else q + 1
    ensures SamePlaces(t, v, own, a', b')
  {
    KeptAt(t, v, own, a.j);
    if r < |t| {
      KeptAt(t, v, own, r);
    }
  }

  lemma AlikeInv(t: Features, v: int, own: bool, a: Control, b: Control)
    requires Inv(t, a) && Alike(t, v, own, a, b)
    ensures Inv(PartOf(t, v, own), b)
  {
    AtMost(t, v, own, a.savedJ, a.j);
    if a.expectRepeat || a.pass > 1 {
      KeptAt(t, v, own, a.savedJ);
      AtMost(t, v, own, a.savedJ + 1, a.j);
    }
  }

  /** One turn in the tune is at most one in the part. */
  lemma TurnOrNone(t: Features, v: int, own: bool, a: Control, b: Control) returns (b': Control)
    requires Inv(t, a) && a.j < |t| && Alike(t, v, own, a, b)
    ensures Alike(t, v, own, Next(t, v, a), b')
    ensures var u := PartOf(t, v, own);
            || (b' == b && Emitted(t, a) == [])
            || (b.j < |u| && b' == Next(u, v, b) && Emitted(u, b) == Emitted(t, a))
  {
    if t[a.j].kind.Voice? {
      b' := MarkStep(t, v, own, a, b);
    } else {
      b' := OwnStep(t, v, own, a, b);
    }
  }

  lemma TurnPlayed(t: Features, v: int, a: Control)
    requires Inv(t, a) && a.j < |t|
    ensures var a' := Next(t, v, a);
            && Inv(t, a') && Smaller(t, a', a)
            && Played(t, v, a) == Emitted(t, a) + Played(t, v, a') && Final(t, v, a) == Final(t, v, a')
  {
    NextProgress(t, v, a);
  }

  ghost predicate RunAlike(t: Features, v: int, own: bool, a: Control, b: Control) {
    var u := PartOf(t, v, own);
    && Inv(t, a) && Inv(u, b) && Played(t, v, a) == Played(u, v, b)
    && Final(t, v, a).expectRepeat == Final(u, v, b).expectRepeat
    && (NoParts(t) ==> Final(t, v, a).errors == Final(u, v, b).errors)
  }

  /** A turn in front of two runs that are alike. */
  lemma TurnBefore(t: Features, v: int, own: bool, a: Control, b: Control, b': Control)
    requires Inv(t, a) && a.j < |t| && Inv(PartOf(t, v, own), b) && RunAlike(t, v, own, Next(t, v, a), b')
    requires var u := PartOf(t, v, own);
             || (b' == b && Emitted(t, a) == [])
             || (b.j < |u| && b' == Next(u, v, b) && Emitted(u, b) == Emitted(t, a))
    ensures RunAlike(t, v, own, a, b)
  {
    TurnPlayed(t, v, a);
    if b.j < |PartOf(t, v, own)| {
      TurnPlayed(PartOf(t, v, own), v, b);
    }
  }

  lemma {:induction false} RunsAlike(t: Features, v: int, own: bool, a: Control, b: Control)
    requires Inv(t, a) && Alike(t, v, own, a, b)
    ensures RunAlike(t, v, own, a, b)
    decreases Max0(|t| - a.savedJ), Max0(4 - a.pass), Max0(|t| - a.j)
  {
    AlikeInv(t, v, own, a, b);
    if a.j < |t| {
      TurnPlayed(t, v, a);
      var b' := TurnOrNone(t, v, own, a, b);
      RunsAlike(t, v, own, Next(t, v, a), b');
      TurnBefore(t, v, own, a, b, b');
    }
  }

  /** In a tune of several voices a track plays what it would if the part of its voice stood alone, repeats,
      variant endings and settings included: whatever stands in the stretches of the other voices. */
  lemma VoiceAlone(t: Features, v: int, used: bool, env: Settings)
    ensures var own := !(used && v != 1);
            var u, a := PartOf(t, v, own), Start(t, v, Beginning(t, v, used), env);
            var b := Start(u, v, 0, env);
            && Played(t, v, a) == Played(u, v, b)
            && Final(t, v, a).expectRepeat == Final(u, v, b).expectRepeat
            && (NoParts(t) ==> Final(t, v, a).errors == Final(u, v, b).errors)
  {
    var own := !(used && v != 1);
    var a, b := Start(t, v, Beginning(t, v, used), env), Start(PartOf(t, v, own), v, 0, env);
    if !own {
      FindsEntry(t, v, 0);
      NothingBetween(t, v, own, 0, a.j);
    }
    assert PartTo(t, v, own, 0) == [];
    RunsAlike(t, v, own, a, b);
  }

  // ---------- Stretches ----------

  /** What follows a voice mark. */
  datatype Stretch = Stretch(voice: int, body: Features)

  function Mark(v: int): (f: Feature) {
    Feature(Voice, v, 0, 0, 0, 0, 0, 0, "")
  }

  function PrintStretches(xs: seq<Stretch>): (t: Features) {
    if xs == [] then [] else PrintStretches(xs[..|xs| - 1]) + [Mark(xs[|xs| - 1].voice)] + xs[|xs| - 1].body
  }

  /** The stretches of one voice, joined. */
  function Joined(xs: seq<Stretch>, v: int): (u: Features) {
    if xs == [] then []
    else Joined(xs[..|xs| - 1], v) + if xs[|xs| - 1].voice == v then xs[|xs| - 1].body else []
  }

  /** Each stretch of the voice played in turn, with the settings the one before it leaves. */
  function PlayedBy(xs: seq<Stretch>, v: int, env: Settings): (r: (seq<Event>, Settings)) {
    if xs == [] then ([], env)
    else
      var (ev, env') := PlayedBy(xs[..|xs| - 1], v, env);
      var x := xs[|xs| - 1];
      if x.voice == v then (ev + S.Perform(x.body, env'), S.After(x.body, env')) else (ev, env')
  }

  /** A feature that can stand in a stretch: no voice or part mark. */
  ghost predicate InStretch(x: Features) {
    forall k :: 0 <= k < |x| ==> !x[k].kind.Voice? && !x[k].kind.Part?
  }

  lemma {:induction false} PartOfStretch(pre: Features, x: Stretch, v: int, own: bool, n: nat)
    requires InStretch(x.body) && n <= |x.body|
    ensures var t, k := pre + [Mark(x.voice)] + x.body, |pre| + 1 + n;
            && Owns(t, v, own, k) == (x.voice == v)
            && PartTo(t, v, own, k) == PartTo(t, v, own, |pre|) + if x.voice == v then x.body[..n] else []
    decreases n
  {
    var t, k := pre + [Mark(x.voice)] + x.body, |pre| + 1 + n;
    if n > 0 {
      PartOfStretch(pre, x, v, own, n - 1);
      assert t[k - 1] == x.body[n - 1];
      assert x.body[..n] == x.body[..n - 1] + [x.body[n - 1]];
    } else {
      assert t[k - 1] == Mark(x.voice);
    }
  }

  lemma {:induction false} PartSame(t: Features, t': Features, v: int, own: bool, j: nat)
    requires j <= |t| && j <= |t'| && t[..j] == t'[..j]
    ensures Owns(t, v, own, j) == Owns(t', v, own, j) && PartTo(t, v, own, j) == PartTo(t', v, own, j)
    decreases j
  {
    if j > 0 {
      assert t[j - 1] == t[..j][j - 1] == t'[..j][j - 1] == t'[j - 1];
      assert t[..j - 1] == t[..j][..j - 1] == t'[..j][..j - 1] == t'[..j - 1];
      PartSame(t, t', v, own, j - 1);
    }
  }

  lemma {:induction false} PartIsJoined(xs: seq<Stretch>, v: int, own: bool)
    requires forall k :: 0 <= k < |xs| ==> InStretch(xs[k].body)
    ensures PartOf(PrintStretches(xs), v, own) == Joined(xs, v)
    decreases |xs|
  {
    if xs != [] {
      var pre, x := PrintStretches(xs[..|xs| - 1]), xs[|xs| - 1];
      var t := PrintStretches(xs);
      PartIsJoined(xs[..|xs| - 1], v, own);
      PartOfStretch(pre, x, v, own, |x.body|);
      assert x.body[..|x.body|] == x.body;
      assert t[..|pre|] == pre == pre[..|pre|];
      PartSame(t, pre, v, own, |pre|);
    }
  }

  lemma {:induction false} JoinedPlays(xs: seq<Stretch>, v: int, env: Settings)
    ensures PlayedBy(xs, v, env) == (S.Perform(Joined(xs, v), env), S.After(Joined(xs, v), env))
    decreases |xs|
  {
    if xs != [] {
      JoinedPlays(xs[..|xs| - 1], v, env);
      var x := xs[|xs| - 1];
      if x.voice == v {
        S.PerformJoin(Joined(xs[..|xs| - 1], v), x.body, env);
      } else {
        assert Joined(xs, v) == Joined(xs[..|xs| - 1], v);
      }
    }
  }

  lemma {:induction false} JoinedIsBody(xs: seq<Stretch>, v: int)
    requires forall k :: 0 <= k < |xs| ==> S.IsBody(xs[k].body)
    ensures S.IsBody(Joined(xs, v))
    decreases |xs|
  {
    if xs != [] {
      JoinedIsBody(xs[..|xs| - 1], v);
    }
  }

  /** Stretches without repeats: a track plays exactly those whose mark names its voice, in order, and only they
      change its settings. */
  lemma StretchesOfVoice(xs: seq<Stretch>, v: int, used: bool, env: Settings)
    requires forall k :: 0 <= k < |xs| ==> S.IsBody(xs[k].body)
    ensures var t := PrintStretches(xs);
            var a := Start(t, v, Beginning(t, v, used), env);
            && Played(t, v, a) == PlayedBy(xs, v, env).0
            && !Final(t, v, a).expectRepeat
  {
    var t, u := PrintStretches(xs), Joined(xs, v);
    VoiceAlone(t, v, used, env);
    PartIsJoined(xs, v, !(used && v != 1));
    JoinedPlays(xs, v, env);
    JoinedIsBody(xs, v);
    StraightPlays(u, v, env);
  }

  lemma StraightPlays(u: Features, v: int, env: Settings)
    requires S.IsBody(u)
    ensures Played(u, v, Start(u, v, 0, env)) == S.Perform(u, env) && !Final(u, v, Start(u, v, 0, env)).expectRepeat
  {
    var ss := [S.Straight(u)];
    assert ss[1..] == [] && S.PrintAll(ss) == u + [] == u;
    assert S.UnrollAll(ss, env) == S.Perform(u, env) + [] == S.Perform(u, env);
    S.PlaybackUnrolls(ss, v, env);
  }

  /** A voice whose part is made of sections, with the stretches of other voices anywhere in between, is played
      as its written-out form. */
  lemma VoiceUnrolls(t: Features, ss: seq<S.Section>, v: int, used: bool, env: Settings)
    requires PartOf(t, v, !(used && v != 1)) == S.PrintAll(ss) && forall k :: 0 <= k < |ss| ==> ss[k].Ok()
    ensures var a := Start(t, v, Beginning(t, v, used), env);
            && Played(t, v, a) == S.UnrollAll(ss, env)
            && !Final(t, v, a).expectRepeat && (NoParts(t) ==> Final(t, v, a).errors == 0)
  {
    VoiceAlone(t, v, used, env);
    S.PlaybackUnrolls(ss, v, env);
  }
}
