/** fixreps: missing repeat marks are put in while the tune is scanned, by changing bars already passed. */
module FixReps {
  import opened Tune

  predicate IsRepeat(k: Kind) {
    k.BarRep? || k.RepBar? || k.DoubleRep?
  }

  /** A repeat is open in front of place j: the last repeat mark before it opens one. */
  predicate OpenAt(t: Features, j: nat)
    requires j <= |t|
    decreases j
  {
    if j == 0 then false
    else if t[j - 1].kind.BarRep? || t[j - 1].kind.DoubleRep? then true
    else if t[j - 1].kind.RepBar? then false
    else OpenAt(t, j - 1)
  }

  /** The mark at j fits: |: where nothing is open, :: and :| only where something is. */
  predicate Fits(t: Features, j: nat)
    requires j < |t|
  {
    && (t[j].kind.BarRep? ==> !OpenAt(t, j))
    && (t[j].kind.RepBar? || t[j].kind.DoubleRep? ==> OpenAt(t, j))
  }

  ghost predicate AllFit(t: Features, j: nat)
    requires j <= |t|
  {
    forall i :: 0 <= i < j ==> Fits(t, i)
  }

  ghost predicate Bracketed(t: Features) {
    AllFit(t, |t|)
  }

  // ---------- Where the scan's reference point is set ----------

  /** The reference point has been set: a double bar or a :| has been passed. */
  predicate HasPoint(t: Features, j: nat)
    requires j <= |t|
    decreases j
  {
    j > 0 && (t[j - 1].kind.DoubleBar? || t[j - 1].kind.RepBar? || HasPoint(t, j - 1))
  }

  predicate Marked(t: Features, j: nat)
    requires j <= |t|
    decreases j
  {
    j > 0 && (t[j - 1].kind.DoubleBar? || t[j - 1].kind.BarRep? || Marked(t, j - 1))
  }

  /** No :|, :: or variant ending comes before the first double bar or |: of the tune. */
  ghost predicate StartsWell(t: Features) {
    forall j :: 0 <= j < |t| && (t[j].kind.RepBar? || t[j].kind.DoubleRep? || t[j].kind.PlayOnRep?) ==> Marked(t, j)
  }

  lemma {:induction false} MarkedSet(t: Features, j: nat)
    requires j <= |t| && Marked(t, j)
    ensures OpenAt(t, j) || HasPoint(t, j)
    decreases j
  {
    if Marked(t, j - 1) {
      MarkedSet(t, j - 1);
    }
  }

  lemma {:induction false} UnnotedSet(t: Features, j: nat)
    requires StartsWell(t) && j <= |t| && Unnoted(t, j)
    ensures HasPoint(t, j)
    decreases j
  {
    if Unnoted(t, j - 1) {
      UnnotedSet(t, j - 1);
    } else {
      MarkedSet(t, j - 1);
    }
  }

  lemma {:induction false} MarkedBehind(t: Features, d: nat, j: nat)
    requires d < j <= |t| && t[d].kind.DoubleBar?
    ensures Marked(t, j)
    decreases j
  {
    if d < j - 1 {
      MarkedBehind(t, d, j - 1);
    }
  }

  /** A tune with a double bar behind its first line of music, and no mark before it. */
  lemma BehindDoubleBar(t: Features, d: nat)
    requires d < |t| && t[d].kind.DoubleBar?
    requires forall i :: 0 <= i < d ==> !IsRepeat(t[i].kind) && !t[i].kind.PlayOnRep?
    ensures StartsWell(t)
  {
    forall j | 0 <= j < |t| && (IsRepeat(t[j].kind) || t[j].kind.PlayOnRep?)
      ensures Marked(t, j)
    {
      MarkedBehind(t, d, j);
    }
  }

  // ---------- The condition, on the tune as it is written ----------

  predicate VariantBefore(t: Features, j: nat)
    requires j <= |t|
    decreases j
  {
    j > 0 && (t[j - 1].kind.PlayOnRep? || VariantBefore(t, j - 1))
  }

  /** The first variant ending of the tune stands outside a repeat, and no repeat mark has followed it up
      to j: the scan has opened a repeat for it without taking note. */
  predicate Unnoted(t: Features, j: nat)
    requires j <= |t|
    decreases j
  {
    && j > 0 && !IsRepeat(t[j - 1].kind)
    && (Unnoted(t, j - 1) || (t[j - 1].kind.PlayOnRep? && !VariantBefore(t, j - 1) && !OpenAt(t, j - 1)))
  }

  /** Since that variant ending a double bar has become the place where a repeat is taken to start. */
  predicate Moved(t: Features, j: nat)
    requires j <= |t|
    decreases j
  {
    && j > 0 && Unnoted(t, j - 1) && !IsRepeat(t[j - 1].kind)
    && (t[j - 1].kind.DoubleBar? || Moved(t, j - 1))
  }

  /** A mark the scan goes wrong at: a :| that closes nothing, after a variant ending; a |: in a repeat
      opened without note; or a :: there, when the repeat is opened a second time at a later double bar. */
  predicate Bad(t: Features, j: nat)
    requires j < |t|
  {
    var k := t[j].kind;
    || (k.RepBar? && VariantBefore(t, j) && !OpenAt(t, j) && !Unnoted(t, j))
    || (k.BarRep? && Unnoted(t, j))
    || (k.DoubleRep? && Moved(t, j))
  }

  // ---------- The scan ----------

  /** The tune so far, and the scan's variables; until the reference point is set, 0 stands for it. */
  datatype Scan = Scan(u: Features, expectRepeat: bool, nplays: nat, repPoint: nat)

  /** placestartrep; a place that cannot be repaired is left as it is. */
  function StartRep(f: Feature): (g: Feature) {
    if f.kind.DoubleBar? || f.kind.SingleBar? then f.(kind := BarRep)
    else if f.kind.RepBar? then f.(kind := DoubleRep)
    else f
  }

  /** placeendrep */
  function EndRep(f: Feature): (g: Feature) {
    if f.kind.DoubleBar? || f.kind.SingleBar? then f.(kind := RepBar)
    else if f.kind.BarRep? then f.(kind := DoubleRep)
    else f
  }

  function Started(s: Scan): (r: Scan)
    requires s.repPoint < |s.u|
  {
    s.(u := s.u[s.repPoint := StartRep(s.u[s.repPoint])])
  }

  /** One turn of the loop. */
  function Turn(s: Scan, j: nat): (r: Scan)
    requires j < |s.u| && s.repPoint < |s.u|
    ensures |r.u| == |s.u| && r.repPoint < |r.u|
  {
    var k := s.u[j].kind;
    if k.DoubleBar? then s.(repPoint := j)
    else if k.BarRep? then
      (if s.expectRepeat then s.(u := s.u[j := EndRep(s.u[j])]) else s).(expectRepeat := true)
    else if k.RepBar? then
      (if !s.expectRepeat && s.nplays < 1 then Started(s) else s).(expectRepeat := false, repPoint := j)
    else if k.PlayOnRep? then
      (if s.nplays == 0 && !s.expectRepeat then Started(s) else s).(nplays := s.nplays + 1)
    else if k.DoubleRep? then
      (if !s.expectRepeat then Started(s) else s).(expectRepeat := true)
    else s
  }

  function ScanTo(t: Features, j: nat): (s: Scan)
    requires t != [] && j <= |t|
    ensures |s.u| == |t| && s.repPoint < |t|
    decreases j
  {
    if j == 0 then Scan(t, false, 0, 0) else Turn(ScanTo(t, j - 1), j - 1)
  }

  function Repair(t: Features): (u: Features)
    ensures |u| == |t|
  {
    if t == [] then [] else ScanTo(t, |t|).u
  }

  /** The turn changes the bar at the reference point. */
  predicate Reads(s: Scan, j: nat)
    requires j < |s.u|
  {
    var k := s.u[j].kind;
    && !s.expectRepeat
    && (k.DoubleRep? || ((k.RepBar? || k.PlayOnRep?) && s.nplays == 0))
  }

  lemma {:induction false} Counted(t: Features, j: nat)
    requires t != [] && j <= |t|
    ensures var s := ScanTo(t, j);
            && (forall i :: j <= i < |t| ==> s.u[i] == t[i]) && (s.repPoint < j || s.repPoint == 0)
            && s.expectRepeat == OpenAt(t, j) && (s.nplays >= 1 <==> VariantBefore(t, j))
    decreases j
  {
    if j > 0 {
      Counted(t, j - 1);
    }
  }

  lemma {:induction false} Unmarked(t: Features, j: nat)
    requires j <= |t| && !Marked(t, j) && forall i :: 0 <= i < j ==> !t[i].kind.DoubleRep? && !t[i].kind.PlayOnRep?
    ensures !OpenAt(t, j) && !VariantBefore(t, j)
    decreases j
  {
    if j > 0 {
      Unmarked(t, j - 1);
    }
  }

  lemma SetWhereRead(t: Features, j: nat)
    requires StartsWell(t) && j < |t|
    ensures Reads(ScanTo(t, j), j) ==> HasPoint(t, j)
  {
    Counted(t, j);
    if Marked(t, j) {
      MarkedSet(t, j);
    }
  }

  /** The scan reads its reference point, which nothing sets at first, only after it has been set,
      exactly when the tune starts well. */
  lemma PointReadIff(t: Features)
    requires t != []
    ensures (forall j :: 0 <= j < |t| && Reads(ScanTo(t, j), j) ==> HasPoint(t, j)) <==> StartsWell(t)
  {
    if StartsWell(t) {
      forall j | 0 <= j < |t|
        ensures Reads(ScanTo(t, j), j) ==> HasPoint(t, j)
      {
        SetWhereRead(t, j);
      }
    } else {
      var j: nat :| j < |t| && (t[j].kind.RepBar? || t[j].kind.DoubleRep? || t[j].kind.PlayOnRep?) && !Marked(t, j);
      var _ := ReadUnset(t, j);
    }
  }

  lemma {:induction false} Earlier(t: Features, i: nat, j: nat)
    requires i <= j <= |t| && !Marked(t, j)
    ensures !Marked(t, i)
    decreases j
  {
    if i < j {
      Earlier(t, i, j - 1);
    }
  }

  /** The first unmarked mark makes the scan read the reference point before it is set. */
  lemma {:induction false} ReadUnset(t: Features, j: nat) returns (r: nat)
    requires j < |t| && (t[j].kind.RepBar? || t[j].kind.DoubleRep? || t[j].kind.PlayOnRep?) && !Marked(t, j)
    ensures r <= j && Reads(ScanTo(t, r), r) && !HasPoint(t, r)
    decreases j
  {
    if i: nat :| i < j && (t[i].kind.RepBar? || t[i].kind.DoubleRep? || t[i].kind.PlayOnRep?) {
      Earlier(t, i, j);
      r := ReadUnset(t, i);
    } else {
      r := j;
      Unmarked(t, j);
      Counted(t, j);
      NoPoint(t, j);
    }
  }

  lemma {:induction false} NoPoint(t: Features, j: nat)
    requires j <= |t| && !Marked(t, j) && forall i :: 0 <= i < j ==> !t[i].kind.RepBar?
    ensures !HasPoint(t, j)
    decreases j
  {
    if j > 0 {
      NoPoint(t, j - 1);
    }
  }

  // ---------- What the scan keeps ----------

  lemma {:induction false} OpenSame(t: Features, u: Features, j: nat)
    requires j <= |t| && j <= |u| && forall i :: 0 <= i < j ==> t[i] == u[i]
    ensures OpenAt(t, j) == OpenAt(u, j)
    decreases j
  {
    if j > 0 {
      OpenSame(t, u, j - 1);
    }
  }

  /** From a mark on to the next one, the mark decides. */
  lemma {:induction false} OpenFrom(t: Features, r: nat, j: nat)
    requires r < j <= |t| && IsRepeat(t[r].kind) && forall i :: r < i < j ==> !IsRepeat(t[i].kind)
    ensures OpenAt(t, j) == !t[r].kind.RepBar?
    decreases j
  {
    if r < j - 1 {
      OpenFrom(t, r, j - 1);
    }
  }

  lemma {:induction false} OpenOver(t: Features, r: nat, j: nat)
    requires r <= j <= |t| && forall i :: r <= i < j ==> !IsRepeat(t[i].kind)
    ensures OpenAt(t, j) == OpenAt(t, r)
    decreases j
  {
    if r < j {
      OpenOver(t, r, j - 1);
    }
  }

  /** Only bars were changed, and only in kind. */
  predicate Repaired(f: Feature, g: Feature) {
    || g == f
    || ((f.kind.DoubleBar? || f.kind.RepBar? || f.kind.BarRep?) && IsRepeat(g.kind) && g == f.(kind := g.kind))
  }

  /** The place where a repeat would be taken to start, while none is noted as open: a double bar or a :|,
      or, already changed, the one where a repeat was opened without note; no repeat mark follows it. */
  ghost predicate PointOk(t: Features, s: Scan, j: nat)
    requires j <= |t| == |s.u|
  {
    var r, u := s.repPoint, s.u;
    && r < j && (forall i :: r < i < j ==> !IsRepeat(u[i].kind))
    && if !Unnoted(t, j) then u[r].kind.DoubleBar? || u[r].kind.RepBar?
       else if Moved(t, j) then u[r].kind.DoubleBar? else u[r].kind.BarRep? || u[r].kind.DoubleRep?
  }

  ghost predicate Scanned(t: Features, s: Scan, j: nat) {
    && j <= |t| == |s.u| && s.repPoint < |t|
    && (forall i :: j <= i < |t| ==> s.u[i] == t[i])
    && s.expectRepeat == OpenAt(t, j) && (s.nplays >= 1 <==> VariantBefore(t, j))
    && OpenAt(s.u, j) == (OpenAt(t, j) || Unnoted(t, j))
    && (HasPoint(t, j) && !OpenAt(t, j) ==> PointOk(t, s, j))
  }

  /** The repeat opened without note is not open in the tune as it was written. */
  lemma {:induction false} UnnotedClosed(t: Features, j: nat)
    requires j <= |t| && Unnoted(t, j)
    ensures !OpenAt(t, j) && VariantBefore(t, j)
    ensures Moved(t, j) ==> Unnoted(t, j)
    decreases j
  {
    if Unnoted(t, j - 1) {
      UnnotedClosed(t, j - 1);
    }
  }

  /** placestartrep at the reference point opens a repeat that lasts up to j, and spoils the fit only of a
      double bar in a repeat that was open already. */
  lemma StartPlaced(t: Features, s: Scan, j: nat)
    requires Scanned(t, s, j) && j < |t| && !OpenAt(t, j) && HasPoint(t, j)
    ensures var u := Started(s).u;
            && OpenAt(u, j) && (forall i :: j <= i < |t| ==> u[i] == t[i])
            && (AllFit(u, j) <==> AllFit(s.u, j) && !Moved(t, j))
            && (forall i :: s.repPoint < i < j ==> !IsRepeat(u[i].kind))
            && (u[s.repPoint].kind.BarRep? || u[s.repPoint].kind.DoubleRep?)
  {
    var u, u', r := s.u, Started(s).u, s.repPoint;
    OpenFrom(u', r, j);
    OpenSame(u, u', r);
    if Unnoted(t, j) { UnnotedClosed(t, j); }
    if u[r].kind.DoubleBar? { OpenOver(u, r, j); }
    forall i | 0 <= i < j
      ensures Fits(u', i) <==> Fits(u, i) && !(i == r && Moved(t, j))
    {
      if i < r {
        OpenSame(u, u', i);
      }
    }
    assert AllFit(u', j) ==> Fits(u', r);
  }

  lemma NotMoved(t: Features, j: nat)
    requires j <= |t| && !Unnoted(t, j)
    ensures !Moved(t, j)
  {
  }

  /** What lies behind is not changed by a change at j. */
  lemma FitSame(u: Features, u': Features, j: nat)
    requires j <= |u| == |u'| && forall i :: 0 <= i < j ==> u[i] == u'[i]
    ensures AllFit(u, j) <==> AllFit(u', j)
    ensures OpenAt(u, j) == OpenAt(u', j)
  {
    OpenSame(u, u', j);
    forall i | 0 <= i < j
      ensures Fits(u, i) <==> Fits(u', i)
    {
      OpenSame(u, u', i);
    }
  }

  lemma FitNext(u: Features, j: nat)
    requires j < |u|
    ensures AllFit(u, j + 1) <==> AllFit(u, j) && Fits(u, j)
  {
  }

  /** A turn that places a start. */
  lemma TurnStarts(t: Features, s: Scan, j: nat)
    requires StartsWell(t) && Scanned(t, s, j) && j < |t| && !OpenAt(t, j)
    requires var k := t[j].kind; k.DoubleRep? || ((k.RepBar? || k.PlayOnRep?) && !VariantBefore(t, j))
    ensures Scanned(t, Turn(s, j), j + 1)
    ensures AllFit(Turn(s, j).u, j + 1) <==> AllFit(s.u, j) && !Bad(t, j)
  {
    MarkedSet(t, j);
    StartPlaced(t, s, j);
    var u := Started(s).u;
    assert Turn(s, j).u == u && u[j] == t[j];
    if Unnoted(t, j) { UnnotedClosed(t, j); } else { NotMoved(t, j); }
    FitNext(u, j);
    PointStays(t, s, j);
  }

  lemma PointStays(t: Features, s: Scan, j: nat)
    requires Scanned(t, s, j) && j < |t| && !OpenAt(t, j) && HasPoint(t, j)
    requires var k := t[j].kind; k.DoubleRep? || ((k.RepBar? || k.PlayOnRep?) && !VariantBefore(t, j))
    requires var u := Started(s).u;
             && u[j] == t[j] && (forall i :: s.repPoint < i < j ==> !IsRepeat(u[i].kind))
             && (u[s.repPoint].kind.BarRep? || u[s.repPoint].kind.DoubleRep?)
    ensures !OpenAt(t, j + 1) ==> PointOk(t, Turn(s, j), j + 1)
  {
    if Unnoted(t, j) { UnnotedClosed(t, j); } else { NotMoved(t, j); }
  }

  /** Any other turn. */
  lemma TurnPasses(t: Features, s: Scan, j: nat)
    requires StartsWell(t) && Scanned(t, s, j) && j < |t|
    requires var k := t[j].kind;
             OpenAt(t, j) || !(k.DoubleRep? || ((k.RepBar? || k.PlayOnRep?) && !VariantBefore(t, j)))
    ensures Scanned(t, Turn(s, j), j + 1)
    ensures AllFit(Turn(s, j).u, j + 1) <==> AllFit(s.u, j) && !Bad(t, j)
  {
    var u := Turn(s, j).u;
    assert u == if t[j].kind.BarRep? && OpenAt(t, j) then s.u[j := EndRep(t[j])] else s.u;
    if Unnoted(t, j) { UnnotedClosed(t, j); UnnotedSet(t, j); } else { NotMoved(t, j); }
    FitSame(s.u, u, j);
    FitNext(u, j);
    PointMoves(t, s, j);
  }

  lemma PointMoves(t: Features, s: Scan, j: nat)
    requires StartsWell(t) && Scanned(t, s, j) && j < |t|
    requires var k := t[j].kind;
             OpenAt(t, j) || !(k.DoubleRep? || ((k.RepBar? || k.PlayOnRep?) && !VariantBefore(t, j)))
    ensures HasPoint(t, j + 1) && !OpenAt(t, j + 1) ==> PointOk(t, Turn(s, j), j + 1)
  {
    if Unnoted(t, j) { UnnotedClosed(t, j); UnnotedSet(t, j); } else { NotMoved(t, j); }
  }

  lemma TurnKeeps(t: Features, s: Scan, j: nat)
    requires StartsWell(t) && Scanned(t, s, j) && j < |t|
    ensures Scanned(t, Turn(s, j), j + 1)
    ensures AllFit(Turn(s, j).u, j + 1) <==> AllFit(s.u, j) && !Bad(t, j)
  {
    var k := t[j].kind;
    if !OpenAt(t, j) && (k.DoubleRep? || ((k.RepBar? || k.PlayOnRep?) && !VariantBefore(t, j))) {
      TurnStarts(t, s, j);
    } else {
      TurnPasses(t, s, j);
    }
  }

  lemma {:induction false} ScanKeeps(t: Features, j: nat)
    requires t != [] && StartsWell(t) && j <= |t|
    ensures Scanned(t, ScanTo(t, j), j)
    ensures AllFit(ScanTo(t, j).u, j) <==> forall i :: 0 <= i < j ==> !Bad(t, i)
    decreases j
  {
    if j > 0 {
      ScanKeeps(t, j - 1);
      TurnKeeps(t, ScanTo(t, j - 1), j - 1);
    }
  }

  /** The repaired tune is well bracketed exactly when the scan meets no mark that it goes wrong at. */
  lemma RepairBracketsIff(t: Features)
    requires StartsWell(t)
    ensures Bracketed(Repair(t)) <==> forall j :: 0 <= j < |t| ==> !Bad(t, j)
  {
    if t != [] {
      ScanKeeps(t, |t|);
    }
  }

  ghost predicate BarsOnly(t: Features, s: Scan, j: nat) {
    && j <= |t| == |s.u| && s.repPoint < |t|
    && (forall i :: 0 <= i < |t| ==> Repaired(t[i], s.u[i]))
    && (HasPoint(t, j) ==> t[s.repPoint].kind.DoubleBar? || t[s.repPoint].kind.RepBar?)
  }

  lemma StartRepaired(f: Feature, g: Feature)
    requires Repaired(f, g) && (f.kind.DoubleBar? || f.kind.RepBar?)
    ensures Repaired(f, StartRep(g))
  {
  }

  lemma EndRepaired(f: Feature)
    requires f.kind.BarRep?
    ensures Repaired(f, EndRep(f))
  {
  }

  lemma TurnPoint(t: Features, s: Scan, j: nat)
    requires BarsOnly(t, s, j) && j < |t| && s.u[j] == t[j]
    ensures var r := Turn(s, j).repPoint;
            r < |t| && (HasPoint(t, j + 1) ==> t[r].kind.DoubleBar? || t[r].kind.RepBar?)
  {
  }

  lemma TurnChanges(s: Scan, j: nat)
    requires j < |s.u| && s.repPoint < |s.u|
    ensures Turn(s, j).u == if Reads(s, j) then s.u[s.repPoint := StartRep(s.u[s.repPoint])]
                            else if s.u[j].kind.BarRep? && s.expectRepeat then s.u[j := EndRep(s.u[j])] else s.u
  {
  }

  lemma TurnBarsOnly(t: Features, s: Scan, j: nat)
    requires BarsOnly(t, s, j) && j < |t| && s.u[j] == t[j] && (Reads(s, j) ==> HasPoint(t, j))
    ensures BarsOnly(t, Turn(s, j), j + 1)
  {
    TurnPoint(t, s, j);
    TurnChanges(s, j);
    if Reads(s, j) {
      StartRepaired(t[s.repPoint], s.u[s.repPoint]);
    } else if t[j].kind.BarRep? {
      EndRepaired(t[j]);
    }
  }

  lemma NextBarsOnly(t: Features, j: nat)
    requires t != [] && StartsWell(t) && j < |t| && BarsOnly(t, ScanTo(t, j), j)
    ensures BarsOnly(t, ScanTo(t, j + 1), j + 1)
  {
    Counted(t, j);
    SetWhereRead(t, j);
    TurnBarsOnly(t, ScanTo(t, j), j);
  }

  lemma {:induction false} OnlyBars(t: Features, j: nat)
    requires t != [] && StartsWell(t) && j <= |t|
    ensures BarsOnly(t, ScanTo(t, j), j)
    decreases j
  {
    if j == 0 {
      assert ScanTo(t, 0).u == t;
    } else {
      OnlyBars(t, j - 1);
      NextBarsOnly(t, j - 1);
    }
  }

  /** Only bars change, and only into repeat marks. */
  lemma RepairChangesBarsOnly(t: Features)
    requires StartsWell(t)
    ensures forall i :: 0 <= i < |t| ==> Repaired(t[i], Repair(t)[i])
  {
    if t != [] {
      OnlyBars(t, |t|);
    }
  }

  // ---------- Where the marks are put ----------

  predicate IsPlace(k: Kind) {
    k.DoubleBar? || k.RepBar?
  }

  /** i is the last double bar or :| in front of j. */
  ghost predicate LastPlace(t: Features, i: nat, j: nat)
    requires j <= |t|
  {
    i < j && IsPlace(t[i].kind) && forall k :: i < k < j ==> !IsPlace(t[k].kind)
  }

  /** A :|, :: or the first variant ending with no repeat open. */
  predicate StartMissing(t: Features, j: nat)
    requires j < |t|
  {
    && !OpenAt(t, j)
    && (t[j].kind.DoubleRep? || ((t[j].kind.RepBar? || t[j].kind.PlayOnRep?) && !VariantBefore(t, j)))
  }

  /** Some mark in front of n lacks its start, and i is the place for it. */
  ghost predicate Placed(t: Features, i: nat, n: nat)
    requires n <= |t|
  {
    exists j: nat :: j < n && StartMissing(t, j) && LastPlace(t, i, j)
  }

  /** What becomes of the feature at i when the marks in front of n have been dealt with. */
  ghost function Mended(t: Features, i: nat, n: nat): (f: Feature)
    requires i < |t| && n <= |t|
  {
    if Placed(t, i, n) then t[i].(kind := if t[i].kind.DoubleBar? then BarRep else DoubleRep)
    else if i < n && t[i].kind.BarRep? && OpenAt(t, i) then t[i].(kind := DoubleRep)
    else t[i]
  }

  ghost predicate MendedTo(t: Features, s: Scan, n: nat) {
    && n <= |t| == |s.u| && s.repPoint < |t|
    && (forall i :: 0 <= i < |t| ==> s.u[i] == Mended(t, i, n))
    && (HasPoint(t, n) ==> LastPlace(t, s.repPoint, n))
  }

  lemma ReadsMissing(t: Features, n: nat)
    requires t != [] && n < |t|
    ensures Reads(ScanTo(t, n), n) <==> StartMissing(t, n)
  {
    Counted(t, n);
  }

  lemma LastPlaceOne(t: Features, i: nat, i': nat, j: nat)
    requires j <= |t| && LastPlace(t, i, j) && LastPlace(t, i', j)
    ensures i == i'
  {
  }

  lemma PlacedNext(t: Features, i: nat, n: nat)
    requires n < |t|
    ensures Placed(t, i, n + 1) <==> Placed(t, i, n) || (StartMissing(t, n) && LastPlace(t, i, n))
  {
    if Placed(t, i, n) {
      var j: nat :| j < n && StartMissing(t, j) && LastPlace(t, i, j);
      assert j < n + 1;
    }
    if StartMissing(t, n) && LastPlace(t, i, n) {
      assert n < n + 1;
    }
  }

  lemma PlacedIsPlace(t: Features, i: nat, n: nat)
    requires n <= |t| && Placed(t, i, n)
    ensures i < n && IsPlace(t[i].kind)
  {
  }

  /** A turn of the scan, feature by feature. */
  lemma TurnMends(t: Features, s: Scan, n: nat, i: nat)
    requires n < |t| && i < |t| && MendedTo(t, s, n) && s.u[n] == t[n] && s.expectRepeat == OpenAt(t, n)
    requires (Reads(s, n) <==> StartMissing(t, n)) && (Reads(s, n) ==> HasPoint(t, n))
    ensures Turn(s, n).u[i] == Mended(t, i, n + 1)
  {
    TurnChanges(s, n);
    PlacedNext(t, i, n);
    if Placed(t, i, n) {
      PlacedIsPlace(t, i, n);
    }
    if Reads(s, n) && LastPlace(t, i, n) {
      LastPlaceOne(t, i, s.repPoint, n);
    }
  }

  lemma TurnMovesPoint(s: Scan, n: nat)
    requires n < |s.u| && s.repPoint < |s.u|
    ensures Turn(s, n).repPoint == if IsPlace(s.u[n].kind) then n else s.repPoint
  {
  }

  lemma LastPlaceNext(t: Features, i: nat, n: nat)
    requires n < |t|
    ensures IsPlace(t[n].kind) ==> LastPlace(t, n, n + 1)
    ensures !IsPlace(t[n].kind) && LastPlace(t, i, n) ==> LastPlace(t, i, n + 1)
  {
  }

  lemma NextMended(t: Features, n: nat)
    requires t != [] && StartsWell(t) && n < |t| && MendedTo(t, ScanTo(t, n), n)
    ensures MendedTo(t, ScanTo(t, n + 1), n + 1)
  {
    var s := ScanTo(t, n);
    var r := ScanTo(t, n + 1);
    assert r == Turn(s, n);
    Counted(t, n);
    ReadsMissing(t, n);
    SetWhereRead(t, n);
    forall i | 0 <= i < |t|
      ensures r.u[i] == Mended(t, i, n + 1)
    {
      TurnMends(t, s, n, i);
    }
    TurnMovesPoint(s, n);
    LastPlaceNext(t, s.repPoint, n);
  }

  lemma {:induction false} ScanMends(t: Features, n: nat)
    requires t != [] && StartsWell(t) && n <= |t|
    ensures MendedTo(t, ScanTo(t, n), n)
    decreases n
  {
    if n == 0 {
      assert ScanTo(t, 0).u == t;
    } else {
      ScanMends(t, n - 1);
      NextMended(t, n - 1);
    }
  }

  /** Said of the written tune alone: each :|, :: and first variant ending that lacks its start gets it at the last
      double bar or :| in front of it, each |: in an open repeat becomes ::, and nothing else changes. */
  lemma RepairMends(t: Features)
    requires StartsWell(t)
    ensures forall i :: 0 <= i < |t| ==> Repair(t)[i] == Mended(t, i, |t|)
    ensures forall i, j :: 0 <= i < j < |t| && StartMissing(t, j) && LastPlace(t, i, j) ==>
              Repair(t)[i].kind == if t[i].kind.DoubleBar? then BarRep else DoubleRep
    ensures forall j :: 0 <= j < |t| && StartMissing(t, j) ==> exists i: nat :: LastPlace(t, i, j)
  {
    if t != [] {
      ScanMends(t, |t|);
      forall i, j | 0 <= i < j < |t| && StartMissing(t, j) && LastPlace(t, i, j)
        ensures Repair(t)[i].kind == if t[i].kind.DoubleBar? then BarRep else DoubleRep
      {
        assert Placed(t, i, |t|);
      }
      forall j | 0 <= j < |t| && StartMissing(t, j)
        ensures exists i: nat :: LastPlace(t, i, j)
      {
        ReadsMissing(t, j);
        SetWhereRead(t, j);
        ScanMends(t, j);
        assert LastPlace(t, ScanTo(t, j).repPoint, j);
      }
    }
  }

  /** The first variant ending, if there is one, lies in a repeat. */
  ghost predicate VariantsInside(t: Features) {
    forall j :: 0 <= j <= |t| ==> !Unnoted(t, j)
  }

  lemma {:induction false} NothingPlaced(t: Features, j: nat)
    requires t != [] && j <= |t| && Bracketed(t) && VariantsInside(t)
    ensures ScanTo(t, j).u == t
    decreases j
  {
    if j > 0 {
      NothingPlaced(t, j - 1);
      Counted(t, j - 1);
      assert Fits(t, j - 1);
      assert !Unnoted(t, j);
    }
  }

  /** A well-bracketed tune whose variant endings lie in its repeats is not changed. */
  lemma RepairLeaves(t: Features)
    requires Bracketed(t) && VariantsInside(t)
    ensures Repair(t) == t
  {
    if t != [] {
      NothingPlaced(t, |t|);
    }
  }

  // ---------- Tunes on which it succeeds and fails ----------

  lemma {:induction false} NoneBefore(t: Features, j: nat)
    requires j <= |t| && forall i :: 0 <= i < |t| ==> !t[i].kind.PlayOnRep?
    ensures !VariantBefore(t, j) && !Unnoted(t, j) && !Moved(t, j)
    decreases j
  {
    if j > 0 {
      NoneBefore(t, j - 1);
    }
  }

  /** Without variant endings the repair always succeeds. */
  lemma NoVariants(t: Features)
    requires StartsWell(t) && forall i :: 0 <= i < |t| ==> !t[i].kind.PlayOnRep?
    ensures Bracketed(Repair(t))
  {
    RepairBracketsIff(t);
    forall j | 0 <= j < |t|
      ensures !Bad(t, j)
    {
      NoneBefore(t, j);
    }
  }

  /** A double bar opens a repeat for the first variant ending: || [1 || becomes |: [1 ||. But that one is
      open is not noted: || [1 || |: :| becomes |: [1 || |: :|, with the second |: in an open repeat. */
  lemma EndingOpens(f: Feature)
    ensures var bar, one := f.(kind := DoubleBar), f.(kind := PlayOnRep);
            var opening, closing := f.(kind := BarRep), f.(kind := RepBar);
            && Repair([bar, one, bar]) == [opening, one, bar] && Bracketed([opening, one, bar])
            && Repair([bar, one, bar, opening, closing]) == [opening, one, bar, opening, closing]
            && !Bracketed([opening, one, bar, opening, closing])
  {
    var bar, one := f.(kind := DoubleBar), f.(kind := PlayOnRep);
    var opening, closing := f.(kind := BarRep), f.(kind := RepBar);
    EndingOpensAt([bar, one, bar]);
    var t, u := [bar, one, bar, opening, closing], [opening, one, bar, opening, closing];
    EndingOpensAt(t);
    assert ScanTo(t, 5) == Turn(Turn(ScanTo(t, 3), 3), 4);
    OpenFrom(u, 0, 3);
    assert !Fits(u, 3);
  }

  lemma EndingOpensAt(t: Features)
    requires |t| >= 3 && t[0].kind.DoubleBar? && t[1].kind.PlayOnRep? && t[2].kind.DoubleBar?
    ensures ScanTo(t, 3) == Scan(t[0 := t[0].(kind := BarRep)], false, 1, 2)
  {
    assert ScanTo(t, 1) == Turn(ScanTo(t, 0), 0) == Scan(t, false, 0, 0);
    assert ScanTo(t, 2) == Turn(ScanTo(t, 1), 1);
  }

  /** || |: [1 :| || :| stays as it is, its last mark closing nothing: variant endings are counted once for
      the whole tune. */
  lemma StrayRemains(f: Feature)
    ensures var t := [f.(kind := DoubleBar), f.(kind := BarRep), f.(kind := PlayOnRep), f.(kind := RepBar),
                      f.(kind := DoubleBar), f.(kind := RepBar)];
            Bad(t, 5) && !Bracketed(Repair(t))
  {
    var t := [f.(kind := DoubleBar), f.(kind := BarRep), f.(kind := PlayOnRep), f.(kind := RepBar),
              f.(kind := DoubleBar), f.(kind := RepBar)];
    assert VariantBefore(t, 3) && VariantBefore(t, 4) && VariantBefore(t, 5);
    assert OpenAt(t, 2) && !Unnoted(t, 4) && !Unnoted(t, 5);
    assert !OpenAt(t, 4) && !OpenAt(t, 5);
    assert Bad(t, 5);
    BehindDoubleBar(t, 0);
    RepairBracketsIff(t);
  }

  // ---------- In place ----------

  method PlaceStartRep(a: array<Feature>, j: nat)
    requires j < a.Length
    modifies a
    ensures a[..] == old(a[..])[j := StartRep(old(a[j]))]
  {
    var f := a[j];
    if f.kind.DoubleBar? || f.kind.SingleBar? {
      a[j] := f.(kind := BarRep);
    } else if f.kind.RepBar? {
      a[j] := f.(kind := DoubleRep);
    }
  }

  method PlaceEndRep(a: array<Feature>, j: nat)
    requires j < a.Length
    modifies a
    ensures a[..] == old(a[..])[j := EndRep(old(a[j]))]
  {
    var f := a[j];
    if f.kind.DoubleBar? || f.kind.SingleBar? {
      a[j] := f.(kind := RepBar);
    } else if f.kind.BarRep? {
      a[j] := f.(kind := DoubleRep);
    }
  }

  /** fixreps */
  method RepairRepeats(a: array<Feature>)
    requires StartsWell(a[..])
    modifies a
    ensures a[..] == Repair(old(a[..]))
  {
    if a.Length == 0 {
      return;
    }
    ghost var t := a[..];
    var expectRepeat, nplays, repPoint := false, 0, 0;
    var j := 0;
    while j < a.Length
      invariant 0 <= j <= a.Length && 0 <= repPoint < a.Length && nplays >= 0
      invariant Scan(a[..], expectRepeat, nplays, repPoint) == ScanTo(t, j)
    {
      var f := a[j];
      if f.kind.DoubleBar? {
        repPoint := j;
      } else if f.kind.BarRep? {
        if expectRepeat {
          PlaceEndRep(a, j);
        }
        expectRepeat := true;
      } else if f.kind.RepBar? {
        if !expectRepeat && nplays < 1 {
          PlaceStartRep(a, repPoint);
        }
        expectRepeat := false;
        repPoint := j;
      } else if f.kind.PlayOnRep? {
        if nplays == 0 && !expectRepeat {
          PlaceStartRep(a, repPoint);
        }
        nplays := nplays + 1;
      } else if f.kind.DoubleRep? {
        if !expectRepeat {
          PlaceStartRep(a, repPoint);
        }
        expectRepeat := true;
      }
      j := j + 1;
    }
  }
}
