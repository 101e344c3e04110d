/** The grace pass in place, on the tune's array. */
module GracePass {
  import opened Fractions
  import opened Tune
  import opened Ties
  import opened Grace

  /** The three searches of applygrace: the group that begins at place, relative to it. */
  method FindGroup(a: array<Feature>, notes: nat, place: nat, ghost s: Features) returns (g: Group)
    requires place < notes <= a.Length && s == a[place..notes]
    ensures g == GroupOf(s)
  {
    var j, end := place + 1, -1;
    while j < notes && end == -1
      invariant place < j <= notes
      invariant if end == -1 then EndOf(s, 1) == EndOf(s, j - place) else end == EndOf(s, 1) == j - 1 - place
    {
      if a[j].kind.GraceOff? {
        end := j - place;
      }
      j := j + 1;
    }
    var host, hostEnd := FindHost(a, notes, place, j, s);
    g := Group(end, host, hostEnd);
  }

  /** The note or chord that comes next, from j on. */
  method FindHost(a: array<Feature>, notes: nat, place: nat, from: nat, ghost s: Features)
      returns (host: int, hostEnd: int)
    requires place < from <= notes <= a.Length && s == a[place..notes]
    ensures host == HostOf(s, from - place)
    ensures hostEnd == if host == -1 then -1
                       else if ChordBegins(s, from - place, host) then OffOf(s, host + 1) else host
  {
    var j, nextinchord := from, false;
    host := -1;
    while host == -1 && j < notes
      invariant from <= j <= notes
      invariant if host == -1 then HostOf(s, from - place) == HostOf(s, j - place)
                else host == HostOf(s, from - place) == j - 1 - place
      invariant nextinchord <==> ChordBegins(s, from - place, if host == -1 then j - place else host)
    {
      if Plays(a[j].kind) {
        host := j - place;
      }
      if a[j].kind.ChordOn? {
        nextinchord := true;
      }
      j := j + 1;
    }
    hostEnd := host;
    if nextinchord && host != -1 {
      hostEnd := -1;
      while hostEnd == -1 && j < notes
        invariant host + place < j <= notes
        invariant if hostEnd == -1 then OffOf(s, host + 1) == OffOf(s, j - place)
                  else hostEnd == OffOf(s, host + 1) == j - 1 - place
      {
        if Closes(a[j].kind) {
          hostEnd := j - place;
        }
        j := j + 1;
      }
    }
  }

  /** Counts up the grace notes. */
  method GraceUnits(a: array<Feature>, notes: nat, place: nat, end: nat, ghost s: Features) returns (sum: Frac)
    requires place < notes <= a.Length && s == a[place..notes] && end < |s|
    requires forall k :: 0 <= k < |s| ==> LengthOk(s[k])
    ensures sum == Added(s, end + 1)
  {
    sum := Frac(0, 1);
    var p := place;
    while p <= place + end
      invariant place <= p <= place + end + 1 && sum == Added(s, p - place)
    {
      if Plays(a[p].kind) {
        assert a[p] == s[p - place] && LengthOk(s[p - place]);
        sum := AddUnits(sum, a[p]);
      }
      p := p + 1;
    }
  }

  method AddUnits(sum: Frac, f: Feature) returns (r: Frac)
    requires sum.Ok() && f.denom > 0
    ensures r == AddFract(sum, Length(f))
  {
    FracSum(sum, Length(f));
    var n, d := Reduce(sum.num * f.denom + sum.denom * f.num, sum.denom * f.denom);
    r := Frac(n, d);
  }

  /** The features of the group and of its host have been changed, up to p, in the order of the loops:
      first the host, then the group. */
  ghost predicate Partly(t: Features, u: Features, place: nat, s: Features, m: Manner, p: nat, q: nat)
    requires HasHost(s, m) && place + |s| <= |t| && p <= place + |s| && q <= place + |s|
  {
    var g := GroupOf(s);
    && |u| == |t|
    && forall k :: 0 <= k < |t| ==>
         u[k] == if place + g.host <= k < p || place <= k < q then Changed(s, m, k - place) else t[k]
  }

  /** Shortens the host. */
  method ShortenHost(a: array<Feature>, notes: nat, place: nat, m: Manner, g: Group, adjusted: Frac, ghost s: Features)
      returns (next: Frac)
    requires place < notes <= a.Length && s == a[place..notes]
    requires HasHost(s, m) && !TooLong(s, m) && g == GroupOf(s)
    requires !m.orig ==> adjusted == NewLength(Taken(s, m), Added(s, g.end + 1), m)
    modifies a
    ensures Partly(old(a[..]), a[..], place, s, m, place + g.hostEnd + 1, place)
    ensures next == Length(s[g.hostEnd])
  {
    ghost var t := a[..];
    var p := place + g.host;
    next := Frac(0, 1);
    while p <= place + g.hostEnd
      invariant place + g.host <= p <= place + g.hostEnd + 1
      invariant Partly(t, a[..], place, s, m, p, place)
      invariant p > place + g.hostEnd ==> next == Length(s[g.hostEnd])
    {
      assert a[p] == a[..][p] == t[p] == s[p - place] && LengthOk(s[p - place]);
      if HasLength(a[p].kind) {
        next := Frac(a[p].num, a[p].denom);
        var f := if m.orig then Frac(a[p].num * (m.denom - m.num), next.denom * m.denom) else adjusted;
        NewLengthVal(Taken(s, m), Added(s, g.end + 1), m);
        ProductPositive(next.denom, m.denom);
        var n, d := Reduce(f.num, f.denom);
        a[p] := a[p].(num := n, denom := d);
      }
      assert a[p] == Changed(s, m, p - place);
      p := p + 1;
    }
  }

  /** Gives the grace notes their lengths: lenmul from the start to the end of the group. */
  method ScaleGroup(a: array<Feature>, notes: nat, place: nat, m: Manner, g: Group, fact: Frac, ghost t: Features,
                    ghost s: Features)
    requires place < notes <= a.Length == |t| && s == t[place..notes]
    requires HasHost(s, m) && !TooLong(s, m) && g == GroupOf(s) && fact == Factor(s, m)
    requires Partly(t, a[..], place, s, m, place + g.hostEnd + 1, place)
    modifies a
    ensures Partly(t, a[..], place, s, m, place + g.hostEnd + 1, place + g.end + 1)
  {
    var p := place;
    while p <= place + g.end
      invariant place <= p <= place + g.end + 1
      invariant Partly(t, a[..], place, s, m, place + g.hostEnd + 1, p)
    {
      assert a[p] == a[..][p] == t[p] == s[p - place] && LengthOk(s[p - place]);
      LenMul(a, p, fact);
      assert a[p] == Changed(s, m, p - place);
      p := p + 1;
    }
  }

  method LenMul(a: array<Feature>, n: nat, f: Frac)
    requires n < a.Length && LengthOk(a[n]) && f.num > 0 && f.denom >= 0
    modifies a
    ensures a[..] == old(a[..])[n := if HasLength(old(a[n]).kind)
                                     then WithLength(old(a[n]), Reduced(Times(Length(old(a[n])), f))) else old(a[n])]
  {
    if HasLength(a[n].kind) {
      ProductPositive(f.num, a[n].num);
      var num, denom := Reduce(a[n].num * f.num, a[n].denom * f.denom);
      a[n] := a[n].(num := num, denom := denom);
    }
  }

  /** removefeatures: what is behind the group moves up. */
  method RemoveFeatures(a: array<Feature>, notes: nat, locfrom: nat, locto: nat) returns (notes': nat)
    requires locfrom <= locto < notes <= a.Length
    modifies a
    ensures notes' == notes - (locto - locfrom + 1)
    ensures a[..notes'] == old(a[..locfrom]) + old(a[locto + 1..notes])
  {
    ghost var t := a[..];
    var offset := locto - locfrom + 1;
    var i := locfrom;
    while i + offset < notes
      invariant locfrom <= i && i + offset <= notes
      invariant forall k :: locfrom <= k < i ==> a[k] == t[k + offset]
      invariant forall k :: 0 <= k < locfrom || i <= k < a.Length ==> a[k] == t[k]
    {
      a[i] := a[i + offset];
      i := i + 1;
    }
    notes' := notes - offset;
  }

  lemma PartlyApplied(t: Features, u: Features, place: nat, s: Features, m: Manner, notes: nat)
    requires place < notes <= |t| && s == t[place..notes] && HasHost(s, m) && !TooLong(s, m)
    requires Partly(t, u, place, s, m, place + GroupOf(s).hostEnd + 1, place + GroupOf(s).end + 1)
    ensures u[..notes] == t[..place] + Apply(s, m)
  {
    ApplyAt(s, m);
    var g := GroupOf(s);
    forall k | place <= k < notes
      ensures u[k] == Apply(s, m)[k - place]
    {
      if !(place + g.host <= k <= place + g.hostEnd) && k > place + g.end {
        assert u[k] == t[k] == s[k - place];
      }
    }
  }

  /** The first manner: the host gives a fraction of itself. */
  method ApplyGraceOrig(a: array<Feature>, notes: nat, place: nat, m: Manner)
    requires place < notes <= a.Length && m.orig && Applies(a[place..notes], m)
    modifies a
    ensures a[..notes] == old(a[..place]) + Apply(old(a[place..notes]), m)
  {
    ghost var t, s := a[..], a[place..notes];
    var g := FindGroup(a, notes, place, s);
    if g.host == -1 {
      return;
    }
    var sum := GraceUnits(a, notes, place, g.end, s);
    AddedSpan(s, g.end + 1);
    var next := ShortenHost(a, notes, place, m, g, sum, s);
    OrigFactorVal(next, sum, m);
    var fact_num, fact_denom := Reduce(next.num * sum.denom * m.num, next.denom * sum.num * m.denom);
    FactorSigns(s, m);
    ScaleGroup(a, notes, place, m, g, Frac(fact_num, fact_denom), t, s);
    PartlyApplied(t, a[..], place, s, m, notes);
  }

  lemma FactorSigns(s: Features, m: Manner)
    requires HasHost(s, m)
    ensures Factor(s, m).num > 0 && Factor(s, m).denom >= 0
  {
  }

  /** The second manner: each grace note is divided, and the host gives what they take; a group that takes
      all the host has is cut off. */
  method ApplyGraceNew(a: array<Feature>, notes: nat, place: nat, m: Manner) returns (notes': nat)
    requires place < notes <= a.Length && !m.orig && Applies(a[place..notes], m)
    modifies a
    ensures notes' <= notes && a[..notes'] == old(a[..place]) + Apply(old(a[place..notes]), m)
  {
    notes' := notes;
    ghost var t, s := a[..], a[place..notes];
    var g := FindGroup(a, notes, place, s);
    if g.host == -1 {
      return;
    }
    var sum := GraceUnits(a, notes, place, g.end, s);
    var host := a[place + g.host];
    assert host == s[g.host];
    var adjusted := Frac(host.num * sum.denom * m.denom - host.denom * sum.num, host.denom * sum.denom * m.denom);
    if adjusted.num <= 0 {
      notes' := RemoveFeatures(a, notes, place, place + g.end);
      assert t[place + g.end + 1..notes] == s[g.end + 1..];
      return;
    }
    var _ := ShortenHost(a, notes, place, m, g, adjusted, s);
    var fact_num, fact_denom := Reduce(1, m.denom);
    FactorSigns(s, m);
    ScaleGroup(a, notes, place, m, g, Frac(fact_num, fact_denom), t, s);
    PartlyApplied(t, a[..], place, s, m, notes);
  }

  /** dograce: the first notes features of the array are the tune. */
  method DoGrace(a: array<Feature>, notes: nat, m0: Manner) returns (notes': nat)
    requires notes <= a.Length && Shaped(a[..notes], false, m0) && MannerOk(m0)
    requires forall k :: 0 <= k < notes ==> LengthOk(a[k])
    modifies a
    ensures notes' <= notes && a[..notes'] == Graced(old(a[..notes]), m0, false)
  {
    var m, j := m0, 0;
    notes' := notes;
    ghost var goal, c, done, rest := Graced(a[..notes], m, false), false, a[..0], a[..notes];
    while j < notes'
      invariant j <= notes' <= notes && done == a[..j] && rest == a[j..notes']
      invariant MannerOk(m) && Shaped(rest, c, m) && forall k :: 0 <= k < |rest| ==> LengthOk(rest[k])
      invariant goal == done + Graced(rest, m, c)
      decreases notes' - j
    {
      GracedStep(rest, m, c);
      ghost var u := First(rest, m);
      notes' := GraceAt(a, notes', j, m, done, rest);
      m := if a[j].kind.SetGrace? then Manner(a[j].pitch != 0, a[j].num, a[j].denom) else m;
      Assoc(done, u[0], Graced(u[1..], m, NextChord(c, u[0])));
      c := NextChord(c, u[0]);
      done, rest := done + [u[0]], u[1..];
      j := j + 1;
    }
    assert a[..notes'] == done;
  }

  lemma Assoc(a: Features, x: Feature, b: Features)
    ensures a + ([x] + b) == (a + [x]) + b
  {
  }

  /** What one turn of the loop does when it meets a group, and otherwise nothing. */
  method GraceAt(a: array<Feature>, notes: nat, j: nat, m: Manner, ghost done: Features, ghost rest: Features)
      returns (notes': nat)
    requires j < notes <= a.Length && done == a[..j] && rest == a[j..notes]
    requires rest[0].kind.GraceOn? ==> Applies(rest, m)
    modifies a
    ensures var u := First(rest, m);
            && j < notes' <= notes && a[j] == u[0] && a[..j + 1] == done + [u[0]] && a[j + 1..notes'] == u[1..]
  {
    notes' := notes;
    ghost var u := First(rest, m);
    if a[j].kind.GraceOn? {
      if m.orig {
        ApplyGraceOrig(a, notes, j, m);
      } else {
        notes' := ApplyGraceNew(a, notes, j, m);
      }
    }
    assert a[..notes'] == done + u;
    assert |done| == j && notes' == j + |u|;
    assert a[j] == a[..notes'][j] == u[0];
    assert a[..j] == done && a[j + 1..notes'] == (done + u)[j + 1..] == u[1..];
  }

  lemma GracedStep(s: Features, m: Manner, c: bool)
    requires s != [] && Shaped(s, c, m) && MannerOk(m) && forall k :: 0 <= k < |s| ==> LengthOk(s[k])
    ensures s[0].kind.GraceOn? ==> Applies(s, m)
    ensures var u := First(s, m);
            && Shaped(u[1..], NextChord(c, u[0]), NextManner(m, u[0])) && MannerOk(NextManner(m, u[0]))
            && (forall k :: 0 <= k < |u| ==> LengthOk(u[k]))
            && Graced(s, m, c) == [u[0]] + Graced(u[1..], NextManner(m, u[0]), NextChord(c, u[0]))
  {
    StepKeeps(s, m, c);
  }
}
