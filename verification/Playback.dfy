/** The repeat machine of writetrack: which features of a tune are played, in which order and with
    which transpose, channel and time factor, as repeats and variant endings send it backwards. */
module Playback {
  import opened Tune
  import opened Numerals

  /** What save_state keeps and restore_state brings back, besides the place and the bar count. */
  datatype Settings = Settings(divFactor: nat, transpose: int, channel: int)

  datatype Control = Control(j: nat, pass: int, maxpass: int, expectRepeat: bool, inVarend: bool,
                             now: Settings, savedJ: nat, saved: Settings, errors: nat)

  // ---------- Variant endings ----------

  /** readnump: the number at the start of a text and what follows it. */
  function ReadNum(s: string, acc: nat := 0): (r: (nat, string))
    decreases |s|
    ensures |r.1| <= |s|
    ensures s != [] && IsDigit(s[0]) ==> |r.1| < |s|
  {
    if s != [] && IsDigit(s[0]) then ReadNum(s[1..], acc * 10 + (s[0] - '0') as int) else (acc, s)
  }

  /** Scans a list such as 1,3-5; the second result counts the error reported for a bad list,
      which is then taken as a match. */
  function ScanList(s: string, pass: int): (r: (bool, nat))
    decreases |s|
  {
    if s == [] then (false, 0)
    else if !IsDigit(s[0]) then (true, 1)
    else
      var (a, s1) := ReadNum(s);
      var (hit, s2) := if s1 != [] && s1[0] == '-' then
                         var (b, s3) := ReadNum(s1[1..]);
                         (pass == a || a <= pass <= b, s3)
                       else (pass == a, s1);
      if hit then (true, 0)
      else ScanList(if s2 != [] && s2[0] == ',' then s2[1..] else s2, pass)
  }

  /** inlist */
  function InList(f: Feature, pass: int): (r: (bool, nat)) {
    if f.denom != 0 then (pass == f.denom, 0) else ScanList(f.passes, pass)
  }

  /** A mark behind which the voice goes on: its own, and for voice 1 the beginning of a part. */
  predicate IsEntry(f: Feature, voice: int) {
    (f.kind.Voice? && f.pitch == voice) || (f.kind.Part? && voice == 1)
  }

  /** findvoice, for a tune without a P: order. */
  function FindVoice(t: Features, j: nat, voice: int): (r: nat)
    ensures r >= j && (j <= |t| ==> r <= |t|)
    decreases |t| - j
  {
    if j >= |t| then j
    else if (t[j].kind.Part? && voice == 1) || (t[j].kind.Voice? && t[j].pitch == voice) then j
    else FindVoice(t, j + 1, voice)
  }

  /** Where writetrack begins: at its first mark for every voice but the first. */
  function Beginning(t: Features, voice: int, used: bool): (j: nat)
    ensures j <= |t|
  {
    if used && voice != 1 then FindVoice(t, 0, voice) else 0
  }

  predicate ClosesEnding(k: Kind) {
    k.RepBar? || k.BarRep? || k.Part? || k.DoubleBar? || k.ThickThin? || k.ThinThick? || k.PlayOnRep?
  }

  function ToVoice(t: Features, j: nat, voice: int): (r: nat)
    ensures r >= j && (j <= |t| ==> r <= |t|)
  {
    if j < |t| && t[j].kind.Voice? then FindVoice(t, j, voice) else j
  }

  /** The end of a variant ending that is not to be played. */
  function SkipEnding(t: Features, j: nat, voice: int): (r: nat)
    requires j <= |t|
    ensures j <= r <= |t| && (r < |t| ==> ClosesEnding(t[r].kind))
    decreases |t| - j
  {
    if j == |t| || ClosesEnding(t[j].kind) then j else SkipEnding(t, ToVoice(t, j + 1, voice), voice)
  }

  // ---------- One turn of the loop ----------

  predicate IsMark(k: Kind) {
    k.DoubleBar? || k.BarRep? || k.RepBar? || k.DoubleRep? || k.PlayOnRep? || k.Part? || k.Voice?
  }

  function SaveState(ct: Control): (r: Control) {
    ct.(savedJ := ct.j, saved := ct.now)
  }

  /** Back to the saved place for one more pass. */
  function GoBack(ct: Control): (r: Control) {
    ct.(j := ct.savedJ, now := ct.saved, pass := ct.pass + 1)
  }

  function Fault(ct: Control, when: bool): (r: Control) {
    if when then ct.(errors := ct.errors + 1) else ct
  }

  function AtBarRep(ct: Control): (r: Control) {
    SaveState(Fault(ct, ct.pass == 1 && ct.expectRepeat)).(inVarend := false, expectRepeat := true, pass := 1,
        maxpass := 2)
  }

  function AtRepBar(ct: Control): (r: Control) {
    var ct := ct.(inVarend := false);
    if ct.pass == 1 then
      if ct.expectRepeat then GoBack(ct).(expectRepeat := false) else Fault(ct, true)
    else if ct.pass < ct.maxpass then GoBack(ct).(expectRepeat := false)
    else ct
  }

  function AtDoubleRep(ct: Control): (r: Control) {
    var ct := ct.(inVarend := false);
    if ct.pass > 1 then SaveState(ct).(expectRepeat := true, pass := 1, maxpass := 2)
    else if !ct.expectRepeat then SaveState(Fault(ct, true)).(expectRepeat := true, pass := 1)
    else GoBack(ct)
  }

  function AtPlayOnRep(t: Features, voice: int, ct: Control): (r: Control)
    requires ct.j < |t| && t[ct.j].kind.PlayOnRep?
    ensures r.j >= ct.j
  {
    var numbered := ct.expectRepeat || ct.pass > 1;
    var ct1 := Fault(Fault(ct, ct.inVarend), !numbered);
    var (hit, bad) := InList(t[ct.j], if numbered then ct.pass else 1);
    var ct2 := ct1.(errors := ct1.errors + bad);
    if hit then
      ct2.(inVarend := true, maxpass := if ct.maxpass < 4 then ct.pass + 1 else ct.maxpass)
    else
      var j := SkipEnding(t, ToVoice(t, ct.j + 1, voice), voice);
      Fault(ct2, j == |t|).(j := if j < |t| && t[j].kind.Part? then j - 1 else j)
  }

  /** The feature at j acts on the control state; then j moves on by one. */
  function Next(t: Features, voice: int, ct: Control): (r: Control)
    requires ct.j < |t|
  {
    var f := t[ct.j];
    var r :=
      if f.kind.BarRep? then AtBarRep(ct)
      else if f.kind.RepBar? then AtRepBar(ct)
      else if f.kind.DoubleRep? then AtDoubleRep(ct)
      else if f.kind.PlayOnRep? then AtPlayOnRep(t, voice, ct)
      else if f.kind.DoubleBar? || f.kind.Part? then ct.(inVarend := false)
      else if f.kind.Voice? then ct.(j := FindVoice(t, ct.j, voice))
      else if f.kind.Channel? then ct.(now := ct.now.(channel := f.pitch))
      else if f.kind.Transpose? then ct.(now := ct.now.(transpose := f.pitch))
      else ct;
    r.(j := r.j + 1)
  }

  /** What every turn of the loop keeps. */
  predicate Inv(t: Features, ct: Control) {
    && 1 <= ct.pass <= ct.maxpass && 2 <= ct.maxpass <= 4
    && ct.savedJ <= ct.j && ct.savedJ <= |t|
    && (ct.j == ct.savedJ ==> ct.pass == 1 && !ct.expectRepeat)
  }

  function Start(t: Features, voice: int, j: nat, env: Settings): (ct: Control)
    requires j <= |t|
    ensures Inv(t, ct)
  {
    Control(j, 1, 2, false, false, env, j, env, 0)
  }

  function Max0(a: int): (r: nat) {
    if a < 0 then 0 else a
  }

  /** The saved place never moves back; between moves the pass grows, and below that the place. */
  predicate Smaller(t: Features, r: Control, ct: Control) {
    || Max0(|t| - r.savedJ) < Max0(|t| - ct.savedJ)
    || (r.savedJ == ct.savedJ && Max0(4 - r.pass) < Max0(4 - ct.pass))
    || (r.savedJ == ct.savedJ && r.pass == ct.pass && Max0(|t| - r.j) < Max0(|t| - ct.j))
  }

  lemma NextProgress(t: Features, voice: int, ct: Control)
    requires Inv(t, ct) && ct.j < |t|
    ensures Inv(t, Next(t, voice, ct)) && Smaller(t, Next(t, voice, ct), ct)
  {
  }

  // ---------- Whole runs ----------

  /** A feature as it is played, with the settings in force. */
  datatype Event = Event(f: Feature, env: Settings)

  function Emitted(t: Features, ct: Control): (r: seq<Event>)
    requires ct.j < |t|
  {
    if IsMark(t[ct.j].kind) then [] else [Event(t[ct.j], ct.now)]
  }

  /** Everything played from a control state to the end of the tune. That this recursion is
      well-founded is the termination of writetrack. */
  function Played(t: Features, voice: int, ct: Control): (r: seq<Event>)
    requires Inv(t, ct)
    decreases Max0(|t| - ct.savedJ), Max0(4 - ct.pass), Max0(|t| - ct.j)
  {
    if ct.j >= |t| then []
    else
      NextProgress(t, voice, ct);
      Emitted(t, ct) + Played(t, voice, Next(t, voice, ct))
  }

  /** The control state in which the run ends. */
  function Final(t: Features, voice: int, ct: Control): (r: Control)
    requires Inv(t, ct)
    ensures r.j >= |t|
    decreases Max0(|t| - ct.savedJ), Max0(4 - ct.pass), Max0(|t| - ct.j)
  {
    if ct.j >= |t| then ct
    else
      NextProgress(t, voice, ct);
      Final(t, voice, Next(t, voice, ct))
  }
}
