/** Splitting a text into lines that may end as DOS, Unix or Mac lines do. */
module Lines {
  import opened VStrings

  predicate IsEol(c: char) {
    c == '\n' || c == '\r'
  }

  /** The other of the two characters. */
  function Other(c: char): (d: char) {
    if c == '\n' then '\r' else '\n'
  }

  // ---------- Texts ----------

  /** How a line ends: with the character eol, followed by the other one or not. */
  datatype Line = Line(text: string, eol: char, paired: bool)

  predicate NoEol(s: string) {
    forall i :: 0 <= i < |s| ==> !IsEol(s[i]) && s[i] != '\0'
  }

  predicate IsLine(l: Line) {
    NoEol(l.text) && IsEol(l.eol)
  }

  function Ending(l: Line): (s: string) {
    if l.paired then [l.eol, Other(l.eol)] else [l.eol]
  }

  /** A text of these lines and an unfinished one. */
  function Text(ls: seq<Line>, last: string): (s: string) {
    if ls == [] then last else ls[0].text + Ending(ls[0]) + Text(ls[1..], last)
  }

  function Texts(ls: seq<Line>): (r: seq<string>)
    ensures |r| == |ls|
  {
    if ls == [] then [] else [ls[0].text] + Texts(ls[1..])
  }

  // ---------- The splitter ----------

  /** The lines handed on, the current one, and whether lastch has just ended a line. */
  datatype State = State(parsed: seq<string>, line: string, done_eol: bool, lastch: char)

  const Start := State([], "", false, '\0')

  function Step(s: State, t: char): (r: State) {
    if !IsEol(t) then State(s.parsed, s.line + [t], false, t)
    else if s.done_eol && t == Other(s.lastch) && IsEol(s.lastch) then State(s.parsed, s.line, false, t)
    else State(s.parsed + [s.line], "", true, t)
  }

  function Run(text: string, s: State): (r: State) {
    if text == "" then s else Run(text[1..], Step(s, text[0]))
  }

  /** The lines handed to the parser. */
  function Split(text: string): (r: seq<string>) {
    var s := Run(text, Start);
    s.parsed + if s.line != "" then [s.line] else []
  }

  // ---------- Which lines are lost ----------

  datatype Armed = No | By(c: char)

  /** Whether a lone ending has been read, so that the other character would be taken for its second half. */
  function After(a: Armed, l: Line): (r: Armed) {
    if Mistaken(a, l) then (if l.paired then a else No)
    else if l.paired then No else By(l.eol)
  }

  /** The first character of the ending of this line is taken for the second half of another. */
  predicate Mistaken(a: Armed, l: Line) {
    l.text == "" && a == By(Other(l.eol))
  }

  function Kept(a: Armed, ls: seq<Line>): (r: seq<string>)
    ensures |r| <= |ls|
    decreases |ls|
  {
    if ls == [] then []
    else (if Mistaken(a, ls[0]) && !ls[0].paired then [] else [ls[0].text]) + Kept(After(a, ls[0]), ls[1..])
  }

  predicate Fits(a: Armed, s: State) {
    s.line == "" && s.done_eol == a.By? && (a.By? ==> s.lastch == a.c && IsEol(a.c))
  }

  function Typed(l: string, s: State): (r: State) {
    if l == "" then s else State(s.parsed, s.line + l, false, l[|l| - 1])
  }

  lemma {:induction false} RunText(l: string, tail: string, s: State)
    requires NoEol(l)
    ensures Run(l + tail, s) == Run(tail, Typed(l, s))
    decreases |l|
  {
    if l == "" {
      assert l + tail == tail;
    } else {
      var s1 := Step(s, l[0]);
      assert (l + tail)[1..] == l[1..] + tail;
      RunText(l[1..], tail, s1);
      assert l == [l[0]] + l[1..];
      assert s.line + l == s.line + [l[0]] + l[1..];
      assert Typed(l[1..], s1) == Typed(l, s);
    }
  }

  lemma RunLine(a: Armed, l: Line, tail: string, s: State) returns (r: State)
    requires IsLine(l) && Fits(a, s)
    ensures Run(l.text + Ending(l) + tail, s) == Run(tail, r) && Fits(After(a, l), r)
    ensures r.parsed == s.parsed + if Mistaken(a, l) && !l.paired then [] else [l.text]
  {
    var e := Ending(l) + tail;
    assert l.text + Ending(l) + tail == l.text + e;
    RunText(l.text, e, s);
    var s1 := Typed(l.text, s);
    assert s.line + l.text == l.text;
    var s2 := Step(s1, l.eol);
    if l.paired {
      assert e[1..] == [Other(l.eol)] + tail && e[1..][1..] == tail;
      r := Step(s2, Other(l.eol));
    } else {
      assert e[1..] == tail;
      r := s2;
    }
  }

  lemma {:induction false} RunLines(a: Armed, ls: seq<Line>, last: string, s: State)
    requires Fits(a, s) && NoEol(last) && forall i :: 0 <= i < |ls| ==> IsLine(ls[i])
    ensures var r := Run(Text(ls, last), s); r.parsed == s.parsed + Kept(a, ls) && r.line == last
    decreases |ls|
  {
    if ls == [] {
      RunText(last, "", s);
      assert last + "" == last;
    } else {
      var s1 := RunLine(a, ls[0], Text(ls[1..], last), s);
      RunLines(After(a, ls[0]), ls[1..], last, s1);
      Assoc(s.parsed, s1.parsed, Kept(After(a, ls[0]), ls[1..]), Kept(a, ls));
    }
  }

  lemma Assoc<T>(a: seq<T>, b: seq<T>, c: seq<T>, d: seq<T>)
    requires |d| >= |c| && b == a + d[..|d| - |c|] && d[|d| - |c|..] == c
    ensures b + c == a + d
  {
  }

  /** Line k is empty with a lone ending which the ending of line i, followed at most by empty lines with
      endings the other way round, makes look like a second half. */
  predicate Swallows(ls: seq<Line>, i: nat, k: nat) {
    && i < k < |ls| && !ls[i].paired
    && ls[k].text == "" && !ls[k].paired && ls[k].eol == Other(ls[i].eol)
    && forall m :: i < m < k ==> ls[m].text == "" && ls[m].paired && ls[m].eol == Other(ls[i].eol)
  }

  /** As Swallows, for a lone ending before the first line. */
  predicate SwallowedFrom(a: Armed, ls: seq<Line>, k: nat) {
    && k < |ls| && a.By? && ls[k].text == "" && !ls[k].paired && ls[k].eol == Other(a.c)
    && forall m :: 0 <= m < k ==> ls[m].text == "" && ls[m].paired && ls[m].eol == Other(a.c)
  }

  ghost predicate AnySwallowed(a: Armed, ls: seq<Line>) {
    (exists k: nat :: SwallowedFrom(a, ls, k)) || (exists i: nat, k: nat :: Swallows(ls, i, k))
  }

  lemma SwallowedCons(a: Armed, ls: seq<Line>)
    requires ls != [] && (a.By? ==> IsEol(a.c)) && forall i :: 0 <= i < |ls| ==> IsLine(ls[i])
    ensures AnySwallowed(a, ls) <==> (Mistaken(a, ls[0]) && !ls[0].paired) || AnySwallowed(After(a, ls[0]), ls[1..])
  {
    var l, rest, b := ls[0], ls[1..], After(a, ls[0]);
    if Mistaken(a, l) && !l.paired {
      assert SwallowedFrom(a, ls, 0);
    } else {
      if k: nat :| SwallowedFrom(a, ls, k) {
        assert k > 0;
        assert ls[0].text == "" && ls[0].paired && ls[0].eol == Other(a.c);
        assert b == a;
        assert SwallowedFrom(b, rest, k - 1);
      }
      if i: nat, k: nat :| Swallows(ls, i, k) {
        if i > 0 {
          assert Swallows(rest, i - 1, k - 1);
        } else {
          assert SwallowedFrom(b, rest, k - 1);
        }
      }
      if i: nat, k: nat :| Swallows(rest, i, k) {
        assert Swallows(ls, i + 1, k + 1);
      }
      if k: nat :| SwallowedFrom(b, rest, k) {
        if Mistaken(a, l) {
          assert SwallowedFrom(a, ls, k + 1);
        } else {
          assert Swallows(ls, 0, k + 1);
        }
      }
    }
  }

  lemma {:induction false} KeptAll(a: Armed, ls: seq<Line>)
    requires (a.By? ==> IsEol(a.c)) && forall i :: 0 <= i < |ls| ==> IsLine(ls[i])
    ensures AnySwallowed(a, ls) <==> |Kept(a, ls)| < |ls|
    ensures |Kept(a, ls)| == |ls| ==> Kept(a, ls) == Texts(ls)
    decreases |ls|
  {
    if ls != [] {
      SwallowedCons(a, ls);
      KeptAll(After(a, ls[0]), ls[1..]);
    }
  }

  /** Exactly the lines of the text are handed on, in order, unless and only unless some line is swallowed. */
  lemma SplitGivesLines(ls: seq<Line>, last: string)
    requires NoEol(last) && forall i :: 0 <= i < |ls| ==> IsLine(ls[i])
    ensures Split(Text(ls, last)) == Texts(ls) + (if last != "" then [last] else [])
            <==> !exists i: nat, k: nat :: Swallows(ls, i, k)
  {
    RunLines(No, ls, last, Start);
    KeptAll(No, ls);
    var s := Run(Text(ls, last), Start);
    assert s.parsed == Kept(No, ls);
    assert |Kept(No, ls)| < |ls| ==> |Split(Text(ls, last))| < |Texts(ls)| + if last != "" then 1 else 0;
  }

  /** Lines with one kind of ending throughout are handed on as they are. */
  lemma AnyUniformEnding(ls: seq<Line>, last: string, eol: char, paired: bool)
    requires NoEol(last) && IsEol(eol)
    requires forall i :: 0 <= i < |ls| ==> NoEol(ls[i].text) && ls[i].eol == eol && ls[i].paired == paired
    ensures Split(Text(ls, last)) == Texts(ls) + if last != "" then [last] else []
  {
    SplitGivesLines(ls, last);
  }

  // ---------- The splitter in place ----------

  lemma {:induction false} RunSnoc(text: string, c: char, s: State)
    ensures Run(text + [c], s) == Step(Run(text, s), c)
    decreases |text|
  {
    if text != "" {
      assert (text + [c])[1..] == text[1..] + [c];
      RunSnoc(text[1..], c, Step(s, text[0]));
    } else {
      assert text + [c] == [c];
    }
  }

  /** parsestring: the lines handed to parseline, and the line number afterwards. */
  method ParseString(abc: string, startline: int) returns (parsed: seq<string>, fileline: int)
    requires forall i :: 0 <= i < |abc| ==> abc[i] != '\0'
    ensures parsed == Split(abc) && fileline == startline + |parsed|
  {
    var line := new VString();
    var done_eol, lastch, index := false, '\0', 0;
    parsed, fileline := [], startline;
    ghost var s := Start;
    while index < |abc|
      invariant index <= |abc| && line.Valid() && fresh(line) && fresh(line.st)
      invariant s == State(parsed, line.Text(), done_eol, lastch) == Run(abc[..index], Start)
      invariant fileline == startline + |parsed|
    {
      var t := abc[index];
      RunSnoc(abc[..index], t, Start);
      assert abc[..index + 1] == abc[..index] + [t];
      s := Step(s, t);
      index := index + 1;
      if t != '\n' && t != '\r' {
        line.AddCh(t);
        done_eol := false;
      } else if done_eol && ((t == '\n' && lastch == '\r') || (t == '\r' && lastch == '\n')) {
        done_eol := false;
      } else {
        parsed := parsed + [line.st[..line.len]];
        line.Clear();
        fileline := fileline + 1;
        done_eol := true;
      }
      lastch := t;
    }
    assert abc[..index] == abc;
    if line.len > 0 {
      parsed := parsed + [line.st[..line.len]];
      fileline := fileline + 1;
    }
  }
}
