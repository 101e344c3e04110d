/** P: play orders. A(AB)3(CD)2 becomes AABABABCDCD. */
module Parts {
  import opened VStrings
  import opened Numerals

  const MAXNEST := 10

  // ---------- Play orders ----------

  /** A play order: parts and groups, each followed by a count or not, and dots. */
  datatype Order =
    | End
    | Part(name: char, count: string, rest: Order)
    | Group(body: Order, count: string, rest: Order)
    | Dot(rest: Order)

  predicate IsLabel(c: char) {
    'A' <= c <= 'Z'
  }

  predicate WellFormed(o: Order) {
    match o
    case End => true
    case Part(c, n, rest) => IsLabel(c) && IsCount(n) && WellFormed(rest)
    case Group(body, n, rest) => WellFormed(body) && IsCount(n) && WellFormed(rest)
    case Dot(rest) => WellFormed(rest)
  }

  function Depth(o: Order): (d: nat) {
    match o
    case End => 0
    case Part(_, _, rest) => Depth(rest)
    case Group(body, _, rest) => if Depth(body) + 1 > Depth(rest) then Depth(body) + 1 else Depth(rest)
    case Dot(rest) => Depth(rest)
  }

  function Print(o: Order): (s: string) {
    match o
    case End => ""
    case Part(c, n, rest) => [c] + n + Print(rest)
    case Group(body, n, rest) => "(" + Print(body) + ")" + n + Print(rest)
    case Dot(rest) => "." + Print(rest)
  }

  function Times(s: string, n: nat): (r: string) {
    if n == 0 then "" else Times(s, n - 1) + s
  }

  /** How often to play what a count follows: no count, and 0, mean once. */
  function Count(s: string): (n: nat)
    requires IsCount(s)
    ensures n > 0
  {
    if Value(s) == 0 then 1 else Value(s)
  }

  /** The parts to play. */
  function Expansion(o: Order): (s: string)
    requires WellFormed(o)
  {
    match o
    case End => ""
    case Part(c, n, rest) => Times([c], Count(n)) + Expansion(rest)
    case Group(body, n, rest) => Times(Expansion(body), Count(n)) + Expansion(rest)
    case Dot(rest) => Expansion(rest)
  }

  // ---------- Reading ----------

  /** What the reader has: the parts so far, where in them the open groups began, the last label, and
      how many errors it has reported. */
  datatype State = State(out: string, stack: seq<nat>, lastch: char, errors: nat)

  predicate Sane(s: State) {
    |s.stack| <= MAXNEST && forall i :: 0 <= i < |s.stack| ==> s.stack[i] <= |s.out|
  }

  function Again(s: string, n: nat): (r: string) {
    if n == 0 then "" else Times(s, n - 1)
  }

  function Close(s: State, n: nat): (r: State)
    requires Sane(s) && s.stack != []
    ensures Sane(r)
  {
    var start := s.stack[|s.stack| - 1];
    s.(out := s.out + Again(s.out[start..], n), stack := s.stack[..|s.stack| - 1])
  }

  predicate Legal(c: char) {
    IsLabel(c) || c in "(.)+-" || IsDigit(c)
  }

  /** Reads the first character of text, and after a bracket or as a count all the digits: how many
      characters that is, and the state then. The reader makes no headway at a sign. */
  function Token(text: string, s: State): (r: (nat, State))
    requires text != "" && Legal(text[0]) && Sane(s)
    ensures r.0 <= |text| && Sane(r.1) && (r.0 == 0 <==> text[0] in "+-")
  {
    var c := text[0];
    if c == '.' then (1, s)
    else if IsLabel(c) then (1, s.(out := s.out + [c], lastch := c))
    else if c == '(' then
      (1, if |s.stack| < MAXNEST then s.(stack := s.stack + [|s.out|]) else s.(errors := s.errors + 1))
    else if c == ')' then
      if s.stack != [] then
        var n := Digits(text[1..]);
        (1 + n, Close(s, if n > 0 then Value(text[1..][..n]) else 1))
      else (1, s.(errors := s.errors + 1))
    else if IsDigit(c) then
      var n := Digits(text);
      (n, if s.out != "" then s.(out := s.out + Again([s.lastch], Value(text[..n]))) else s.(errors := s.errors + 1))
    else (0, s)
  }

  /** How reading ends: with these parts and errors, or never. */
  datatype Outcome = Read(state: State) | Hangs

  function Run(text: string, s: State): (r: Outcome)
    requires Sane(s)
    decreases |text|
  {
    if text == "" || !Legal(text[0]) then Read(if s.stack != [] then s.(errors := s.errors + 1) else s)
    else
      var (n, s') := Token(text, s);
      if n == 0 then Hangs else Run(text[n..], s')
  }

  // ---------- The reader inverts the printer ----------

  lemma OnceAndAgain(s: string, n: nat)
    ensures s + Again(s, n) == Times(s, if n == 0 then 1 else n)
    decreases n
  {
    if n <= 1 {
      assert Times(s, 1) == Times(s, 0) + s;
    } else {
      OnceAndAgain(s, n - 1);
      assert s + Times(s, n - 1) == (s + Times(s, n - 2)) + s;
    }
  }

  function LastLabel(o: Order, c: char): (l: char) {
    match o
    case End => c
    case Part(name, _, rest) => LastLabel(rest, name)
    case Group(body, _, rest) => LastLabel(rest, LastLabel(body, c))
    case Dot(rest) => LastLabel(rest, c)
  }

  lemma PrintStart(o: Order, tail: string)
    requires WellFormed(o) && NoDigitFirst(tail)
    ensures NoDigitFirst(Print(o) + tail)
  {
  }

  function Add(s: State, more: string, lastch: char): (r: State)
    requires Sane(s)
    ensures Sane(r)
  {
    s.(out := s.out + more, lastch := lastch)
  }

  function Done(o: Order, s: State): (r: State)
    requires WellFormed(o) && Sane(s)
    ensures Sane(r)
  {
    Add(s, Expansion(o), LastLabel(o, s.lastch))
  }

  /** A label and its count. */
  lemma ReadsPart(c: char, n: string, tail: string, s: State)
    requires Sane(s) && IsLabel(c) && IsCount(n) && NoDigitFirst(tail)
    ensures Run([c] + n + tail, s) == Run(tail, Add(s, Times([c], Count(n)), c))
  {
    var text := [c] + n + tail;
    var s1 := s.(out := s.out + [c], lastch := c);
    assert text[1..] == n + tail;
    assert Run(text, s) == Run(n + tail, s1);
    if n == "" {
      assert n + tail == tail;
      assert Times([c], 1) == Times([c], 0) + [c] == [c];
    } else {
      ReadsCount(n, tail, s1);
      OnceAndAgain([c], Value(n));
      assert s.out + [c] + Again([c], Value(n)) == s.out + ([c] + Again([c], Value(n)));
    }
  }

  lemma ReadsCount(n: string, tail: string, s: State)
    requires Sane(s) && s.out != "" && n != "" && IsCount(n) && NoDigitFirst(tail)
    ensures Run(n + tail, s) == Run(tail, s.(out := s.out + Again([s.lastch], Value(n))))
  {
    DigitsOf(n, tail);
    assert Token(n + tail, s).0 == |n|;
  }

  /** The end of a group that began at |s.out|. */
  lemma ReadsClose(body: string, n: string, tail: string, s: State, lastch: char)
    requires Sane(s) && |s.stack| < MAXNEST && IsCount(n) && NoDigitFirst(tail)
    ensures var inside := State(s.out + body, s.stack + [|s.out|], lastch, s.errors);
            Sane(inside) &&
            Run(")" + n + tail, inside) == Run(tail, Add(s, Times(body, Count(n)), lastch))
  {
    var inside := State(s.out + body, s.stack + [|s.out|], lastch, s.errors);
    var v := if |n| > 0 then Value(n) else 1;
    CloseRepeats(body, v, s, lastch);
    TokenClose(n, tail, inside);
  }

  lemma CloseRepeats(body: string, v: nat, s: State, lastch: char)
    requires Sane(s) && |s.stack| < MAXNEST
    ensures Close(State(s.out + body, s.stack + [|s.out|], lastch, s.errors), v)
         == Add(s, Times(body, if v == 0 then 1 else v), lastch)
  {
    var inside := State(s.out + body, s.stack + [|s.out|], lastch, s.errors);
    assert inside.out[|s.out|..] == body && inside.stack[..|s.stack|] == s.stack;
    OnceAndAgain(body, v);
    assert s.out + body + Again(body, v) == s.out + (body + Again(body, v));
  }

  lemma TokenClose(n: string, tail: string, s: State)
    requires Sane(s) && s.stack != [] && IsCount(n) && NoDigitFirst(tail)
    ensures Run(")" + n + tail, s) == Run(tail, Close(s, if |n| > 0 then Value(n) else 1))
  {
    var text := ")" + n + tail;
    assert text[1..] == n + tail;
    DigitsOf(n, tail);
    assert Token(text, s) == (1 + |n|, Close(s, if |n| > 0 then Value(n) else 1));
    assert text[1 + |n|..] == tail;
  }

  lemma ReadsOpen(text: string, s: State)
    requires Sane(s) && |s.stack| < MAXNEST
    ensures Run("(" + text, s) == Run(text, s.(stack := s.stack + [|s.out|]))
  {
    assert ("(" + text)[1..] == text;
  }

  lemma ReadsDot(text: string, s: State)
    requires Sane(s)
    ensures Run("." + text, s) == Run(text, s)
  {
    assert ("." + text)[1..] == text;
  }

  lemma DoneAfter(rest: Order, s: State, more: string, lastch: char)
    requires WellFormed(rest) && Sane(s)
    ensures Done(rest, Add(s, more, lastch)) == Add(s, more + Expansion(rest), LastLabel(rest, lastch))
  {
    assert s.out + more + Expansion(rest) == s.out + (more + Expansion(rest));
  }

  lemma Regroup(a: string, b: string, c: string, d: string, e: string)
    ensures a + b + c + d == a + b + (c + d)
    ensures "(" + a + ")" + c + d + e == "(" + (a + (")" + c + (d + e)))
  {
  }

  lemma {:induction false} ReadsOrder(o: Order, tail: string, s: State)
    requires WellFormed(o) && Sane(s) && |s.stack| + Depth(o) <= MAXNEST && NoDigitFirst(tail)
    ensures Run(Print(o) + tail, s) == Run(tail, Done(o, s))
    decreases o, 1
  {
    match o
    case End =>
      assert Print(o) + tail == tail && s.out + "" == s.out;
    case Dot(rest) =>
      assert Print(o) + tail == "." + (Print(rest) + tail);
      ReadsDot(Print(rest) + tail, s);
      ReadsOrder(rest, tail, s);
    case Part(c, n, rest) =>
      PrintStart(rest, tail);
      Regroup([c], n, Print(rest), tail, "");
      ReadsPart(c, n, Print(rest) + tail, s);
      ReadsOrder(rest, tail, Add(s, Times([c], Count(n)), c));
      DoneAfter(rest, s, Times([c], Count(n)), c);
    case Group(body, n, rest) =>
      PrintStart(rest, tail);
      Regroup(Print(body), "", n, Print(rest), tail);
      ReadsGroup(body, n, Print(rest) + tail, s);
      var more, lastch := Times(Expansion(body), Count(n)), LastLabel(body, s.lastch);
      ReadsOrder(rest, tail, Add(s, more, lastch));
      DoneAfter(rest, s, more, lastch);
  }

  lemma {:induction false} ReadsGroup(body: Order, n: string, tail: string, s: State)
    requires WellFormed(body) && Sane(s) && |s.stack| + 1 + Depth(body) <= MAXNEST && IsCount(n) && NoDigitFirst(tail)
    ensures Run("(" + (Print(body) + (")" + n + tail)), s)
         == Run(tail, Add(s, Times(Expansion(body), Count(n)), LastLabel(body, s.lastch)))
    decreases body, 2
  {
    var after := ")" + n + tail;
    ReadsOpen(Print(body) + after, s);
    ReadsOrder(body, after, s.(stack := s.stack + [|s.out|]));
    ReadsClose(Expansion(body), n, tail, s, LastLabel(body, s.lastch));
  }

  lemma {:induction false} ErrorsStay(text: string, s: State)
    requires Sane(s)
    ensures Run(text, s).Read? ==> Run(text, s).state.errors >= s.errors
    decreases |text|
  {
    if text != "" && Legal(text[0]) {
      var (n, s') := Token(text, s);
      if n > 0 {
        ErrorsStay(text[n..], s');
      }
    }
  }

  lemma {:induction false} TooDeep(o: Order, tail: string, s: State)
    requires WellFormed(o) && Sane(s) && |s.stack| + Depth(o) > MAXNEST && NoDigitFirst(tail)
    ensures Run(Print(o) + tail, s).Read? ==> Run(Print(o) + tail, s).state.errors > s.errors
  {
    match o
    case End =>
    case Dot(rest) =>
      assert Print(o) + tail == "." + (Print(rest) + tail);
      ReadsDot(Print(rest) + tail, s);
      TooDeep(rest, tail, s);
    case Part(c, n, rest) =>
      PrintStart(rest, tail);
      Regroup([c], n, Print(rest), tail, "");
      ReadsPart(c, n, Print(rest) + tail, s);
      TooDeep(rest, tail, Add(s, Times([c], Count(n)), c));
    case Group(body, n, rest) =>
      PrintStart(rest, tail);
      Regroup(Print(body), "", n, Print(rest), tail);
      var after := ")" + n + (Print(rest) + tail);
      if |s.stack| == MAXNEST {
        assert ("(" + (Print(body) + after))[1..] == Print(body) + after;
        ErrorsStay(Print(body) + after, s.(errors := s.errors + 1));
      } else if |s.stack| + 1 + Depth(body) > MAXNEST {
        ReadsOpen(Print(body) + after, s);
        TooDeep(body, after, s.(stack := s.stack + [|s.out|]));
      } else {
        ReadsGroup(body, n, Print(rest) + tail, s);
        TooDeep(rest, tail, Add(s, Times(Expansion(body), Count(n)), LastLabel(body, s.lastch)));
      }
  }

  /** Reading a printed play order appends its expansion, without error, exactly when at most ten groups
      are nested. */
  lemma ReadInvertsPrint(o: Order, tail: string, part: string, lastch: char)
    requires WellFormed(o) && (tail == "" || !Legal(tail[0]))
    ensures var outcome := Run(Print(o) + tail, State(part, [], lastch, 0));
            Depth(o) <= 10 <==> outcome == Read(State(part + Expansion(o), [], LastLabel(o, lastch), 0))
  {
    var s := State(part, [], lastch, 0);
    if Depth(o) <= MAXNEST {
      ReadsOrder(o, tail, s);
    } else {
      TooDeep(o, tail, s);
    }
  }

  /** The part of the text that the reader looks at. */
  function LegalLength(text: string): (n: nat)
    ensures n <= |text| && (forall i :: 0 <= i < n ==> Legal(text[i])) && (n < |text| ==> !Legal(text[n]))
  {
    if text != "" && Legal(text[0]) then 1 + LegalLength(text[1..]) else 0
  }

  predicate SignAhead(text: string) {
    text != "" && Legal(text[0]) && (text[0] in "+-" || SignAhead(text[1..]))
  }

  lemma {:induction false} SignAheadMeans(text: string)
    ensures SignAhead(text) <==> exists i :: 0 <= i < LegalLength(text) && text[i] in "+-"
  {
    if text != "" && Legal(text[0]) {
      SignAheadMeans(text[1..]);
      if i :| 0 <= i < LegalLength(text) && text[i] in "+-" && i > 0 {
        assert text[1..][i - 1] == text[i];
      }
    }
  }

  lemma SignFrom(text: string, n: nat)
    requires n <= |text| && forall i :: 0 <= i < n ==> Legal(text[i]) && text[i] !in "+-"
    ensures SignAhead(text) == SignAhead(text[n..])
    decreases n
  {
    if n > 0 {
      SignFrom(text[1..], n - 1);
      assert text[1..][n - 1..] == text[n..];
    }
  }

  lemma TokenLegal(text: string, s: State)
    requires text != "" && Legal(text[0]) && Sane(s)
    ensures var n := Token(text, s).0; forall i :: 0 <= i < n ==> Legal(text[i]) && text[i] !in "+-"
  {
    var n := Token(text, s).0;
    if text[0] == ')' {
      forall i | 1 <= i < n
        ensures IsDigit(text[i])
      {
        assert IsDigit(text[1..][..n - 1][i - 1]);
      }
    } else if IsDigit(text[0]) {
      forall i | 0 <= i < n
        ensures IsDigit(text[i])
      {
        assert IsDigit(text[..n][i]);
      }
    }
  }

  lemma {:induction false} HangsIfSign(text: string, s: State)
    requires Sane(s)
    ensures Run(text, s).Hangs? <==> SignAhead(text)
    decreases |text|
  {
    if text != "" && Legal(text[0]) {
      var (n, s') := Token(text, s);
      if n > 0 {
        HangsIfSign(text[n..], s');
        TokenLegal(text, s);
        SignFrom(text, n);
      }
    }
  }

  /** The reader comes to an end exactly when there is no sign in what it looks at. */
  lemma HangsIffSign(text: string, part: string, lastch: char)
    ensures Run(text, State(part, [], lastch, 0)).Hangs? <==>
            exists i :: 0 <= i < LegalLength(text) && text[i] in "+-"
  {
    HangsIfSign(text, State(part, [], lastch, 0));
    SignAheadMeans(text);
  }

  // ---------- The reader in place ----------

  /** Appends what stands from start to stop repeats - 1 times. */
  method CopyOut(part: VString, start: nat, stop: nat, repeats: nat)
    requires part.Valid() && start <= stop <= part.len
    modifies part, part.st
    ensures part.Valid() && part.Text() == old(part.Text()) + Again(old(part.Text())[start..stop], repeats)
    ensures fresh(part.st) || part.st == old(part.st)
  {
    ghost var was := part.Text();
    ghost var s := was[start..stop];
    var i := 1;
    assert was + Times(s, 0) == was;
    while i < repeats
      invariant part.Valid() && (fresh(part.st) || part.st == old(part.st))
      invariant 1 <= i && (i <= repeats || i == 1) && part.Text() == was + Times(s, i - 1)
    {
      ghost var before := part.Text();
      var j := 0;
      while j < stop - start
        invariant 0 <= j <= stop - start
        invariant part.Valid() && (fresh(part.st) || part.st == old(part.st))
        invariant part.Text() == before + s[..j]
      {
        assert part.Text()[start + j] == s[j];
        part.AddCh(part.st[start + j]);
        assert s[..j + 1] == s[..j] + [s[j]];
        j := j + 1;
      }
      assert s[..j] == s;
      assert before + s == was + (Times(s, i - 1) + s);
      i := i + 1;
    }
  }

  /** The end of a group, at its bracket: the count behind it, and the group that many times. */
  method TakeClose(spec: string, i: nat, part: VString, start: nat, ghost s: State) returns (i': nat)
    requires i < |spec| && spec[i] == ')' && part.Valid() && part.Text() == s.out
    requires Sane(s) && s.stack != [] && start == s.stack[|s.stack| - 1]
    modifies part, part.st
    ensures part.Valid() && (fresh(part.st) || part.st == old(part.st))
    ensures var (n, s') := Token(spec[i..], s);
            i' == i + n && s' == State(part.Text(), s.stack[..|s.stack| - 1], s.lastch, s.errors)
  {
    ghost var text := spec[i..];
    i' := i + 1;
    var repeats := 1;
    assert text[1..] == spec[i + 1..];
    if IsDigit(At(spec, i')) {
      repeats, i' := ReadNumP(spec, i');
    }
    assert s.out[start..part.len] == s.out[start..];
    CopyOut(part, start, part.len, repeats);
  }

  /** A count, at its first digit: the last label that many times. */
  method TakeCount(spec: string, i: nat, part: VString, lastch: char, ghost s: State) returns (i': nat, error: bool)
    requires i < |spec| && IsDigit(spec[i]) && part.Valid() && part.Text() == s.out && s.lastch == lastch != '\0'
             && Sane(s)
    modifies part, part.st
    ensures part.Valid() && (fresh(part.st) || part.st == old(part.st))
    ensures var (n, s') := Token(spec[i..], s);
            i' == i + n && s' == s.(out := part.Text(), errors := s.errors + if error then 1 else 0)
  {
    var repeats;
    repeats, i' := ReadNumP(spec, i);
    error := part.len == 0;
    if !error {
      RepeatOut(part, lastch, repeats);
    }
  }

  /** One token. */
  method TakeToken(spec: string, i: nat, part: VString, stack: array<nat>, stackptr: nat, lastch: char)
    returns (i': nat, stackptr': nat, lastch': char, error: bool)
    requires i < |spec| && Legal(spec[i]) && part.Valid() && lastch != '\0'
    requires stack.Length == MAXNEST && stackptr <= MAXNEST
    requires Sane(State(part.Text(), stack[..stackptr], lastch, 0))
    modifies part, part.st, stack
    ensures part.Valid() && (fresh(part.st) || part.st == old(part.st))
    ensures stackptr' <= MAXNEST && lastch' != '\0'
    ensures var (n, s) := Token(spec[i..], State(old(part.Text()), old(stack[..stackptr]), lastch, 0));
            i' == i + n && s == State(part.Text(), stack[..stackptr'], lastch', if error then 1 else 0)
  {
    i', stackptr', lastch', error := i, stackptr, lastch, false;
    ghost var s := State(part.Text(), stack[..stackptr], lastch, 0);
    var c := spec[i];
    if c == '.' {
      i' := i + 1;
    } else if IsLabel(c) {
      part.AddCh(c);
      lastch' := c;
      i' := i + 1;
    } else if c == '(' {
      if stackptr < MAXNEST {
        stack[stackptr] := part.len;
        stackptr' := stackptr + 1;
        assert stack[..stackptr'] == s.stack + [|s.out|];
      } else {
        error := true;
      }
      i' := i + 1;
    } else if c == ')' {
      if stackptr > 0 {
        stackptr' := stackptr - 1;
        assert stack[..stackptr'] == s.stack[..|s.stack| - 1];
        i' := TakeClose(spec, i, part, stack[stackptr'], s);
      } else {
        error := true;
        i' := i + 1;
      }
    } else if IsDigit(c) {
      i', error := TakeCount(spec, i, part, lastch, s);
    }
  }

  /** Appends repeats - 1 times the last label. */
  method RepeatOut(part: VString, lastch: char, repeats: nat)
    requires part.Valid() && lastch != '\0'
    modifies part, part.st
    ensures part.Valid() && part.Text() == old(part.Text()) + Again([lastch], repeats)
    ensures fresh(part.st) || part.st == old(part.st)
  {
    ghost var was := part.Text();
    var i := 1;
    assert was + Times([lastch], 0) == was;
    while i < repeats
      invariant part.Valid() && (fresh(part.st) || part.st == old(part.st))
      invariant 1 <= i && (i <= repeats || i == 1) && part.Text() == was + Times([lastch], i - 1)
    {
      part.AddCh(lastch);
      i := i + 1;
    }
  }

  /** read_spec: the parts of spec appended to part, and the errors reported; or the loop makes no headway
      for ever. lastch is what that variable holds before it is first assigned. */
  method ReadSpec(spec: string, part: VString, lastch: char) returns (errors: nat, hangs: bool)
    requires part.Valid() && lastch != '\0'
    modifies part, part.st
    ensures part.Valid()
    ensures match Run(spec, State(old(part.Text()), [], lastch, 0))
            case Hangs => hangs
            case Read(s) => !hangs && part.Text() == s.out && errors == s.errors
  {
    var stack := new nat[MAXNEST];
    var i: nat, stackptr: nat, last := 0, 0, lastch;
    errors, hangs := 0, false;
    ghost var s := State(part.Text(), [], lastch, 0);
    ghost var outcome := Run(spec, s);
    assert spec[0..] == spec && stack[..0] == [];
    while i < |spec| && Legal(spec[i])
      invariant i <= |spec| && stackptr <= MAXNEST && last != '\0' && part.Valid()
      invariant fresh(stack) && stack.Length == MAXNEST && (fresh(part.st) || part.st == old(part.st))
      invariant s == State(part.Text(), stack[..stackptr], last, errors) && Sane(s)
      invariant Run(spec[i..], s) == outcome
      decreases |spec| - i
    {
      var i': nat, error;
      i', stackptr, last, error := TakeToken(spec, i, part, stack, stackptr, last);
      ErrorsAdd(spec[i..], s, errors);
      s := Token(spec[i..], s).1;
      if error {
        errors := errors + 1;
      }
      if i' == i {
        return errors, true;
      }
      assert spec[i..][i' - i..] == spec[i'..];
      i := i';
    }
    assert outcome == Read(if s.stack != [] then s.(errors := s.errors + 1) else s);
    if stackptr != 0 {
      errors := errors + 1;
    }
  }

  lemma ErrorsAdd(text: string, s: State, errors: nat)
    requires text != "" && Legal(text[0]) && Sane(s) && s.errors == errors
    ensures var (n, r) := Token(text, s.(errors := 0)); Token(text, s) == (n, r.(errors := r.errors + errors))
  {
  }
}
