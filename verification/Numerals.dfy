/** Numbers in the text of a tune. */
module Numerals {

  predicate IsDigit(c: char) {
    '0' <= c <= '9'
  }

  predicate IsCount(s: string) {
    forall i :: 0 <= i < |s| ==> IsDigit(s[i])
  }

  /** The number that digits stand for. */
  function Value(s: string): (v: nat)
    requires IsCount(s)
  {
    if s == "" then 0 else Value(s[..|s| - 1]) * 10 + (s[|s| - 1] - '0') as nat
  }

  lemma ValueSnoc(s: string, c: char)
    requires IsCount(s) && IsDigit(c)
    ensures IsCount(s + [c]) && Value(s + [c]) == Value(s) * 10 + (c - '0') as nat
  {
    assert (s + [c])[..|s|] == s;
  }

  /** How many digits come first. */
  function Digits(s: string): (n: nat)
    ensures n <= |s| && IsCount(s[..n]) && (n < |s| ==> !IsDigit(s[n]))
  {
    if s != "" && IsDigit(s[0]) then 1 + Digits(s[1..]) else 0
  }

  predicate NoDigitFirst(s: string) {
    s == "" || !IsDigit(s[0])
  }

  lemma DigitsOf(n: string, tail: string)
    requires IsCount(n) && (tail == "" || !IsDigit(tail[0]))
    ensures Digits(n + tail) == |n| && (n + tail)[..|n|] == n && (n + tail)[|n|..] == tail
    decreases |n|
  {
    if n != "" {
      assert (n + tail)[1..] == n[1..] + tail;
      DigitsOf(n[1..], tail);
    }
  }

  /** The character at i, or the terminator. */
  function At(spec: string, i: nat): (c: char) {
    if i < |spec| then spec[i] else '\0'
  }

  /** readnump */
  method ReadNumP(spec: string, i: nat) returns (t: nat, j: nat)
    requires i <= |spec|
    ensures var n := Digits(spec[i..]); j == i + n && t == Value(spec[i..][..n])
  {
    t, j := 0, i;
    while IsDigit(At(spec, j))
      invariant i <= j <= |spec| && IsCount(spec[i..j]) && t == Value(spec[i..j])
      decreases |spec| - j
    {
      ValueSnoc(spec[i..j], spec[j]);
      assert spec[i..j + 1] == spec[i..j] + [spec[j]];
      t := t * 10 + (spec[j] - '0') as nat;
      j := j + 1;
    }
    DigitsOf(spec[i..j], spec[j..]);
    assert spec[i..] == spec[i..j] + spec[j..];
  }
}
