/** The list of passes of a variant ending, such as 1,3-5: what it is read as. */
module PassLists {
  import opened Numerals
  import opened Playback

  /** One number, or a range of them, as written. */
  datatype Item = One(n: string) | Range(a: string, b: string)
  {
    predicate Ok() {
      match this
      case One(n) => n != "" && IsCount(n)
      case Range(a, b) => a != "" && IsCount(a) && IsCount(b)
    }

    function Print(): (s: string) {
      match this
      case One(n) => n
      case Range(a, b) => a + "-" + b
    }

    /** A range that runs backwards still holds the number it begins with. */
    predicate Holds(pass: int)
      requires Ok()
    {
      match this
      case One(n) => pass == Value(n)
      case Range(a, b) => pass == Value(a) || Value(a) <= pass <= Value(b)
    }
  }

  function PrintItems(items: seq<Item>): (s: string) {
    if items == [] then ""
    else if |items| == 1 then items[0].Print()
    else items[0].Print() + "," + PrintItems(items[1..])
  }

  lemma {:induction false} ReadNumOf(done: string, n: string, tail: string)
    requires IsCount(done) && IsCount(n) && NoDigitFirst(tail)
    ensures ReadNum(n + tail, Value(done)) == (Value(done + n), tail)
    decreases |n|
  {
    if n == "" {
      assert n + tail == tail && done + n == done;
    } else {
      ValueSnoc(done, n[0]);
      assert (n + tail)[1..] == n[1..] + tail && done + n == done + [n[0]] + n[1..];
      ReadNumOf(done + [n[0]], n[1..], tail);
    }
  }

  lemma ReadNumAll(n: string, tail: string)
    requires IsCount(n) && NoDigitFirst(tail)
    ensures ReadNum(n + tail) == (Value(n), tail)
  {
    ReadNumOf("", n, tail);
    assert "" + n == n;
  }

  /** Behind a comma, or at the end. */
  predicate Rest(tail: string) {
    tail == "" || tail[0] == ','
  }

  function Behind(tail: string): (s: string)
    requires Rest(tail)
  {
    if tail == "" then "" else tail[1..]
  }

  lemma FirstItem(x: Item, tail: string, pass: int)
    requires x.Ok() && Rest(tail)
    ensures ScanList(x.Print() + tail, pass) == if x.Holds(pass) then (true, 0) else ScanList(Behind(tail), pass)
  {
    var s := x.Print() + tail;
    if x.One? {
      ReadNumAll(x.n, tail);
    } else {
      assert s == x.a + ("-" + x.b + tail);
      var more := "-" + x.b + tail;
      ReadNumAll(x.a, more);
      assert more[1..] == x.b + tail;
      ReadNumAll(x.b, tail);
    }
  }

  /** A printed list is read without error, and as holding exactly the passes one of its items holds. */
  lemma {:induction false} ListHolds(items: seq<Item>, pass: int)
    requires forall k :: 0 <= k < |items| ==> items[k].Ok()
    ensures ScanList(PrintItems(items), pass) == (exists k :: 0 <= k < |items| && items[k].Holds(pass), 0)
    decreases |items|
  {
    if items != [] {
      var x, rest := items[0], items[1..];
      if |items| == 1 {
        assert x.Print() + "" == x.Print();
        FirstItem(x, "", pass);
      } else {
        var tail := "," + PrintItems(rest);
        assert x.Print() + "," + PrintItems(rest) == x.Print() + tail;
        FirstItem(x, tail, pass);
        assert Behind(tail) == PrintItems(rest);
        ListHolds(rest, pass);
      }
      assert forall k :: 1 <= k < |items| ==> items[k] == rest[k - 1];
      if k :| 0 <= k < |rest| && rest[k].Holds(pass) {
        assert items[k + 1].Holds(pass);
      }
    }
  }
}
