/** Strings that grow as characters are appended. */
module VStrings {

  class VString {
    var st: array<char>
    var len: nat
    var limit: nat

    /** st is a terminated string of len characters, and there is room for limit of them. */
    ghost predicate Valid()
      reads this, st
    {
      && 0 < limit && len <= limit && st.Length == limit + 1
      && st[len] == '\0' && forall i :: 0 <= i < len ==> st[i] != '\0'
    }

    ghost function Text(): (t: string)
      reads this, st
      requires Valid()
      ensures |t| == len
    {
      st[..len]
    }

    /** initvstring */
    constructor ()
      ensures Valid() && Text() == "" && fresh(st)
    {
      len, limit := 0, 40;
      st := new char[41](_ => '\0');
    }

    /** extendvstring, whose strcpy copies up to the terminator. */
    method Extend()
      requires Valid()
      modifies this`st, this`limit
      ensures Valid() && Text() == old(Text()) && fresh(st)
      ensures limit == 2 * old(limit) && len == old(len)
    {
      limit := limit * 2;
      var p := new char[limit + 1](_ => '\0');
      var i := 0;
      while st[i] != '\0'
        invariant i <= len < st.Length && p.Length == limit + 1 && st == old(st)
        invariant st[len] == '\0' && forall k :: 0 <= k < len ==> st[k] != '\0'
        invariant p[..i] == st[..i] && forall k :: i <= k < p.Length ==> p[k] == '\0'
        decreases len - i
      {
        p[i] := st[i];
        i := i + 1;
      }
      st := p;
    }

    /** addch */
    method AddCh(ch: char)
      requires Valid() && ch != '\0'
      modifies this, st
      ensures Valid() && Text() == old(Text()) + [ch]
      ensures fresh(st) || st == old(st)
    {
      if len >= limit {
        Extend();
      }
      st[len] := ch;
      st[len + 1] := '\0';
      len := len + 1;
    }

    /** clearvstring */
    method Clear()
      requires Valid()
      modifies this, st
      ensures Valid() && Text() == "" && st == old(st) && limit == old(limit)
    {
      st[0] := '\0';
      len := 0;
    }
  }
}
