/** strings.TrimSpace on the bytes of a Go string: white space is what Unicode says, in UTF-8. */
module TrimSpace {
  import opened Bits
  import opened Base64

  /** The bytes are the encoding of one white-space character. */
  predicate IsSpace(e: seq<Octet>) {
    || (|e| == 1 && IsAsciiSpace(e[0]))
    || (|e| == 2 && e[0] as int == 0xC2 && (e[1] as int == 0x85 || e[1] as int == 0xA0))
    || (|e| == 3 && IsWideSpace(e[0] as int, e[1] as int, e[2] as int))
  }

  predicate IsAsciiSpace(c: Octet) {
    9 <= c as int <= 13 || c == ' '
  }

  /** U+1680, U+2000 to U+200A, U+2028, U+2029, U+202F, U+205F and U+3000. */
  predicate IsWideSpace(a: int, b: int, c: int) {
    || (a == 0xE1 && b == 0x9A && c == 0x80)
    || (a == 0xE2 && b == 0x80 && (0x80 <= c <= 0x8A || c == 0xA8 || c == 0xA9 || c == 0xAF))
    || (a == 0xE2 && b == 0x81 && c == 0x9F)
    || (a == 0xE3 && b == 0x80 && c == 0x80)
  }

  /** The length of the white-space character that the text begins with, or 0. */
  function SpaceAt(s: seq<Octet>): (n: nat)
    ensures n <= |s| && (n > 0 ==> IsSpace(s[..n]))
  {
    if |s| >= 1 && IsSpace(s[..1]) then 1
    else if |s| >= 2 && IsSpace(s[..2]) then 2
    else if |s| >= 3 && IsSpace(s[..3]) then 3
    else 0
  }

  /** The length of the white-space character that the text ends with, or 0. */
  function SpaceBefore(s: seq<Octet>): (n: nat)
    ensures n <= |s| && (n > 0 ==> IsSpace(s[|s| - n..]))
  {
    if |s| >= 1 && IsSpace(s[|s| - 1..]) then 1
    else if |s| >= 2 && IsSpace(s[|s| - 2..]) then 2
    else if |s| >= 3 && IsSpace(s[|s| - 3..]) then 3
    else 0
  }

  function TrimLeft(s: seq<Octet>): seq<Octet> {
    if SpaceAt(s) == 0 then s else TrimLeft(s[SpaceAt(s)..])
  }

  function TrimRight(s: seq<Octet>): seq<Octet> {
    if SpaceBefore(s) == 0 then s else TrimRight(s[..|s| - SpaceBefore(s)])
  }

  function Trim(s: seq<Octet>): seq<Octet> {
    TrimRight(TrimLeft(s))
  }

  // ---------- what it takes off ----------

  function Flat(spaces: seq<seq<Octet>>): seq<Octet> {
    if spaces == [] then [] else spaces[0] + Flat(spaces[1..])
  }

  predicate AllSpaces(spaces: seq<seq<Octet>>) {
    forall i :: 0 <= i < |spaces| ==> IsSpace(spaces[i])
  }

  lemma SpaceFirst(e: seq<Octet>, s: seq<Octet>)
    requires IsSpace(e)
    ensures SpaceAt(e + s) == |e| && (e + s)[|e|..] == s
  {
    var t := e + s;
    assert t[..|e|] == e;
  }

  lemma SpaceLast(s: seq<Octet>, e: seq<Octet>)
    requires IsSpace(e)
    ensures SpaceBefore(s + e) == |e| && (s + e)[..|s|] == s
  {
    var t := s + e;
    assert t[|t| - |e|..] == e;
    assert |e| >= 2 ==> t[|t| - 1..] == [e[|e| - 1]];
    assert |e| == 3 ==> t[|t| - 2..] == e[1..];
  }

  lemma {:induction false} TrimLeftSkips(spaces: seq<seq<Octet>>, s: seq<Octet>)
    requires AllSpaces(spaces)
    ensures TrimLeft(Flat(spaces) + s) == TrimLeft(s)
  {
    if spaces == [] {
      assert Flat(spaces) + s == s;
    } else {
      TrimLeftSkips(spaces[1..], s);
      assert Flat(spaces) + s == spaces[0] + (Flat(spaces[1..]) + s);
      SpaceFirst(spaces[0], Flat(spaces[1..]) + s);
    }
  }

  lemma {:induction false} FlatLast(spaces: seq<seq<Octet>>)
    requires spaces != []
    ensures Flat(spaces) == Flat(spaces[..|spaces| - 1]) + spaces[|spaces| - 1]
  {
    if |spaces| > 1 {
      FlatLast(spaces[1..]);
      assert spaces[1..][..|spaces| - 2] == spaces[..|spaces| - 1][1..];
    }
  }

  lemma {:induction false} TrimRightSkips(s: seq<Octet>, spaces: seq<seq<Octet>>)
    requires AllSpaces(spaces)
    ensures TrimRight(s + Flat(spaces)) == TrimRight(s)
  {
    if spaces == [] {
      assert s + Flat(spaces) == s;
    } else {
      var front, last := spaces[..|spaces| - 1], spaces[|spaces| - 1];
      TrimRightSkips(s, front);
      FlatLast(spaces);
      Assoc(s, Flat(front), last);
      TrimRightOnce(s + Flat(front), last);
    }
  }

  lemma TrimRightOnce(s: seq<Octet>, e: seq<Octet>)
    requires IsSpace(e)
    ensures TrimRight(s + e) == TrimRight(s)
  {
    SpaceLast(s, e);
  }

  /** Text that begins and ends with an ASCII character that is not white space. */
  predicate Bare(s: seq<Octet>) {
    s != [] && IsMark(s[0]) && IsMark(s[|s| - 1])
  }

  predicate IsMark(c: Octet) {
    c as int < 0x80 && !IsAsciiSpace(c)
  }

  lemma MarkFirst(s: seq<Octet>)
    requires s != [] && IsMark(s[0])
    ensures TrimLeft(s) == s
  {
  }

  lemma MarkLast(s: seq<Octet>)
    requires s != [] && IsMark(s[|s| - 1])
    ensures TrimRight(s) == s
  {
    MarkNotSpace(s);
  }

  lemma MarkNotSpace(s: seq<Octet>)
    requires s != [] && IsMark(s[|s| - 1])
    ensures SpaceBefore(s) == 0
  {
    var last := s[|s| - 1];
    assert s[|s| - 1..] == [last];
    assert |s| >= 2 ==> s[|s| - 2..] == [s[|s| - 2], last];
    assert |s| >= 3 ==> s[|s| - 3..] == [s[|s| - 3], s[|s| - 2], last];
  }

  /** Any white space around bare text is taken off, and nothing else. */
  lemma TrimOfPadded(before: seq<seq<Octet>>, s: seq<Octet>, after: seq<seq<Octet>>)
    requires AllSpaces(before) && AllSpaces(after) && Bare(s)
    ensures Trim(Flat(before) + s + Flat(after)) == s
  {
    var rest := s + Flat(after);
    assert Flat(before) + s + Flat(after) == Flat(before) + rest;
    TrimLeftSkips(before, rest);
    assert rest[0] == s[0];
    MarkFirst(rest);
    TrimRightSkips(s, after);
    MarkLast(s);
  }

  /** What is left neither begins nor ends with white space. */
  lemma {:induction false} TrimmedBefore(s: seq<Octet>)
    ensures SpaceAt(TrimLeft(s)) == 0
  {
    if SpaceAt(s) != 0 {
      TrimmedBefore(s[SpaceAt(s)..]);
    }
  }

  lemma {:induction false} TrimmedAfter(s: seq<Octet>)
    ensures SpaceBefore(TrimRight(s)) == 0 && TrimRight(s) <= s
  {
    if SpaceBefore(s) != 0 {
      TrimmedAfter(s[..|s| - SpaceBefore(s)]);
    }
  }

  lemma TrimIsTrimmed(s: seq<Octet>)
    ensures SpaceAt(Trim(s)) == 0 && SpaceBefore(Trim(s)) == 0
  {
    TrimmedBefore(s);
    TrimmedAfter(TrimLeft(s));
    PrefixNotSpace(TrimLeft(s), Trim(s));
  }

  lemma PrefixNotSpace(s: seq<Octet>, t: seq<Octet>)
    requires SpaceAt(s) == 0 && t <= s
    ensures SpaceAt(t) == 0
  {
    assert |t| >= 1 ==> t[..1] == s[..1];
    assert |t| >= 2 ==> t[..2] == s[..2];
    assert |t| >= 3 ==> t[..3] == s[..3];
  }
}
