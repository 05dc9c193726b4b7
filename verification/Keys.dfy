/** Public keys as text: what encoding/base64 makes of them, as security.VerifyDevice reads them. */
module Keys {
  import opened Wrappers
  import opened Base64

  const KEY_BYTES := 32

  predicate IsBreak(c: char) {
    c == '\r' || c == '\n'
  }

  /** The text without its line breaks, which the standard decoder skips wherever they stand. */
  function Unbroken(s: string): string {
    if s == [] then []
    else Unbroken(s[..|s| - 1]) + if IsBreak(s[|s| - 1]) then [] else [s[|s| - 1]]
  }

  /** What the standard decoder takes: whole quanta with exact padding, whatever the pad bits are. */
  predicate Standard(t: string) {
    var d := Data(t);
    && |t| % 4 == 0 && InAlphabet(d) && |t| - |d| <= 2
    && forall i :: |d| <= i < |t| ==> t[i] == '='
  }

  /** The 32 bytes that a key text stands for, if it does. */
  function KeyOf(text: string): Option<seq<Byte>> {
    var t := Unbroken(text);
    if Standard(t) && |Decode(t)| == KEY_BYTES then Some(Decode(t)) else None
  }

  lemma {:induction false} UnbrokenAppend(a: string, b: string)
    ensures Unbroken(a + b) == Unbroken(a) + Unbroken(b)
  {
    if b == [] {
      assert a + b == a;
    } else {
      var front, last := b[..|b| - 1], b[|b| - 1];
      assert (a + b)[..|a + b| - 1] == a + front;
      UnbrokenAppend(a, front);
    }
  }

  /** A line break put anywhere into a key text changes the text and not the key. */
  lemma BreakKeepsKey(a: string, c: char, b: string)
    requires IsBreak(c)
    ensures KeyOf(a + [c] + b) == KeyOf(a + b) && a + [c] + b != a + b
  {
    UnbrokenAppend(a + [c], b);
    UnbrokenAppend(a, [c]);
    UnbrokenAppend(a, b);
    assert Unbroken([c]) == [];
    assert Unbroken(a) + [] == Unbroken(a);
    assert |a + [c] + b| == |a + b| + 1;
  }

  lemma {:induction false} NothingToSkip(s: string)
    requires forall i :: 0 <= i < |s| ==> !IsBreak(s[i])
    ensures Unbroken(s) == s
  {
    if s != [] {
      NothingToSkip(s[..|s| - 1]);
      assert s == s[..|s| - 1] + [s[|s| - 1]];
    }
  }

  lemma DataIsUnbroken(d: string, n: nat)
    requires InAlphabet(d)
    ensures Unbroken(d + Repeat('=', n)) == d + Repeat('=', n)
  {
    var s := d + Repeat('=', n);
    forall i | 0 <= i < |s| ensures !IsBreak(s[i]) {
      if i < |d| {
        assert Position(d[i]) < 64;
      }
    }
    NothingToSkip(s);
  }

  lemma QuantumsAreWhole(n: nat)
    ensures (n + (4 - n % 4) % 4) % 4 == 0
    ensures n % 4 != 1 ==> (4 - n % 4) % 4 <= 2
  {
  }

  lemma PaddedIsStandard(s: string, d: string, n: nat)
    requires d == Data(s) && s == d + Repeat('=', n) && InAlphabet(d) && n <= 2 && (|d| + n) % 4 == 0
    ensures Standard(s)
  {
  }

  lemma CanonicalIsStandard(s: string)
    requires Canonical(s)
    ensures Unbroken(s) == s && Standard(s)
  {
    var d := Data(s);
    var n := (4 - |d| % 4) % 4;
    QuantumsAreWhole(|d|);
    PaddedIsStandard(s, d, n);
    DataIsUnbroken(d, n);
  }

  /** What the encoder makes of a key is a text for it. */
  lemma EncodedKey(key: seq<Byte>)
    requires |key| == KEY_BYTES
    ensures KeyOf(Encode(key)) == Some(key)
  {
    EncodeIsCanonical(key);
    RoundTrip(key);
    CanonicalIsStandard(Encode(key));
  }
}
