/** The hand-written base64 coder of server/internal/store/postgres.go, against a bit-string
    reading of sections 4 and 3.5 of RFC 4648. */
module Base64 {
  import opened Bits

  const UPPER := "ABCDEFGHIJKLMNOPQRSTUVWXYZ"
  const LOWER := "abcdefghijklmnopqrstuvwxyz"
  const DIGITS := "0123456789"
  const ALPHABET: string := UPPER + LOWER + DIGITS + "+/"

  type Byte = x: nat | x < 256
  type Sextet = x: nat | x < 64
  /** One byte of a Go string. */
  type Octet = c: char | c as int < 256 witness 'A'

  datatype DecodeResult = Decoded(n: nat) | InvalidCharacter | BufferTooSmall

  // ---------- reference definitions ----------

  /** The place of a character in the alphabet, or 255, the table's mark for the others. */
  function Position(c: char): (p: Byte)
    ensures p < 64 || p == 255
  {
    if 'A' <= c <= 'Z' then c as int - 'A' as int
    else if 'a' <= c <= 'z' then c as int - 'a' as int + 26
    else if '0' <= c <= '9' then c as int - '0' as int + 52
    else if c == '+' then 62
    else if c == '/' then 63
    else 255
  }

  predicate InAlphabet(s: string) {
    forall i :: 0 <= i < |s| ==> Position(s[i]) < 64
  }

  /** What precedes the first padding character. */
  function Data(s: string): (d: string)
    ensures d <= s && '=' !in d
    ensures |d| < |s| ==> s[|d|] == '='
  {
    if s == [] || s[0] == '=' then [] else [s[0]] + Data(s[1..])
  }

  /** How many characters come before the first one outside the alphabet. */
  function LegalLength(s: string): (n: nat)
    ensures n <= |s| && InAlphabet(s[..n]) && (n < |s| ==> Position(s[n]) == 255)
  {
    if s == [] || Position(s[0]) == 255 then 0
    else
      var n := 1 + LegalLength(s[1..]);
      assert forall i :: 0 < i < n ==> s[i] == s[1..][i - 1];
      n
  }

  lemma {:induction false} LegalPrefix(s: string, i: nat)
    requires i <= |s| && InAlphabet(s[..i])
    ensures i <= LegalLength(s)
    ensures i < |s| ==> (i == LegalLength(s) <==> Position(s[i]) == 255)
  {
    if i > 0 {
      assert s[0] == s[..i][0];
      assert s[1..][..i - 1] == s[..i][1..];
      LegalPrefix(s[1..], i - 1);
    }
  }

  lemma AllLegal(s: string)
    ensures InAlphabet(s) <==> LegalLength(s) == |s|
  {
    assert s[..|s|] == s;
    if InAlphabet(s) {
      LegalPrefix(s, |s|);
    }
  }

  function Sextets(s: string): (v: seq<Sextet>)
    requires InAlphabet(s)
    ensures |v| == |s|
    ensures forall i :: 0 <= i < |s| ==> v[i] == Position(s[i])
  {
    seq(|s|, i requires 0 <= i < |s| => Position(s[i]))
  }

  function Spell(alphabet: string, v: seq<Sextet>): (s: string)
    requires |alphabet| == 64
    ensures |s| == |v|
    ensures forall i :: 0 <= i < |v| ==> s[i] == alphabet[v[i]]
  {
    seq(|v|, i requires 0 <= i < |v| => alphabet[v[i]])
  }

  function Chars(v: seq<Sextet>): string {
    Spell(ALPHABET, v)
  }

  function Repeat<T>(x: T, n: nat): (s: seq<T>)
    ensures |s| == n && forall i :: 0 <= i < n ==> s[i] == x
  {
    seq(n, _ => x)
  }

  /** Section 4 of RFC 4648: the octets are the whole 8-bit groups of the characters' bits. */
  function Decode(s: string): (b: seq<Byte>)
    requires InAlphabet(Data(s))
  {
    GroupBound(Concat(Sextets(Data(s)), 6), 8);
    Group(Concat(Sextets(Data(s)), 6), 8)
  }

  function PadBits(n: nat): nat { match n % 3 case 0 => 0 case 1 => 4 case _ => 2 }
  function PadChars(n: nat): nat { match n % 3 case 0 => 0 case 1 => 2 case _ => 1 }

  function EncodedSextets(b: seq<Byte>): (v: seq<Sextet>)
    ensures v == Group(Concat(b, 8) + Repeat(false, PadBits(|b|)), 6)
  {
    GroupBound(Concat(b, 8) + Repeat(false, PadBits(|b|)), 6);
    Group(Concat(b, 8) + Repeat(false, PadBits(|b|)), 6)
  }

  function Encode(b: seq<Byte>): string {
    Chars(EncodedSextets(b)) + Repeat('=', PadChars(|b|))
  }

  /** Section 3.5 of RFC 4648: full quantum, exact padding, and zero pad bits. */
  predicate Canonical(s: string) {
    var d := Data(s);
    && InAlphabet(d)
    && |d| % 4 != 1
    && s == d + Repeat('=', (4 - |d| % 4) % 4)
    && Zeros(Rest(Concat(Sextets(d), 6), 8))
  }

  // ---------- the alphabet ----------

  function CharsFrom(c: char, n: nat): string
    requires c as int + n < 256
  {
    seq(n, i requires 0 <= i < n => (c as int + i) as char)
  }

  lemma AlphabetPosition(i: nat)
    requires i < 64
    ensures Position(ALPHABET[i]) == i && ALPHABET[i] != '=' && ALPHABET[i] as int < 256
  {
    Ranges();
  }

  lemma Ranges()
    ensures CharsFrom('A', 26) == UPPER && CharsFrom('a', 26) == LOWER && CharsFrom('0', 10) == DIGITS
  {
  }

  lemma PositionAlphabet(c: char)
    requires Position(c) < 64
    ensures ALPHABET[Position(c)] == c && c != '='
  {
    var p: nat := Position(c);
    AlphabetPosition(p);
  }

  lemma CharsOfSextets(s: string)
    requires InAlphabet(s)
    ensures Chars(Sextets(s)) == s
  {
    forall i | 0 <= i < |s| ensures Chars(Sextets(s))[i] == s[i] {
      PositionAlphabet(s[i]);
    }
  }

  lemma SextetsOfChars(v: seq<Sextet>)
    ensures InAlphabet(Chars(v)) && Sextets(Chars(v)) == v && '=' !in Chars(v)
  {
    forall i | 0 <= i < |v| ensures Position(Chars(v)[i]) == v[i] && Chars(v)[i] != '=' {
      AlphabetPosition(v[i]);
    }
  }

  // ---------- round trips ----------

  lemma {:induction false} DataOf(d: string, n: nat)
    requires '=' !in d
    ensures Data(d + Repeat('=', n)) == d
  {
    if d != [] {
      assert (d + Repeat('=', n))[1..] == d[1..] + Repeat('=', n);
      DataOf(d[1..], n);
    }
  }

  lemma PadFillsSextets(n: nat)
    ensures (8 * n + PadBits(n)) % 6 == 0
    ensures (8 * n + PadBits(n)) / 6 == (4 * n + 2) / 3
    ensures (4 * n + 2) / 3 % 4 != 1
    ensures (4 - (4 * n + 2) / 3 % 4) % 4 == PadChars(n)
  {
    var m, r := n / 3, n % 3;
    assert n == 3 * m + r;
  }

  lemma PadOfSextets(k: nat)
    requires k % 4 != 1
    ensures 6 * k % 8 == PadBits(6 * k / 8)
    ensures (4 - k % 4) % 4 == PadChars(6 * k / 8)
  {
    var m, r := k / 4, k % 4;
    assert k == 4 * m + r;
    assert 6 * k / 8 == 3 * m + 6 * r / 8;
  }

  /** The sextets carry the octets' bits followed by the pad bits, nothing else. */
  lemma EncodedConcat(b: seq<Byte>)
    ensures Concat(EncodedSextets(b), 6) == Concat(b, 8) + Repeat(false, PadBits(|b|))
    ensures |EncodedSextets(b)| == (4 * |b| + 2) / 3
  {
    var bits := Concat(b, 8) + Repeat(false, PadBits(|b|));
    ConcatLength(b);
    PadFillsSextets(|b|);
    GroupLength(bits);
    ConcatOfGroup(bits, 6);
  }

  lemma EncodedBits(b: seq<Byte>)
    ensures Data(Encode(b)) == Chars(EncodedSextets(b))
    ensures InAlphabet(Data(Encode(b))) && Sextets(Data(Encode(b))) == EncodedSextets(b)
  {
    SextetsOfChars(EncodedSextets(b));
    DataOf(Chars(EncodedSextets(b)), PadChars(|b|));
  }

  /** decode(encode(b)) == b, for byte strings of every length. */
  lemma RoundTrip(b: seq<Byte>)
    ensures InAlphabet(Data(Encode(b))) && Decode(Encode(b)) == b
  {
    EncodedBits(b);
    EncodedConcat(b);
    GroupOfConcat(b, Repeat(false, PadBits(|b|)), 8);
    assert Group(Repeat(false, PadBits(|b|)), 8) == [];
  }

  lemma EncodedPadding(b: seq<Byte>)
    ensures var k := |EncodedSextets(b)|; k % 4 != 1 && (4 - k % 4) % 4 == PadChars(|b|)
  {
    EncodedConcat(b);
    PadFillsSextets(|b|);
  }

  lemma EncodedRest(b: seq<Byte>)
    ensures Zeros(Rest(Concat(EncodedSextets(b), 6), 8))
  {
    EncodedConcat(b);
    var pad := Repeat(false, PadBits(|b|));
    GroupOfConcat(b, pad, 8);
    assert Rest(pad, 8) == pad;
  }

  lemma EncodeIsCanonical(b: seq<Byte>)
    ensures Canonical(Encode(b))
  {
    EncodedPadding(b);
    EncodedRest(b);
    CharsAreCanonical(EncodedSextets(b), PadChars(|b|));
  }

  lemma CharsAreCanonical(v: seq<Sextet>, n: nat)
    requires |v| % 4 != 1 && n == (4 - |v| % 4) % 4 && Zeros(Rest(Concat(v, 6), 8))
    ensures Canonical(Chars(v) + Repeat('=', n))
  {
    SextetsOfChars(v);
    PaddedIsCanonical(Chars(v), v, n);
  }

  lemma PaddedIsCanonical(d: string, v: seq<Sextet>, n: nat)
    requires InAlphabet(d) && '=' !in d && v == Sextets(d)
    requires |v| % 4 != 1 && n == (4 - |v| % 4) % 4 && Zeros(Rest(Concat(v, 6), 8))
    ensures Canonical(d + Repeat('=', n))
  {
    DataOf(d, n);
    assert |v| == |d|;
  }

  lemma DecodedLength(s: string)
    requires InAlphabet(Data(s))
    ensures |Decode(s)| == 6 * |Data(s)| / 8
  {
    ConcatLength(Sextets(Data(s)));
    GroupLength(Concat(Sextets(Data(s)), 6));
  }

  lemma CanonicalPadding(s: string)
    requires Canonical(s)
    ensures PadChars(|Decode(s)|) == (4 - |Data(s)| % 4) % 4
    ensures PadBits(|Decode(s)|) == 6 * |Data(s)| % 8
  {
    DecodedLength(s);
    PadOfSextets(|Data(s)|);
  }

  lemma CanonicalRest(s: string)
    requires Canonical(s)
    ensures Rest(Concat(Sextets(Data(s)), 6), 8) == Repeat(false, PadBits(|Decode(s)|))
  {
    CanonicalPadding(s);
    ConcatLength(Sextets(Data(s)));
    GroupLength(Concat(Sextets(Data(s)), 6));
  }

  lemma CanonicalBits(s: string)
    requires Canonical(s)
    ensures Concat(Decode(s), 8) + Repeat(false, PadBits(|Decode(s)|)) == Concat(Sextets(Data(s)), 6)
  {
    CanonicalRest(s);
    ConcatOfGroup(Concat(Sextets(Data(s)), 6), 8);
  }

  lemma CanonicalSextets(s: string)
    requires Canonical(s)
    ensures EncodedSextets(Decode(s)) == Sextets(Data(s))
  {
    var v := Sextets(Data(s));
    CanonicalBits(s);
    GroupOfConcat(v, [], 6);
    assert Concat(v, 6) + [] == Concat(v, 6);
  }

  lemma CanonicalIsEncoded(s: string)
    requires Canonical(s)
    ensures Encode(Decode(s)) == s
  {
    var d := Data(s);
    assert s == d + Repeat('=', PadChars(|Decode(s)|)) by {
      CanonicalPadding(s);
    }
    assert Chars(EncodedSextets(Decode(s))) == d by {
      CanonicalSextets(s);
      CharsOfSextets(d);
    }
  }

  /** Re-encoding gives the text back exactly when the text is canonical; what re-encoding
      gives is always its own re-encoding. */
  lemma ReencodeIffCanonical(s: string)
    requires InAlphabet(Data(s))
    ensures Encode(Decode(s)) == s <==> Canonical(s)
    ensures var t := Encode(Decode(s)); InAlphabet(Data(t)) && Encode(Decode(t)) == t
  {
    EncodeIsCanonical(Decode(s));
    RoundTrip(Decode(s));
    if Canonical(s) {
      CanonicalIsEncoded(s);
    }
  }

  /** A text the decoder takes although re-encoding does not give it back: nothing after the
      first padding character is looked at, and pad bits are not checked. */
  lemma NonCanonicalAccepted()
    ensures InAlphabet(Data("QQ=!")) && !Canonical("QQ=!")
  {
    assert "QQ=!"[0] == 'Q' && "QQ=!"[1..] == "Q=!" && "Q=!"[1..] == "=!";
    assert Data("=!") == [];
    assert Data("Q=!") == "Q";
    assert Data("QQ=!") == "QQ";
    assert ("QQ" + Repeat('=', 2))[3] == '=';
  }
}
