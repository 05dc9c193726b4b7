/** Public keys in server/internal/store/postgres.go: base64 text outside, 32 bytes in the table. */
module PublicKeys {
  import opened Bits
  import opened Base64
  import opened Base64Loops
  import opened TrimSpace
  import opened Keys
  import opened Wrappers

  /** publicKeyBytes: the octets of a 32-byte key, white space around the text apart, or nothing. */
  method PublicKeyBytes(b64: seq<Octet>) returns (key: Option<seq<Byte>>)
    ensures key.Some? <==> InAlphabet(Data(Trim(b64))) && 6 * |Data(Trim(b64))| / 8 == KEY_BYTES
    ensures key.Some? ==> key.value == Decode(Trim(b64))
  {
    var text := Trim(b64);
    var buf := new Byte[KEY_BYTES](_ => 0);
    var r := DecodeInto(text, buf);
    AllLegal(Data(text));
    if r != Decoded(KEY_BYTES) {
      return None;
    }
    key := Some(buf[..]);
  }

  lemma CharIsMark(x: Sextet)
    ensures Chars([x])[0] as int < 256 && IsMark(Chars([x])[0])
  {
    AlphabetPosition(x);
    PositionIsMark(ALPHABET[x]);
  }

  lemma PositionIsMark(c: char)
    requires Position(c) < 64
    ensures c as int < 256 && IsMark(c)
  {
  }

  lemma EncodedCharIsMark(v: seq<Sextet>, pad: string, i: nat)
    requires i < |v| + |pad| && forall k :: 0 <= k < |pad| ==> pad[k] == '='
    ensures (Chars(v) + pad)[i] as int < 256 && IsMark((Chars(v) + pad)[i])
  {
    if i < |v| {
      CharIsMark(v[i]);
      assert (Chars(v) + pad)[i] == Chars([v[i]])[0];
    }
  }

  /** What the encoder writes is text that the decoder can be given, with nothing to trim. */
  lemma EncodeIsOctets(b: seq<Byte>)
    requires b != []
    ensures forall i :: 0 <= i < |Encode(b)| ==> Encode(b)[i] as int < 256
    ensures Bare(Encode(b))
  {
    var v, pad, s := EncodedSextets(b), Repeat('=', PadChars(|b|)), Encode(b);
    EncodedLength(b);
    forall i | 0 <= i < |s| ensures s[i] as int < 256 && IsMark(s[i]) {
      EncodedCharIsMark(v, pad, i);
    }
  }

  lemma EncodedLength(b: seq<Byte>)
    requires b != []
    ensures EncodedSextets(b) != []
  {
    var bits := Concat(b, 8) + Repeat(false, PadBits(|b|));
    ConcatLength(b);
    GroupLength(bits);
  }

  /** A key written to the database as text and read back, with any white space around it, is the
      same key. */
  lemma KeyRoundTrip(key: seq<Byte>, before: seq<seq<Octet>>, after: seq<seq<Octet>>)
    requires |key| == KEY_BYTES && AllSpaces(before) && AllSpaces(after)
    ensures forall i :: 0 <= i < |Encode(key)| ==> Encode(key)[i] as int < 256
    ensures var s := Trim(Flat(before) + Encode(key) + Flat(after));
            InAlphabet(Data(s)) && 6 * |Data(s)| / 8 == KEY_BYTES && Decode(s) == key
  {
    EncodeIsOctets(key);
    TrimOfPadded(before, Encode(key), after);
    RoundTrip(key);
    DecodedLength(Encode(key));
  }
}
