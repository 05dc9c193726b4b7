/** The two base64 loops of server/internal/store/postgres.go, over byte arrays. */
module Base64Loops {
  import opened Bits
  import opened Base64

  const WORD := 0x1_0000_0000

  // ---------- decoding ----------

  /** The number read so far, after one more sextet. */
  lemma SextetValue(bits: seq<bool>, x: Sextet)
    ensures Value(bits + BitsOf(x, 6)) == 64 * Value(bits) + x
  {
    ValueConcat(bits, BitsOf(x, 6));
    ValueOfBits(x, 6);
    Shift68(Value(bits));
  }

  /** Eight bits in the middle of a bit string, read by shift and mask. */
  lemma MiddleOctet(high: seq<bool>, mid: seq<bool>, low: seq<bool>)
    requires |mid| == 8
    ensures ShiftRight(Value(high + mid + low), |low|) % 256 == Value(mid)
  {
    ValueConcat(high + mid, low);
    ValueBound(low);
    ShiftRightUndoes(Value(high + mid), Value(low), |low|);
    ValueConcat(high, mid);
    ValueBound(mid);
    Shift68(Value(high));
  }

  lemma OneGroup(bits: seq<bool>)
    requires 8 <= |bits| < 16
    ensures Group(bits, 8) == [Value(bits[..8])]
  {
    assert Group(bits[8..], 8) == [];
  }

  lemma Regroup(high: seq<bool>, rest: seq<bool>, more: seq<bool>)
    requires |rest + more| >= 8
    ensures high + rest + more == high + (rest + more)[..8] + (rest + more)[8..]
  {
  }

  /** The octet that one more sextet completes, when two or more bits were waiting. */
  lemma OctetCompleted(bits: seq<bool>, more: seq<bool>)
    requires |more| == 6 && |Rest(bits, 8)| >= 2
    ensures Group(bits + more, 8) ==
            Group(bits, 8) + [ShiftRight(Value(bits + more), |Rest(bits, 8)| - 2) % 256]
  {
    var all := Rest(bits, 8) + more;
    GroupGrow(bits, more, 8);
    OneGroup(all);
    OctetValue(bits, more);
  }

  lemma OctetValue(bits: seq<bool>, more: seq<bool>)
    requires |more| == 6 && |Rest(bits, 8)| >= 2
    ensures ShiftRight(Value(bits + more), |Rest(bits, 8)| - 2) % 256 == Value((Rest(bits, 8) + more)[..8])
  {
    var high, all := Concat(Group(bits, 8), 8), Rest(bits, 8) + more;
    ConcatOfGroup(bits, 8);
    Regroup(high, Rest(bits, 8), more);
    MiddleOctet(high, all[..8], all[8..]);
  }

  function BitsRead(s: string): (bits: seq<bool>)
    requires InAlphabet(s)
    ensures |bits| == 6 * |s|
  {
    ConcatLength(Sextets(s));
    Concat(Sextets(s), 6)
  }

  lemma CharacterRead(s: string, i: nat)
    requires i < |s| && InAlphabet(s[..i]) && Position(s[i]) < 64
    ensures InAlphabet(s[..i + 1])
    ensures BitsRead(s[..i + 1]) == BitsRead(s[..i]) + BitsOf(Position(s[i]), 6)
  {
    var x: Sextet := Position(s[i]);
    assert s[..i + 1] == s[..i] + [s[i]];
    assert Sextets(s[..i + 1]) == Sextets(s[..i]) + [x];
    ConcatAppend(Sextets(s[..i]), [x], 6);
    assert Concat([x], 6) == BitsOf(x, 6);
  }

  /** The accumulator is never masked; its wrap-around at 32 bits loses nothing that is read. */
  lemma WrapKeepsSum(v: nat, x: Sextet)
    ensures (v % WORD * 64) % WORD + x == (64 * v + x) % WORD
  {
    var q, a := v / WORD, v % WORD;
    var t, b := 64 * a / WORD, 64 * a % WORD;
    assert v == q * WORD + a && 64 * a == t * WORD + b;
    assert 64 * v + x == (64 * q + t) * WORD + (b + x);
    assert b % 64 == 0;
  }

  lemma WrapKeepsOctet(v: nat, n: nat)
    requires n in {0, 2, 4}
    ensures ShiftRight(v % WORD, n) % 256 == ShiftRight(v, n) % 256
  {
    var q, a := v / WORD, v % WORD;
    assert v == q * WORD + a;
    ShiftRight24(v);
    ShiftRight24(a);
    if n == 0 {
      SkipMultiple(q * 0x100_0000, a);
    } else if n == 2 {
      assert v / 4 == q * 0x4000_0000 + a / 4;
      SkipMultiple(q * 0x40_0000, a / 4);
    } else {
      assert v / 16 == q * 0x1000_0000 + a / 16;
      SkipMultiple(q * 0x10_0000, a / 16);
    }
  }

  lemma SkipMultiple(k: nat, a: nat)
    ensures (256 * k + a) % 256 == a % 256
  {
  }

  /** The decoding loop's variables. */
  datatype Reader = Reader(acc: nat, bits: nat, octets: seq<Byte>)

  function Next(r: Reader, x: Sextet): Reader {
    var acc := r.acc * 64 % WORD + x;
    if r.bits + 6 < 8 then Reader(acc, r.bits + 6, r.octets)
    else Reader(acc, r.bits - 2, r.octets + [ShiftRight(acc, r.bits - 2) % 256])
  }

  function Read(s: string): Reader
    requires InAlphabet(s)
  {
    if s == [] then Reader(0, 0, []) else Next(Read(s[..|s| - 1]), Position(s[|s| - 1]))
  }

  lemma ReadNext(s: string, i: nat)
    requires i < |s| && InAlphabet(s[..i]) && Position(s[i]) < 64
    ensures InAlphabet(s[..i + 1]) && Read(s[..i + 1]) == Next(Read(s[..i]), Position(s[i]))
  {
    assert s[..i + 1][..i] == s[..i];
  }

  /** What those variables mean once a bit string has been read. */
  ghost predicate Holds(r: Reader, read: seq<bool>) {
    && r.acc == Value(read) % WORD
    && r.bits == |Rest(read, 8)| && r.bits in {0, 2, 4, 6}
    && r.octets == Group(read, 8)
  }

  lemma RestAfterOctet(bits: seq<bool>, more: seq<bool>)
    requires |more| == 6 && |Rest(bits, 8)| >= 2
    ensures |Rest(bits + more, 8)| == |Rest(bits, 8)| - 2
  {
    GroupGrow(bits, more, 8);
    var all := Rest(bits, 8) + more;
    assert Rest(all, 8) == Rest(all[8..], 8) == all[8..];
  }

  lemma HoldsOctet(r: Reader, read: seq<bool>, x: Sextet)
    requires Holds(r, read) && r.bits != 0
    ensures Holds(Next(r, x), read + BitsOf(x, 6))
  {
    var more := BitsOf(x, 6);
    SextetValue(read, x);
    WrapKeepsSum(Value(read), x);
    OctetCompleted(read, more);
    WrapKeepsOctet(Value(read + more), r.bits - 2);
    RestAfterOctet(read, more);
  }

  lemma TooFewBits(bits: seq<bool>, more: seq<bool>)
    requires Rest(bits, 8) == [] && |more| < 8
    ensures Group(bits + more, 8) == Group(bits, 8) && Rest(bits + more, 8) == more
  {
    GroupGrow(bits, more, 8);
    assert [] + more == more;
  }

  lemma HoldsNone(r: Reader, read: seq<bool>, x: Sextet)
    requires Holds(r, read) && r.bits == 0
    ensures Holds(Next(r, x), read + BitsOf(x, 6))
  {
    SextetValue(read, x);
    WrapKeepsSum(Value(read), x);
    TooFewBits(read, BitsOf(x, 6));
  }

  lemma {:induction false} ReadHolds(s: string)
    requires InAlphabet(s)
    ensures Holds(Read(s), BitsRead(s))
  {
    if s != [] {
      var i := |s| - 1;
      ReadHolds(s[..i]);
      CharacterRead(s, i);
      assert s[..i + 1] == s;
      if Read(s[..i]).bits == 0 {
        HoldsNone(Read(s[..i]), BitsRead(s[..i]), Position(s[i]));
      } else {
        HoldsOctet(Read(s[..i]), BitsRead(s[..i]), Position(s[i]));
      }
    }
  }

  /** Accumulating character by character, wrap-around included, reads off the bit string. */
  lemma ReadDecodes(s: string)
    requires InAlphabet(s)
    ensures Read(s).octets == Group(BitsRead(s), 8)
    ensures Read(s).bits in {0, 2, 4, 6} && 8 * |Read(s).octets| + Read(s).bits == 6 * |s|
  {
    ReadHolds(s);
    GroupLength(BitsRead(s));
  }

  lemma ReadIsDecode(s: string)
    requires InAlphabet(Data(s))
    ensures Read(Data(s)).octets == Decode(s)
  {
    ReadDecodes(Data(s));
  }

  method BuildTable() returns (lut: seq<Byte>)
    ensures |lut| == 256 && lut['=' as int] == 0
    ensures forall c: Octet :: c != '=' ==> lut[c as int] == Position(c)
  {
    var table := new Byte[256](_ => 255);
    for i := 0 to |ALPHABET|
      modifies table
      invariant forall c: Octet :: table[c as int] == if Position(c) < i then Position(c) else 255
    {
      AlphabetPosition(i);
      table[ALPHABET[i] as int] := i;
      forall c: Octet ensures table[c as int] == if Position(c) < i + 1 then Position(c) else 255 {
        if Position(c) == i {
          PositionAlphabet(c);
        }
      }
    }
    table['=' as int] := 0;
    lut := table[..];
  }

  /** Where the loop stopped, and why. */
  ghost predicate Stopped(d: string, room: nat, r: DecodeResult, at: nat, read: Reader) {
    && at <= |d| && InAlphabet(d[..at]) && read == Read(d[..at])
    && |read.octets| <= room
    && (r.InvalidCharacter? ==> at < |d| && Position(d[at]) == 255)
    && (r.BufferTooSmall? ==> at < |d| && Position(d[at]) < 64 && |read.octets| == room && read.bits != 0)
    && (r.Decoded? ==> at == |d| && r.n == |read.octets|)
  }

  lemma OctetsOf(k: nat, out: nat, bits: nat)
    requires bits in {0, 2, 4, 6} && 8 * out + bits == 6 * k
    ensures 6 * k / 8 == out
    ensures bits != 0 ==> forall k' :: k' > k ==> 6 * k' / 8 > out
  {
  }

  lemma Verdict(d: string, room: nat, r: DecodeResult, at: nat, read: Reader)
    requires Stopped(d, room, r, at, read)
    ensures r == DecodeVerdict(d, room)
  {
    LegalPrefix(d, at);
    ReadDecodes(d[..at]);
    OctetsOf(at, |read.octets|, read.bits);
  }

  /** With k characters before the first one outside the alphabet: no room when the octets of
      those k do not fit, else a bad character if there is one, else the number of octets. */
  function DecodeVerdict(d: string, room: nat): DecodeResult {
    var k := LegalLength(d);
    if 6 * k / 8 > room then BufferTooSmall
    else if k < |d| then InvalidCharacter
    else Decoded(6 * k / 8)
  }

  method Put(dst: array<Byte>, out: nat, b: Byte) returns (next: nat)
    requires out < dst.Length
    modifies dst
    ensures next == out + 1 && dst[..next] == old(dst[..out]) + [b]
    ensures forall j :: next <= j < dst.Length ==> dst[j] == old(dst[j])
  {
    dst[out] := b;
    next := out + 1;
  }

  method DecodeLoop(src: seq<Octet>, ghost d: string, dst: array<Byte>, lut: seq<Byte>)
    returns (r: DecodeResult, ghost at: nat, ghost read: Reader)
    requires d <= src && '=' !in d && (|d| < |src| ==> src[|d|] == '=')
    requires |lut| == 256 && forall c: Octet :: c != '=' ==> lut[c as int] == Position(c)
    modifies dst
    ensures Stopped(d, dst.Length, r, at, read)
    ensures dst[..|read.octets|] == read.octets
    ensures forall j :: |read.octets| <= j < dst.Length ==> dst[j] == old(dst[j])
  {
    var out: nat, acc: nat, bits: nat := 0, 0, 0;
    read := Reader(0, 0, []);
    at := 0;
    for i := 0 to |src|
      invariant at == i <= |d| && InAlphabet(d[..i]) && out <= dst.Length
      invariant Read(d[..i]) == read
      invariant read.acc == acc && read.bits == bits && read.octets == dst[..out]
      invariant forall j :: out <= j < dst.Length ==> dst[j] == old(dst[j])
    {
      var c := src[i];
      if c == '=' {
        break;
      }
      var v := lut[c as int];
      if v == 255 {
        return InvalidCharacter, at, read;
      }
      acc := (acc * 64) % WORD + v;
      bits := bits + 6;
      if bits >= 8 {
        bits := bits - 8;
        if out >= dst.Length {
          return BufferTooSmall, at, read;
        }
        out := Put(dst, out, ShiftRight(acc, bits) % 256);
      }
      ReadNext(d, i);
      read := Next(read, v);
      at := i + 1;
    }
    r := Decoded(out);
  }

  /** The octets of the characters before the first one outside the alphabet. */
  function LegalOctets(d: string): (b: seq<nat>)
    ensures |b| == 6 * LegalLength(d) / 8
  {
    GroupLength(BitsRead(d[..LegalLength(d)]));
    Group(BitsRead(d[..LegalLength(d)]), 8)
  }

  lemma {:induction false} ReadPrefix(s: string, i: nat)
    requires i <= |s| && InAlphabet(s)
    ensures Read(s[..i]).octets <= Read(s).octets
  {
    if i < |s| {
      var n := |s| - 1;
      ReadPrefix(s[..n], i);
      assert s[..n][..i] == s[..i];
    } else {
      assert s[..i] == s;
    }
  }

  function Room(d: string, room: nat): nat {
    if |LegalOctets(d)| < room then |LegalOctets(d)| else room
  }

  /** Wherever it stopped, it had read the octets that fit. */
  lemma StoppedWrote(d: string, room: nat, r: DecodeResult, at: nat, read: Reader)
    requires Stopped(d, room, r, at, read)
    ensures read.octets == LegalOctets(d)[..Room(d, room)]
  {
    var k := LegalLength(d);
    LegalPrefix(d, at);
    ReadDecodes(d[..k]);
    assert d[..k][..at] == d[..at];
    ReadPrefix(d[..k], at);
    ReadDecodes(d[..at]);
  }

  /** pgxDecodeB64. Whatever the verdict, the octets that are legal and fit are written, and nothing
      else; on success they are those of the whole data. */
  method DecodeInto(src: seq<Octet>, dst: array<Byte>) returns (r: DecodeResult)
    modifies dst
    ensures r == DecodeVerdict(Data(src), dst.Length)
    ensures r.Decoded? ==> InAlphabet(Data(src)) && r.n <= dst.Length && dst[..r.n] == Decode(src)
    ensures dst[..Room(Data(src), dst.Length)] == LegalOctets(Data(src))[..Room(Data(src), dst.Length)]
    ensures forall j :: Room(Data(src), dst.Length) <= j < dst.Length ==> dst[j] == old(dst[j])
  {
    var lut := BuildTable();
    ghost var at, read;
    r, at, read := DecodeLoop(src, Data(src), dst, lut);
    Verdict(Data(src), dst.Length, r, at, read);
    StoppedWrote(Data(src), dst.Length, r, at, read);
    AllLegal(Data(src));
    if r.Decoded? {
      assert Data(src)[..at] == Data(src);
      ReadIsDecode(src);
    }
  }

  // ---------- encoding ----------

  lemma WholeBits(n: nat)
    requires n % 3 == 0
    ensures 8 * n % 6 == 0
  {
    assert 8 * n == 6 * (n + n / 3);
  }

  lemma WholeBlocks(a: seq<Byte>)
    requires |a| % 3 == 0
    ensures Rest(Concat(a, 8), 6) == []
  {
    WholeBits(|a|);
    ConcatLength(a);
    GroupLength(Concat(a, 8));
  }

  lemma WholeSextets(a: seq<Byte>)
    requires |a| % 3 == 0
    ensures EncodedSextets(a) == Group(Concat(a, 8), 6)
  {
    assert Repeat(false, PadBits(|a|)) == [];
    assert Concat(a, 8) + [] == Concat(a, 8);
  }

  lemma EncodedSextetsAppend(a: seq<Byte>, b: seq<Byte>)
    requires |a| % 3 == 0
    ensures EncodedSextets(a + b) == EncodedSextets(a) + EncodedSextets(b)
  {
    var head, tail, pad := Concat(a, 8), Concat(b, 8), Repeat(false, PadBits(|b|));
    assert PadBits(|a + b|) == PadBits(|b|);
    ConcatAppend(a, b, 8);
    Assoc(head, tail, pad);
    WholeBlocks(a);
    WholeSextets(a);
    GroupGrow(head, tail + pad, 6);
    assert [] + (tail + pad) == tail + pad;
  }

  /** Whole three-octet blocks can be encoded one after the other. */
  lemma EncodeAppend(a: seq<Byte>, b: seq<Byte>)
    requires |a| % 3 == 0
    ensures Encode(a + b) == Encode(a) + Encode(b)
  {
    EncodedSextetsAppend(a, b);
    PaddedAppend(EncodedSextets(a), EncodedSextets(b), Repeat('=', PadChars(|b|)));
    NoPadBefore(|a|, |b|);
  }

  lemma PaddedAppend(x: seq<Sextet>, y: seq<Sextet>, pad: string)
    ensures Chars(x + y) + pad == (Chars(x) + Repeat('=', 0)) + (Chars(y) + pad)
  {
    CharsAppend(x, y);
    assert Chars(x) + Repeat('=', 0) == Chars(x);
    Assoc(Chars(x), Chars(y), pad);
  }

  lemma NoPadBefore(m: nat, n: nat)
    requires m % 3 == 0
    ensures PadChars(m) == 0 && PadChars(m + n) == PadChars(n)
  {
  }

  lemma CharsAppend(x: seq<Sextet>, y: seq<Sextet>)
    ensures Chars(x + y) == Chars(x) + Chars(y)
  {
  }

  lemma AppendSextet(v: seq<Sextet>, x: Sextet)
    ensures Value(Concat(v + [x], 6)) == 64 * Value(Concat(v, 6)) + x
  {
    AppendValue(v, x, 6);
    Shift68(Value(Concat(v, 6)));
  }

  lemma AppendOctet(v: seq<Byte>, x: Byte)
    ensures Value(Concat(v + [x], 8)) == 256 * Value(Concat(v, 8)) + x
  {
    AppendValue(v, x, 8);
    Shift68(Value(Concat(v, 8)));
  }

  lemma TwoSextets(a: Sextet, b: Sextet)
    ensures Value(Concat([a, b], 6)) == 64 * a + b
  {
    AppendSextet([], a);
    AppendSextet([a], b);
    assert [] + [a] == [a] && [a] + [b] == [a, b];
  }

  lemma ThreeSextets(a: Sextet, b: Sextet, c: Sextet)
    ensures Value(Concat([a, b, c], 6)) == 4096 * a + 64 * b + c
  {
    TwoSextets(a, b);
    AppendSextet([a, b], c);
    assert [a, b] + [c] == [a, b, c];
  }

  lemma FourSextets(a: Sextet, b: Sextet, c: Sextet, d: Sextet)
    ensures Value(Concat([a, b, c, d], 6)) == 262144 * a + 4096 * b + 64 * c + d
  {
    ThreeSextets(a, b, c);
    AppendSextet([a, b, c], d);
    assert [a, b, c] + [d] == [a, b, c, d];
  }

  lemma OneOctet(a: Byte)
    ensures Value(Concat([a], 8)) == a
  {
    AppendOctet([], a);
    assert [] + [a] == [a];
  }

  lemma TwoOctets(a: Byte, b: Byte)
    ensures Value(Concat([a, b], 8)) == 256 * a + b
  {
    OneOctet(a);
    AppendOctet([a], b);
    assert [a] + [b] == [a, b];
  }

  lemma ThreeOctets(a: Byte, b: Byte, c: Byte)
    ensures Value(Concat([a, b, c], 8)) == 65536 * a + 256 * b + c
  {
    TwoOctets(a, b);
    AppendOctet([a, b], c);
    assert [a, b] + [c] == [a, b, c];
  }

  /** Sextets carrying the bits of one padded block are the block's encoding. */
  lemma BlockIs(b: seq<Byte>, v: seq<Sextet>)
    requires 6 * |v| == 8 * |b| + PadBits(|b|)
    requires Value(Concat(v, 6)) == Shift(Value(Concat(b, 8)), PadBits(|b|))
    ensures EncodedSextets(b) == v
  {
    var pad := Repeat(false, PadBits(|b|));
    ZerosValue(pad);
    ValueConcat(Concat(b, 8), pad);
    ConcatLength(b);
    ConcatLength(v);
    SameBits(Concat(v, 6), Concat(b, 8) + pad);
    GroupOfConcat(v, [], 6);
    assert Concat(v, 6) + [] == Concat(v, 6);
  }

  lemma Regroup2(b0: Byte, b1: Byte)
    ensures 4096 * (b0 / 4) + 64 * (b0 % 4 * 16 + b1 / 16) + b1 % 16 * 4 == 4 * (256 * b0 + b1)
  {
  }

  lemma Regroup3(b0: Byte, b1: Byte, b2: Byte)
    ensures 262144 * (b0 / 4) + 4096 * (b0 % 4 * 16 + b1 / 16) + 64 * (b1 % 16 * 4 + b2 / 64) + b2 % 64
            == 65536 * b0 + 256 * b1 + b2
  {
  }

  lemma Block1(b0: Byte, x: Sextet, y: Sextet)
    requires 64 * x + y == 16 * b0
    ensures EncodedSextets([b0]) == [x, y]
  {
    TwoSextets(x, y);
    OneOctet(b0);
    Shift24(b0);
    BlockIs([b0], [x, y]);
  }

  lemma Block2(b0: Byte, b1: Byte, x: Sextet, y: Sextet, z: Sextet)
    requires 4096 * x + 64 * y + z == 4 * (256 * b0 + b1)
    ensures EncodedSextets([b0, b1]) == [x, y, z]
  {
    ThreeSextets(x, y, z);
    TwoOctets(b0, b1);
    TwoPadBits(256 * b0 + b1);
    var b: seq<Byte>, v: seq<Sextet> := [b0, b1], [x, y, z];
    assert |b| == 2 && |v| == 3;
    BlockIs(b, v);
  }

  lemma TwoPadBits(n: nat)
    ensures PadBits(2) == 2 && Shift(n, 2) == 4 * n
  {
    Shift24(n);
  }

  lemma Block3(b0: Byte, b1: Byte, b2: Byte, x: Sextet, y: Sextet, z: Sextet, t: Sextet)
    requires 262144 * x + 4096 * y + 64 * z + t == 65536 * b0 + 256 * b1 + b2
    ensures EncodedSextets([b0, b1, b2]) == [x, y, z, t]
  {
    FourSextets(x, y, z, t);
    ThreeOctets(b0, b1, b2);
    BlockIs([b0, b1, b2], [x, y, z, t]);
  }

  /** The sextets the encoder computes for one block. */
  function BlockSextets(b: seq<Byte>): (v: seq<Sextet>)
    requires 1 <= |b| <= 3
    ensures |v| == |b| + 1
  {
    if |b| == 1 then [b[0] / 4, b[0] % 4 * 16]
    else if |b| == 2 then [b[0] / 4, b[0] % 4 * 16 + b[1] / 16, b[1] % 16 * 4]
    else [b[0] / 4, b[0] % 4 * 16 + b[1] / 16, b[1] % 16 * 4 + b[2] / 64, b[2] % 64]
  }

  lemma BlockEncodes(b: seq<Byte>)
    requires 1 <= |b| <= 3
    ensures EncodedSextets(b) == BlockSextets(b)
  {
    var v := BlockSextets(b);
    if |b| == 1 {
      assert b == [b[0]];
      Block1(b[0], v[0], v[1]);
    } else if |b| == 2 {
      assert b == [b[0], b[1]];
      Regroup2(b[0], b[1]);
      Block2(b[0], b[1], v[0], v[1], v[2]);
    } else {
      assert b == [b[0], b[1], b[2]];
      Regroup3(b[0], b[1], b[2]);
      Block3(b[0], b[1], b[2], v[0], v[1], v[2], v[3]);
    }
  }

  /** The four characters written for one block. */
  function BlockChars(alphabet: string, b: seq<Byte>): (s: string)
    requires |alphabet| == 64 && 1 <= |b| <= 3
    ensures |s| == 4
  {
    Spell(alphabet, BlockSextets(b)) + Repeat('=', 3 - |b|)
  }

  function BlockText(b: seq<Byte>): (s: string)
    requires 1 <= |b| <= 3
    ensures |s| == 4
  {
    BlockChars(ALPHABET, b)
  }

  lemma EncodeBlock(b: seq<Byte>, i: nat, j: nat)
    requires i < |b| && i % 3 == 0 && j == (if i + 3 <= |b| then i + 3 else |b|)
    ensures Encode(b[..j]) == Encode(b[..i]) + BlockText(b[i..j])
  {
    assert b[..j] == b[..i] + b[i..j];
    EncodeAppend(b[..i], b[i..j]);
    BlockEncodes(b[i..j]);
  }

  lemma BlockCharsAre(alphabet: string, b: seq<Byte>)
    requires |alphabet| == 64 && 1 <= |b| <= 3
    ensures var b1: Byte := if |b| > 1 then b[1] else 0;
            var b2: Byte := if |b| > 2 then b[2] else 0;
            var s := BlockChars(alphabet, b);
            && s[0] == alphabet[b[0] / 4]
            && s[1] == alphabet[b[0] % 4 * 16 + b1 / 16]
            && s[2] == (if |b| > 1 then alphabet[b1 % 16 * 4 + b2 / 64] else '=')
            && s[3] == (if |b| > 2 then alphabet[b2 % 64] else '=')
  {
  }

  method WriteBlock(alphabet: string, b: seq<Byte>, out: array<char>, n: nat)
    requires |alphabet| == 64 && 1 <= |b| <= 3 && n + 4 <= out.Length
    modifies out
    ensures out[..n + 4] == old(out[..n]) + BlockChars(alphabet, b)
  {
    ghost var s := BlockChars(alphabet, b);
    BlockCharsAre(alphabet, b);
    var rem := |b|;
    var b0, b1, b2 := b[0], 0, 0;
    if rem > 1 {
      b1 := b[1];
    }
    if rem > 2 {
      b2 := b[2];
    }
    out[n] := alphabet[b0 / 4];
    out[n + 1] := alphabet[b0 % 4 * 16 + b1 / 16];
    out[n + 2] := if rem > 1 then alphabet[b1 % 16 * 4 + b2 / 64] else '=';
    out[n + 3] := if rem > 2 then alphabet[b2 % 64] else '=';
    assert out[n] == s[0] && out[n + 1] == s[1] && out[n + 2] == s[2] && out[n + 3] == s[3];
  }

  method WriteText(b: seq<Byte>, out: array<char>, n: nat)
    requires 1 <= |b| <= 3 && n + 4 <= out.Length
    modifies out
    ensures out[..n + 4] == old(out[..n]) + BlockText(b)
  {
    WriteBlock(ALPHABET, b, out, n);
  }

  /** The first i bytes, or all there are. */
  function Front(b: seq<Byte>, i: nat): seq<Byte> {
    if i <= |b| then b[..i] else b
  }

  method WriteNext(b: seq<Byte>, i: nat, out: array<char>, n: nat)
    requires i < |b| && i % 3 == 0 && n + 4 <= out.Length && out[..n] == Encode(Front(b, i))
    modifies out
    ensures out[..n + 4] == Encode(Front(b, i + 3))
  {
    var next := if i + 3 <= |b| then i + 3 else |b|;
    EncodeBlock(b, i, next);
    assert b[..|b|] == b;
    WriteText(b[i..next], out, n);
  }

  /** pkBytesToB64 writes the encoding of sections 4 and 3.5 of RFC 4648. */
  method EncodeBytes(b: seq<Byte>) returns (s: string)
    ensures s == Encode(b)
  {
    var out := new char[(|b| + 2) / 3 * 4](_ => 'A');
    var n, i := 0, 0;
    ghost var blocks := 0;
    assert Front(b, 0) == [];
    while i < |b|
      invariant i == 3 * blocks && n == 4 * blocks && blocks <= (|b| + 2) / 3
      invariant out[..n] == Encode(Front(b, i))
    {
      WriteNext(b, i, out, n);
      n := n + 4;
      i := i + 3;
      blocks := blocks + 1;
    }
    assert Front(b, i) == b;
    s := out[..n];
  }
}
