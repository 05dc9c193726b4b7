/** Bit strings, most significant bit first. Section 4 of RFC 4648 regroups one bit string:
    8 bits at a time it is the octets, 6 bits at a time it is the alphabet positions. */
module Bits {

  function Pow2(n: nat): (p: nat)
    ensures p > 0
  {
    if n == 0 then 1 else 2 * Pow2(n - 1)
  }

  /** The n low bits of v. */
  function BitsOf(v: nat, n: nat): (bits: seq<bool>)
    ensures |bits| == n
  {
    if n == 0 then [] else BitsOf(v / 2, n - 1) + [v % 2 == 1]
  }

  function Value(bits: seq<bool>): nat {
    if bits == [] then 0
    else 2 * Value(bits[..|bits| - 1]) + if bits[|bits| - 1] then 1 else 0
  }

  /** The groups written one after the other, w bits each. */
  function Concat(groups: seq<nat>, w: nat): seq<bool> {
    if groups == [] then [] else BitsOf(groups[0], w) + Concat(groups[1..], w)
  }

  /** The whole w-bit groups of a bit string. */
  function Group(bits: seq<bool>, w: nat): seq<nat>
    requires w > 0
    decreases |bits|
  {
    if |bits| < w then [] else [Value(bits[..w])] + Group(bits[w..], w)
  }

  /** What is left after the whole groups. */
  function Rest(bits: seq<bool>, w: nat): (rest: seq<bool>)
    requires w > 0
    ensures |rest| < w
    decreases |bits|
  {
    if |bits| < w then bits else Rest(bits[w..], w)
  }

  predicate Zeros(bits: seq<bool>) {
    forall i :: 0 <= i < |bits| ==> !bits[i]
  }

  lemma {:induction false} ValueBound(bits: seq<bool>)
    ensures Value(bits) < Pow2(|bits|)
  {
    if bits != [] {
      ValueBound(bits[..|bits| - 1]);
    }
  }

  lemma {:induction false} GroupBound(bits: seq<bool>, w: nat)
    requires w > 0
    ensures forall i :: 0 <= i < |Group(bits, w)| ==> Group(bits, w)[i] < Pow2(w)
    decreases |bits|
  {
    if |bits| >= w {
      ValueBound(bits[..w]);
      GroupBound(bits[w..], w);
    }
  }

  lemma {:induction false} ValueOfBits(v: nat, n: nat)
    requires v < Pow2(n)
    ensures Value(BitsOf(v, n)) == v
  {
    if n > 0 {
      ValueOfBits(v / 2, n - 1);
      assert BitsOf(v, n)[..n - 1] == BitsOf(v / 2, n - 1);
    }
  }

  lemma {:induction false} BitsOfValue(bits: seq<bool>)
    ensures BitsOf(Value(bits), |bits|) == bits
  {
    if bits != [] {
      BitsOfValue(bits[..|bits| - 1]);
      assert bits == bits[..|bits| - 1] + [bits[|bits| - 1]];
    }
  }

  /** v followed by n zero bits. */
  function Shift(v: nat, n: nat): nat {
    if n == 0 then v else 2 * Shift(v, n - 1)
  }

  function ShiftRight(v: nat, n: nat): nat {
    if n == 0 then v else ShiftRight(v / 2, n - 1)
  }

  lemma {:induction false} ShiftRightUndoes(v: nat, low: nat, n: nat)
    requires low < Pow2(n)
    ensures ShiftRight(Shift(v, n) + low, n) == v
  {
    if n > 0 {
      assert (Shift(v, n) + low) / 2 == Shift(v, n - 1) + low / 2;
      ShiftRightUndoes(v, low / 2, n - 1);
    }
  }

  lemma {:induction false} ShiftTwice(v: nat, n: nat)
    ensures Shift(v, n + 2) == 4 * Shift(v, n)
    ensures ShiftRight(v, n + 2) == ShiftRight(v / 4, n)
  {
    assert Shift(v, n + 2) == 2 * Shift(v, n + 1);
    assert ShiftRight(v, n + 2) == ShiftRight(v / 2, n + 1);
  }

  lemma Shift68(v: nat)
    ensures Shift(v, 6) == 64 * v && Shift(v, 8) == 256 * v
  {
    ShiftTwice(v, 0);
    ShiftTwice(v, 2);
    ShiftTwice(v, 4);
    ShiftTwice(v, 6);
  }

  lemma Shift24(v: nat)
    ensures Shift(v, 2) == 4 * v && Shift(v, 4) == 16 * v
  {
    ShiftTwice(v, 0);
    ShiftTwice(v, 2);
  }

  lemma ShiftRight24(v: nat)
    ensures ShiftRight(v, 2) == v / 4 && ShiftRight(v, 4) == v / 16
  {
    ShiftTwice(v, 0);
    ShiftTwice(v, 2);
    ShiftTwice(v / 4, 0);
  }

  lemma {:induction false} ValueConcat(a: seq<bool>, b: seq<bool>)
    ensures Value(a + b) == Shift(Value(a), |b|) + Value(b)
  {
    if b == [] {
      assert a + b == a;
    } else {
      var b' := b[..|b| - 1];
      ValueConcat(a, b');
      assert (a + b)[..|a + b| - 1] == a + b';
    }
  }

  lemma {:induction false} ConcatAppend(a: seq<nat>, b: seq<nat>, w: nat)
    ensures Concat(a + b, w) == Concat(a, w) + Concat(b, w)
  {
    if a == [] {
      assert a + b == b;
    } else {
      assert (a + b)[1..] == a[1..] + b;
      ConcatAppend(a[1..], b, w);
    }
  }

  lemma {:induction false} ConcatLength(groups: seq<nat>)
    ensures |Concat(groups, 6)| == 6 * |groups|
    ensures |Concat(groups, 8)| == 8 * |groups|
  {
    if groups != [] {
      ConcatLength(groups[1..]);
    }
  }

  lemma {:induction false} GroupLength(bits: seq<bool>)
    ensures |Group(bits, 6)| == |bits| / 6 && |Rest(bits, 6)| == |bits| % 6
    ensures |Group(bits, 8)| == |bits| / 8 && |Rest(bits, 8)| == |bits| % 8
    decreases |bits|
  {
    if |bits| >= 8 {
      GroupLength(bits[8..]);
    }
    if |bits| >= 6 {
      GroupLength(bits[6..]);
    }
  }

  lemma Assoc<T>(a: seq<T>, b: seq<T>, c: seq<T>)
    ensures a + b + c == a + (b + c)
  {
  }

  lemma GroupCons(v: nat, bits: seq<bool>, w: nat)
    requires w > 0 && v < Pow2(w)
    ensures Group(BitsOf(v, w) + bits, w) == [v] + Group(bits, w)
    ensures Rest(BitsOf(v, w) + bits, w) == Rest(bits, w)
  {
    var all := BitsOf(v, w) + bits;
    assert all[..w] == BitsOf(v, w) && all[w..] == bits;
    ValueOfBits(v, w);
  }

  /** Regrouping undoes concatenation, whatever bits follow. */
  lemma {:induction false} GroupOfConcat(groups: seq<nat>, tail: seq<bool>, w: nat)
    requires w > 0
    requires forall i :: 0 <= i < |groups| ==> groups[i] < Pow2(w)
    ensures Group(Concat(groups, w) + tail, w) == groups + Group(tail, w)
    ensures Rest(Concat(groups, w) + tail, w) == Rest(tail, w)
  {
    if groups == [] {
      assert Concat(groups, w) + tail == tail;
    } else {
      var others := Concat(groups[1..], w) + tail;
      GroupOfConcat(groups[1..], tail, w);
      GroupCons(groups[0], others, w);
      Assoc(BitsOf(groups[0], w), Concat(groups[1..], w), tail);
      Assoc([groups[0]], groups[1..], Group(tail, w));
      assert groups == [groups[0]] + groups[1..];
    }
  }

  /** Concatenation undoes grouping, up to the remainder. */
  lemma {:induction false} ConcatOfGroup(bits: seq<bool>, w: nat)
    requires w > 0
    ensures bits == Concat(Group(bits, w), w) + Rest(bits, w)
    decreases |bits|
  {
    if |bits| >= w {
      BitsOfValue(bits[..w]);
      ConcatOfGroup(bits[w..], w);
      var groups := Group(bits, w);
      assert groups[1..] == Group(bits[w..], w);
      assert bits == bits[..w] + bits[w..];
    }
  }

  /** Bits arriving after a prefix only ever extend the prefix's groups. */
  lemma GroupGrow(bits: seq<bool>, more: seq<bool>, w: nat)
    requires w > 0
    ensures Group(bits + more, w) == Group(bits, w) + Group(Rest(bits, w) + more, w)
    ensures Rest(bits + more, w) == Rest(Rest(bits, w) + more, w)
  {
    ConcatOfGroup(bits, w);
    GroupBound(bits, w);
    assert bits + more == Concat(Group(bits, w), w) + (Rest(bits, w) + more);
    GroupOfConcat(Group(bits, w), Rest(bits, w) + more, w);
  }

  /** Bit strings of one length are told apart by their values. */
  lemma SameBits(a: seq<bool>, b: seq<bool>)
    requires |a| == |b| && Value(a) == Value(b)
    ensures a == b
  {
    BitsOfValue(a);
    BitsOfValue(b);
  }

  lemma AppendValue(groups: seq<nat>, g: nat, w: nat)
    requires g < Pow2(w)
    ensures Concat(groups + [g], w) == Concat(groups, w) + BitsOf(g, w)
    ensures Value(Concat(groups + [g], w)) == Shift(Value(Concat(groups, w)), w) + g
  {
    ConcatAppend(groups, [g], w);
    assert [g][1..] == [];
    assert Concat([g], w) == BitsOf(g, w) + [];
    ValueConcat(Concat(groups, w), BitsOf(g, w));
    ValueOfBits(g, w);
  }

  lemma {:induction false} ZerosValue(bits: seq<bool>)
    requires Zeros(bits)
    ensures Value(bits) == 0
  {
    if bits != [] {
      ZerosValue(bits[..|bits| - 1]);
    }
  }
}
