/**
  The base encodings of RFC 4648: the bits of a byte string, most significant first, cut
  into groups of `w` bits, the last one filled up with zeros, one symbol for each.
 */
module Radix {
  import opened Base
  import opened Bits

  type BitString = seq<bool>

  // ----- numbers and bits

  function ToBits(n: nat, w: nat): (bits: BitString)
    ensures |bits| == w
  {
    if w == 0 then [] else ToBits(n / 2, w - 1) + [n % 2 == 1]
  }

  function FromBits(bits: BitString): (n: nat)
    ensures n < Pow2(|bits|)
  {
    if bits == [] then 0 else 2 * FromBits(bits[..|bits| - 1]) + if bits[|bits| - 1] then 1 else 0
  }

  lemma {:induction false} NumberReturns(n: nat, w: nat)
    requires n < Pow2(w)
    ensures FromBits(ToBits(n, w)) == n
  {
    if w > 0 {
      NumberReturns(n / 2, w - 1);
      assert ToBits(n, w)[..w - 1] == ToBits(n / 2, w - 1);
    }
  }

  lemma {:induction false} BitsReturn(bits: BitString)
    ensures ToBits(FromBits(bits), |bits|) == bits
  {
    if bits != [] {
      var init := bits[..|bits| - 1];
      BitsReturn(init);
      assert FromBits(bits) / 2 == FromBits(init);
      assert bits == init + [bits[|bits| - 1]];
    }
  }

  // ----- cutting into groups

  function ZeroBits(k: nat): (bits: BitString)
    ensures |bits| == k
  {
    seq(k, i => false)
  }

  /** The values of the groups of w bits; a short last group is filled up. */
  function Groups(bits: BitString, w: nat): (groups: seq<nat>)
    requires w > 0
    ensures forall g :: g in groups ==> g < Pow2(w)
    decreases |bits|
  {
    if bits == [] then []
    else if |bits| <= w then [FromBits(bits + ZeroBits(w - |bits|))]
    else [FromBits(bits[..w])] + Groups(bits[w..], w)
  }

  function Ungrouped(groups: seq<nat>, w: nat): BitString {
    if groups == [] then [] else ToBits(groups[0], w) + Ungrouped(groups[1..], w)
  }

  lemma UngroupedFirst(g: nat, groups: seq<nat>, w: nat)
    ensures Ungrouped([g] + groups, w) == ToBits(g, w) + Ungrouped(groups, w)
  {
  }

  /** The zeros that fill up the last group. */
  function Fill(bits: BitString, w: nat): (fill: nat)
    requires w > 0
    ensures fill < w
    decreases |bits|
  {
    if bits == [] then 0 else if |bits| <= w then w - |bits| else Fill(bits[w..], w)
  }

  lemma LastGroup(bits: BitString, w: nat)
    requires 0 < |bits| <= w
    ensures Ungrouped(Groups(bits, w), w) == bits + ZeroBits(Fill(bits, w))
  {
    var whole := bits + ZeroBits(w - |bits|);
    BitsReturn(whole);
    assert Groups(bits, w) == [FromBits(whole)] + [];
    UngroupedFirst(FromBits(whole), [], w);
  }

  lemma FirstGroup(bits: BitString, w: nat)
    requires 0 < w < |bits|
    ensures Ungrouped(Groups(bits, w), w) == bits[..w] + Ungrouped(Groups(bits[w..], w), w)
  {
    BitsReturn(bits[..w]);
    UngroupedFirst(FromBits(bits[..w]), Groups(bits[w..], w), w);
  }

  lemma Reassociated(bits: BitString, w: nat, rest: BitString)
    requires w <= |bits|
    ensures bits[..w] + (bits[w..] + rest) == bits + rest
  {
  }

  /** Reading the groups back gives the bits and the zeros that filled up the last one. */
  lemma {:induction false} UngroupedReturns(bits: BitString, w: nat)
    requires w > 0
    ensures Ungrouped(Groups(bits, w), w) == bits + ZeroBits(Fill(bits, w))
    decreases |bits|
  {
    if bits == [] {
    } else if |bits| <= w {
      LastGroup(bits, w);
    } else {
      FirstGroup(bits, w);
      UngroupedReturns(bits[w..], w);
      Reassociated(bits, w, ZeroBits(Fill(bits, w)));
    }
  }

  // ----- bytes

  function BytesToBits(bytes: seq<Byte>): BitString {
    Ungrouped(bytes, 8)
  }

  /** Whole bytes only: the bits left over are dropped. */
  function BitsToBytes(bits: BitString): (bytes: seq<Byte>)
    decreases |bits|
  {
    if |bits| < 8 then [] else
      assert Pow2(8) == 256;
      [FromBits(bits[..8])] + BitsToBytes(bits[8..])
  }

  lemma FirstByte(b: Byte, rest: BitString)
    ensures BitsToBytes(ToBits(b, 8) + rest) == [b] + BitsToBytes(rest)
  {
    var bits := ToBits(b, 8) + rest;
    assert Pow2(8) == 256;
    NumberReturns(b, 8);
    assert bits[..8] == ToBits(b, 8) && bits[8..] == rest;
  }

  lemma {:induction false} BytesReturn(bytes: seq<Byte>, rest: BitString)
    requires |rest| < 8
    ensures BitsToBytes(BytesToBits(bytes) + rest) == bytes
  {
    if bytes == [] {
      assert BytesToBits(bytes) + rest == rest;
    } else {
      var tail: seq<Byte> := bytes[1..];
      FirstByte(bytes[0], BytesToBits(tail) + rest);
      assert BytesToBits(bytes) + rest == ToBits(bytes[0], 8) + (BytesToBits(tail) + rest);
      BytesReturn(tail, rest);
      assert bytes == [bytes[0]] + tail;
    }
  }

  function Encode(bytes: seq<Byte>, w: nat): (groups: seq<nat>)
    requires w > 0
    ensures forall g :: g in groups ==> g < Pow2(w)
  {
    Groups(BytesToBits(bytes), w)
  }

  function Decode(groups: seq<nat>, w: nat): seq<Byte> {
    BitsToBytes(Ungrouped(groups, w))
  }

  /** Decoding inverts encoding, for every width up to a byte. */
  lemma DecodeInverts(bytes: seq<Byte>, w: nat)
    requires 0 < w <= 8
    ensures Decode(Encode(bytes, w), w) == bytes
  {
    UngroupedReturns(BytesToBits(bytes), w);
    BytesReturn(bytes, ZeroBits(Fill(BytesToBits(bytes), w)));
  }

  // ----- what number the groups spell

  /** The number with these digits in base 2^w, the highest first. */
  function Number(digits: seq<nat>, w: nat): nat {
    if digits == [] then 0 else digits[0] * Pow2(w * (|digits| - 1)) + Number(digits[1..], w)
  }

  lemma Regrouped(x: nat, p: nat, y: nat, b: nat)
    ensures 2 * (x * p + y) + b == x * (2 * p) + (2 * y + b)
  {
  }

  lemma {:induction false} BitsAdd(a: BitString, b: BitString)
    ensures FromBits(a + b) == FromBits(a) * Pow2(|b|) + FromBits(b)
    decreases |b|
  {
    if b == [] {
      assert a + b == a;
    } else {
      var n := |b| - 1;
      assert (a + b)[..|a| + n] == a + b[..n];
      BitsAdd(a, b[..n]);
      Regrouped(FromBits(a), Pow2(n), FromBits(b[..n]), if b[n] then 1 else 0);
    }
  }

  lemma {:induction false} ZerosAreZero(k: nat)
    ensures FromBits(ZeroBits(k)) == 0
  {
    if k > 0 {
      assert ZeroBits(k)[..k - 1] == ZeroBits(k - 1);
      ZerosAreZero(k - 1);
    }
  }

  lemma {:induction false} UngroupedIsTheNumber(groups: seq<nat>, w: nat)
    requires forall i :: 0 <= i < |groups| ==> groups[i] < Pow2(w)
    ensures |Ungrouped(groups, w)| == w * |groups| && FromBits(Ungrouped(groups, w)) == Number(groups, w)
  {
    if groups != [] {
      var rest := groups[1..];
      UngroupedIsTheNumber(rest, w);
      NumberReturns(groups[0], w);
      BitsAdd(ToBits(groups[0], w), Ungrouped(rest, w));
      OneGroupMore(w, |rest|);
    }
  }

  lemma OneGroupMore(w: nat, n: nat)
    ensures w * (n + 1) == w + w * n
  {
  }

  /**
    The groups spell the bytes, both read as one number with the highest digit first, but
    for the zeros that fill up the last group, of which there are fewer than a group has.
   */
  lemma EncodeSpellsTheNumber(bytes: seq<Byte>, w: nat)
    requires w > 0
    ensures var groups := Encode(bytes, w);
            var fill := w * |groups| - 8 * |bytes|;
            0 <= fill < w && Number(groups, w) == Number(bytes, 8) * Pow2(fill)
  {
    var bits := BytesToBits(bytes);
    var fill := Fill(bits, w);
    assert Pow2(8) == 256;
    UngroupedIsTheNumber(bytes, 8);
    UngroupedReturns(bits, w);
    assert forall i :: 0 <= i < |Groups(bits, w)| ==> Groups(bits, w)[i] in Groups(bits, w);
    UngroupedIsTheNumber(Groups(bits, w), w);
    BitsAdd(bits, ZeroBits(fill));
    ZerosAreZero(fill);
  }

  // ----- symbols

  /** The symbol of each value, and the value of each symbol; None for any other character. */
  datatype Alphabet = Alphabet(symbol: nat -> char, value: char -> Option<nat>)

  ghost predicate Inverse(a: Alphabet, size: nat) {
    forall v: nat :: v < size ==> a.value(a.symbol(v)) == Some(v) && a.symbol(v) != '='
  }

  function Spell(groups: seq<nat>, a: Alphabet): (s: string)
    ensures |s| == |groups| && forall i :: 0 <= i < |s| ==> s[i] == a.symbol(groups[i])
  {
    seq(|groups|, i requires 0 <= i < |groups| => a.symbol(groups[i]))
  }

  /** The values of the symbols, or None when some character is no symbol. */
  function Unspell(s: string, a: Alphabet): (r: Option<seq<nat>>)
    ensures r.Some? ==> |r.value| == |s| && forall i :: 0 <= i < |s| ==> a.value(s[i]) == Some(r.value[i])
    ensures r.None? <==> exists i :: 0 <= i < |s| && a.value(s[i]).None?
  {
    if s == [] then Some([])
    else
      var init := Unspell(s[..|s| - 1], a);
      var last := a.value(s[|s| - 1]);
      if init.None? || last.None? then None else Some(init.value + [last.value])
  }

  lemma UnspellInverts(groups: seq<nat>, size: nat, a: Alphabet)
    requires Inverse(a, size) && forall g :: g in groups ==> g < size
    ensures Unspell(Spell(groups, a), a) == Some(groups) && '=' !in Spell(groups, a)
  {
    var s := Spell(groups, a);
    forall i | 0 <= i < |s| ensures a.value(s[i]) == Some(groups[i]) && s[i] != '=' {
      assert groups[i] in groups;
    }
    assert Unspell(s, a).Some?;
    assert Unspell(s, a).value == groups;
  }

  // ----- padding

  function Pads(k: nat): (s: string)
    ensures |s| == k && forall i :: 0 <= i < k ==> s[i] == '='
  {
    seq(k, i => '=')
  }

  /** Filled up to a multiple of `unit` characters. */
  function Padded(s: string, unit: nat): string
    requires unit > 0
  {
    s + Pads(Missing(|s|, unit))
  }

  function Missing(n: nat, unit: nat): nat
    requires unit > 0
  {
    (unit - n % unit) % unit
  }

  lemma WholeUnits(n: nat, unit: nat)
    requires unit == 4 || unit == 8
    ensures (n + Missing(n, unit)) % unit == 0
  {
  }

  /** Without the padding at the end. */
  function Stripped(s: string): (r: string)
    ensures r <= s && (r != [] ==> r[|r| - 1] != '=')
  {
    if s != [] && s[|s| - 1] == '=' then Stripped(s[..|s| - 1]) else s
  }

  lemma {:induction false} StrippedDropsPads(s: string, k: nat)
    requires '=' !in s
    ensures Stripped(s + Pads(k)) == s
    decreases k
  {
    if k == 0 {
      assert s + Pads(k) == s;
    } else {
      assert (s + Pads(k))[..|s| + k - 1] == s + Pads(k - 1);
      StrippedDropsPads(s, k - 1);
    }
  }

  lemma StrippedPadded(s: string, unit: nat)
    requires '=' !in s && (unit == 4 || unit == 8)
    ensures Stripped(Padded(s, unit)) == s && |Padded(s, unit)| % unit == 0
  {
    StrippedDropsPads(s, Missing(|s|, unit));
    WholeUnits(|s|, unit);
  }
}
