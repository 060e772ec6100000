/** The secret as an authenticator app takes it: base32 of section 6 of RFC 4648, without padding. */
module Base32 {
  import opened Base
  import opened Bits
  import opened Radix

  function Symbol(v: nat): char {
    if v < 26 then 'A' + v as char else if v < 32 then '2' + (v - 26) as char else '='
  }

  function Value(c: char): Option<nat> {
    if 'A' <= c <= 'Z' then Some((c - 'A') as nat) else if '2' <= c <= '7' then Some(26 + (c - '2') as nat) else None
  }

  const SYMBOLS := Alphabet(Symbol, Value)

  lemma SymbolsOk()
    ensures Inverse(SYMBOLS, Pow2(5))
  {
  }

  const STANDARD := "ABCDEFGHIJKLMNOPQRSTUVWXYZ234567"

  /** The alphabet of section 6 of RFC 4648. */
  lemma SymbolsAreTheStandards(v: nat)
    requires v < |STANDARD|
    ensures |STANDARD| == 32 && Symbol(v) == STANDARD[v]
  {
  }

  /** encodeBase32: padded to eight characters. */
  function EncodeBase32(bytes: seq<Byte>): string {
    Padded(Spell(Encode(bytes, 5), SYMBOLS), 8)
  }

  /** decodeBase32: None where it throws. */
  function DecodeBase32(s: string): Option<seq<Byte>> {
    if |s| % 8 != 0 then None else
      var groups := Unspell(Stripped(s), SYMBOLS);
      if groups.None? then None else Some(Decode(groups.value, 5))
  }

  function ToBase32(bytes: seq<Byte>): string {
    Stripped(EncodeBase32(bytes))
  }

  function FromBase32(s: string): Option<seq<Byte>> {
    DecodeBase32(Padded(s, 8))
  }

  /** Every byte string comes back from its unpadded base32 form. */
  lemma FromBase32Inverts(bytes: seq<Byte>)
    ensures FromBase32(ToBase32(bytes)) == Some(bytes)
  {
    SymbolsOk();
    var groups := Encode(bytes, 5);
    UnspellInverts(groups, Pow2(5), SYMBOLS);
    StrippedPadded(Spell(groups, SYMBOLS), 8);
    DecodeInverts(bytes, 5);
  }
}
