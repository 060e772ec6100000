/**
  Client credentials in a Basic header: section 2.3.1 of RFC 6749 has each half
  form-encoded, the halves joined by a colon and the pair base64-encoded.
 */
module BasicAuth {
  import opened Base
  import opened Bits
  import opened Radix

  // ----- UTF-8

  function EncodeChar(c: char): (bytes: seq<Byte>)
    ensures 1 <= |bytes| <= 4
  {
    var n := c as nat;
    if n < 0x80 then [n]
    else if n < 0x800 then [0xC0 + n / 64, 0x80 + n % 64]
    else if n < 0x1_0000 then [0xE0 + n / 4096, 0x80 + n / 64 % 64, 0x80 + n % 64]
    else [0xF0 + n / 262144, 0x80 + n / 4096 % 64, 0x80 + n / 64 % 64, 0x80 + n % 64]
  }

  /** How many octets a first octet announces; 0 for one that cannot come first. */
  function SequenceLength(lead: Byte): (n: nat)
    ensures n <= 4
  {
    if lead < 0x80 then 1
    else if 0xC0 <= lead < 0xE0 then 2
    else if 0xE0 <= lead < 0xF0 then 3
    else if 0xF0 <= lead < 0xF8 then 4
    else 0
  }

  predicate Continues(bytes: seq<Byte>) {
    forall i :: 1 <= i < |bytes| ==> 0x80 <= bytes[i] < 0xC0
  }

  function Scalar(n: int): Option<char> {
    if 0 <= n < 0xD800 || 0xE000 <= n < 0x11_0000 then Some(n as char) else None
  }

  /** The character of a valid sequence: complete, not overlong, no surrogate. */
  function DecodeChar(bytes: seq<Byte>): Option<char> {
    if !Continues(bytes) then None
    else if |bytes| == 1 && bytes[0] < 0x80 then Scalar(bytes[0])
    else if |bytes| == 2 && 0xC0 <= bytes[0] < 0xE0 then
      var n: int := (bytes[0] as int - 0xC0) * 64 + (bytes[1] as int - 0x80);
      if n < 0x80 then None else Scalar(n)
    else if |bytes| == 3 && 0xE0 <= bytes[0] < 0xF0 then
      var n: int := (bytes[0] as int - 0xE0) * 4096 + (bytes[1] as int - 0x80) * 64 + (bytes[2] as int - 0x80);
      if n < 0x800 then None else Scalar(n)
    else if |bytes| == 4 && 0xF0 <= bytes[0] < 0xF8 then
      var n: int := (bytes[0] as int - 0xF0) * 262144 + (bytes[1] as int - 0x80) * 4096 + (bytes[2] as int - 0x80) * 64
                    + (bytes[3] as int - 0x80);
      if n < 0x1_0000 then None else Scalar(n)
    else None
  }

  lemma CharReturns(c: char)
    ensures DecodeChar(EncodeChar(c)) == Some(c) && SequenceLength(EncodeChar(c)[0]) == |EncodeChar(c)|
  {
    var n := c as nat;
    Sextets(n);
    if 0x800 <= n < 0x1_0000 {
      ThreeReturn(c);
    } else if n >= 0x1_0000 {
      FourReturn(c);
    }
  }

  lemma Sextets(n: nat)
    ensures n == n / 64 * 64 + n % 64 && n / 64 == n / 4096 * 64 + n / 64 % 64
    ensures n / 4096 == n / 262144 * 64 + n / 4096 % 64
  {
  }

  lemma ThreeReturn(c: char)
    requires 0x800 <= c as nat < 0x1_0000
    ensures DecodeChar(EncodeChar(c)) == Some(c) && SequenceLength(EncodeChar(c)[0]) == 3
  {
    Sextets(c as nat);
  }

  lemma FourReturn(c: char)
    requires 0x1_0000 <= c as nat
    ensures DecodeChar(EncodeChar(c)) == Some(c) && SequenceLength(EncodeChar(c)[0]) == 4
  {
    Sextets(c as nat);
  }

  /** The decoder is strict: it takes exactly what the encoder puts out. */
  lemma OnlyEncodingsDecode(bytes: seq<Byte>, c: char)
    ensures DecodeChar(bytes) == Some(c) <==> bytes == EncodeChar(c)
  {
    if bytes == EncodeChar(c) {
      CharReturns(c);
    } else if DecodeChar(bytes) == Some(c) {
      if |bytes| == 3 {
        ThreeDecode(bytes, c);
      } else if |bytes| == 4 {
        FourDecode(bytes, c);
      }
    }
  }

  lemma ThreeDecode(bytes: seq<Byte>, c: char)
    requires |bytes| == 3 && DecodeChar(bytes) == Some(c)
    ensures bytes == EncodeChar(c)
  {
    var a: int, b: int, d: int := bytes[0] as int - 0xE0, bytes[1] as int - 0x80, bytes[2] as int - 0x80;
    assert c as int == a * 4096 + b * 64 + d;
    Split(a * 64 + b, d);
    Split(a, b);
  }

  lemma FourDecode(bytes: seq<Byte>, c: char)
    requires |bytes| == 4 && DecodeChar(bytes) == Some(c)
    ensures bytes == EncodeChar(c)
  {
    var a: int, b: int, d: int, e: int :=
      bytes[0] as int - 0xF0, bytes[1] as int - 0x80, bytes[2] as int - 0x80, bytes[3] as int - 0x80;
    assert c as int == a * 262144 + b * 4096 + d * 64 + e;
    Split(a * 4096 + b * 64 + d, e);
    Split(a * 64 + b, d);
    Split(a, b);
  }

  lemma Split(high: int, low: int)
    requires 0 <= high && 0 <= low < 64
    ensures (high * 64 + low) / 64 == high && (high * 64 + low) % 64 == low
  {
  }

  // ----- percent-encoding

  function HexDigit(n: nat): char
    requires n < 16
  {
    if n < 10 then '0' + n as char else 'A' + (n - 10) as char
  }

  function HexValue(c: char): (r: Option<nat>)
    ensures r.Some? ==> r.value < 16
  {
    if '0' <= c <= '9' then Some((c - '0') as nat)
    else if 'A' <= c <= 'F' then Some(10 + (c - 'A') as nat)
    else if 'a' <= c <= 'f' then Some(10 + (c - 'a') as nat)
    else None
  }

  function Escape(b: Byte): (s: string)
    ensures |s| == 3
  {
    ['%', HexDigit(b / 16), HexDigit(b % 16)]
  }

  function EscapeAll(bytes: seq<Byte>): (s: string)
    ensures |s| == 3 * |bytes|
  {
    if bytes == [] then [] else Escape(bytes[0]) + EscapeAll(bytes[1..])
  }

  /** The octet escaped at the start of the string. */
  function Octet(s: string): Option<Byte> {
    if |s| < 3 || s[0] != '%' || HexValue(s[1]).None? || HexValue(s[2]).None? then None
    else Some(16 * HexValue(s[1]).value + HexValue(s[2]).value)
  }

  function Octets(s: string, n: nat): (r: Option<seq<Byte>>)
    ensures r.Some? ==> |r.value| == n && 3 * n <= |s|
  {
    if n == 0 then Some([])
    else
      var first := Octet(s);
      if first.None? then None
      else
        var rest := Octets(s[3..], n - 1);
        if rest.None? then None else Some([first.value] + rest.value)
  }

  function Prepend(c: char, s: Option<string>): Option<string> {
    if s.None? then None else Some([c] + s.value)
  }

  /** decodeURIComponent: None where it throws. */
  function DecodeUri(s: string): Option<string>
    decreases |s|
  {
    if s == [] then Some([])
    else if s[0] != '%' then Prepend(s[0], DecodeUri(s[1..]))
    else
      var lead := Octet(s);
      if lead.None? || SequenceLength(lead.value) == 0 then None
      else
        var n := SequenceLength(lead.value);
        var octets := Octets(s, n);
        if octets.None? || DecodeChar(octets.value).None? then None
        else Prepend(DecodeChar(octets.value).value, DecodeUri(s[3 * n..]))
  }

  lemma OctetReturns(b: Byte, rest: string)
    ensures Octet(Escape(b) + rest) == Some(b)
  {
  }

  lemma {:induction false} OctetsReturn(bytes: seq<Byte>, rest: string)
    ensures Octets(EscapeAll(bytes) + rest, |bytes|) == Some(bytes)
  {
    if bytes != [] {
      var tail := EscapeAll(bytes[1..]) + rest;
      assert EscapeAll(bytes) + rest == Escape(bytes[0]) + tail;
      OctetReturns(bytes[0], tail);
      assert (Escape(bytes[0]) + tail)[3..] == tail;
      OctetsReturn(bytes[1..], rest);
      assert bytes == [bytes[0]] + bytes[1..];
    }
  }

  /** An escaped character decodes to itself, whatever follows. */
  lemma EscapedCharReturns(c: char, rest: string)
    ensures DecodeUri(EscapeAll(EncodeChar(c)) + rest) == Prepend(c, DecodeUri(rest))
  {
    var bytes := EncodeChar(c);
    var s := EscapeAll(bytes) + rest;
    CharReturns(c);
    OctetsReturn(bytes, rest);
    assert s == Escape(bytes[0]) + (EscapeAll(bytes[1..]) + rest);
    OctetReturns(bytes[0], EscapeAll(bytes[1..]) + rest);
    assert s[3 * |bytes|..] == rest;
  }

  const UPPER := "0123456789ABCDEF"
  const LOWER := "0123456789abcdef"

  /** The hexadecimal digit for n, in either case. */
  predicate HexFor(c: char, n: nat)
    requires n < 16
  {
    c == UPPER[n] || c == LOWER[n]
  }

  lemma HexIsEitherCase(c: char, n: nat)
    requires n < 16
    ensures HexValue(c) == Some(n) <==> HexFor(c, n)
  {
  }

  /** An escape of the octet. */
  predicate EscapeOf(s: string, b: Byte) {
    |s| == 3 && s[0] == '%' && HexFor(s[1], b / 16) && HexFor(s[2], b % 16)
  }

  predicate EscapesOf(s: string, bytes: seq<Byte>)
    decreases bytes
  {
    if bytes == [] then s == []
    else |s| >= 3 && EscapeOf(s[..3], bytes[0]) && EscapesOf(s[3..], bytes[1..])
  }

  /** The text is written so: each character as itself, unless it is a percent sign, or as escapes of its octets. */
  predicate Writes(s: string, text: string)
    decreases text
  {
    if text == [] then s == []
    else if s == [] then false
    else if s[0] != '%' then s[0] == text[0] && Writes(s[1..], text[1..])
    else
      var n := 3 * |EncodeChar(text[0])|;
      n <= |s| && EscapesOf(s[..n], EncodeChar(text[0])) && Writes(s[n..], text[1..])
  }

  lemma OctetIs(s: string, b: Byte)
    requires |s| >= 3
    ensures Octet(s) == Some(b) <==> EscapeOf(s[..3], b)
  {
    HexIsEitherCase(s[1], b / 16);
    HexIsEitherCase(s[2], b % 16);
    OctetHas(s, b);
  }

  lemma OctetHas(s: string, b: Byte)
    requires |s| >= 3
    ensures Octet(s) == Some(b) <==> s[0] == '%' && HexValue(s[1]) == Some(b / 16) && HexValue(s[2]) == Some(b % 16)
  {
    if HexValue(s[1]).Some? && HexValue(s[2]).Some? {
      Nibbles(HexValue(s[1]).value, HexValue(s[2]).value);
    }
  }

  lemma Nibbles(high: nat, low: nat)
    requires low < 16
    ensures (16 * high + low) / 16 == high && (16 * high + low) % 16 == low
  {
  }

  lemma {:induction false} OctetsAre(s: string, bytes: seq<Byte>)
    ensures Octets(s, |bytes|) == Some(bytes) <==> 3 * |bytes| <= |s| && EscapesOf(s[..3 * |bytes|], bytes)
    decreases bytes
  {
    if bytes != [] && 3 * |bytes| <= |s| {
      var part := s[..3 * |bytes|];
      OctetIs(s, bytes[0]);
      OctetsAre(s[3..], bytes[1..]);
      assert part[..3] == s[..3];
      assert part[3..] == s[3..][..3 * |bytes[1..]|];
      assert bytes == [bytes[0]] + bytes[1..];
      FirstAndRest(s, bytes);
    }
  }

  lemma FirstAndRest(s: string, bytes: seq<Byte>)
    requires bytes != [] && |s| >= 3
    ensures Octets(s, |bytes|) == Some(bytes) <==>
            Octet(s) == Some(bytes[0]) && Octets(s[3..], |bytes| - 1) == Some(bytes[1..])
  {
    if Octets(s, |bytes|).Some? {
      var octets := Octets(s, |bytes|).value;
      assert octets == bytes ==> octets[0] == bytes[0] && octets[1..] == bytes[1..];
    }
    assert bytes == [bytes[0]] + bytes[1..];
  }

  /** A string decodes to a text exactly when it writes that text; any other makes the decoder throw. */
  lemma {:induction false} DecodesExactly(s: string, text: string)
    ensures DecodeUri(s) == Some(text) <==> Writes(s, text)
    decreases |s|
  {
    if s != [] && text != [] {
      if s[0] != '%' {
        DecodesExactly(s[1..], text[1..]);
        Prepended(s[0], DecodeUri(s[1..]), text);
      } else {
        EscapedDecodes(s, text);
        var n := 3 * |EncodeChar(text[0])|;
        if n <= |s| {
          DecodesExactly(s[n..], text[1..]);
        }
      }
    }
  }

  lemma Prepended(c: char, rest: Option<string>, text: string)
    requires text != []
    ensures Prepend(c, rest) == Some(text) <==> c == text[0] && rest == Some(text[1..])
  {
    assert text == [text[0]] + text[1..];
    if rest.Some? {
      assert ([c] + rest.value)[1..] == rest.value;
    }
  }

  lemma EscapedDecodes(s: string, text: string)
    requires s != [] && s[0] == '%' && text != []
    ensures var bytes := EncodeChar(text[0]);
            DecodeUri(s) == Some(text) <==>
            && 3 * |bytes| <= |s| && EscapesOf(s[..3 * |bytes|], bytes)
            && DecodeUri(s[3 * |bytes|..]) == Some(text[1..])
  {
    var bytes := EncodeChar(text[0]);
    CharReturns(text[0]);
    OctetsAre(s, bytes);
    if Octets(s, |bytes|) == Some(bytes) {
      FirstAndRest(s, bytes);
      Prepended(text[0], DecodeUri(s[3 * |bytes|..]), text);
    } else if DecodeUri(s) == Some(text) {
      var octets := Octets(s, SequenceLength(Octet(s).value)).value;
      Prepended(DecodeChar(octets).value, DecodeUri(s[3 * |octets|..]), text);
      OnlyEncodingsDecode(octets, text[0]);
      assert false;
    }
  }

  // ----- form encoding

  /** Which characters an encoder may leave as they are. */
  ghost predicate Encoder(keep: char -> bool) {
    forall c :: keep(c) ==> c as nat < 0x80 && c != '%' && c != '+' && c != ':' && c != ' '
  }

  function EncodeOne(c: char, keep: char -> bool): string {
    if keep(c) then [c] else if c == ' ' then "+" else EscapeAll(EncodeChar(c))
  }

  function FormEncode(s: string, keep: char -> bool): string {
    if s == [] then [] else EncodeOne(s[0], keep) + FormEncode(s[1..], keep)
  }

  /** v.replaceAll('+', ' '). */
  function PlusToSpace(s: string): (r: string)
    ensures |r| == |s| && forall i :: 0 <= i < |s| ==> r[i] == if s[i] == '+' then ' ' else s[i]
  {
    seq(|s|, i requires 0 <= i < |s| => if s[i] == '+' then ' ' else s[i])
  }

  function FormDecode(s: string): Option<string> {
    DecodeUri(PlusToSpace(s))
  }

  /** What an encoder puts out is ASCII without a colon. */
  predicate Safe(s: string) {
    forall i :: 0 <= i < |s| ==> s[i] as nat < 0x80 && s[i] != ':'
  }

  predicate Escaped(s: string) {
    Safe(s) && '+' !in s
  }

  lemma {:induction false} EscapesAreSafe(bytes: seq<Byte>)
    ensures Escaped(EscapeAll(bytes))
  {
    if bytes != [] {
      EscapesAreSafe(bytes[1..]);
      assert Escaped(Escape(bytes[0]));
    }
  }

  lemma {:induction false} FormIsSafe(s: string, keep: char -> bool)
    requires Encoder(keep)
    ensures Safe(FormEncode(s, keep))
  {
    if s != [] {
      FormIsSafe(s[1..], keep);
      EscapesAreSafe(EncodeChar(s[0]));
    }
  }

  lemma OneReturns(c: char, keep: char -> bool, rest: string)
    requires Encoder(keep)
    ensures DecodeUri(PlusToSpace(EncodeOne(c, keep)) + rest) == Prepend(c, DecodeUri(rest))
  {
    var one := PlusToSpace(EncodeOne(c, keep));
    if keep(c) || c == ' ' {
      assert one == [c];
      assert ([c] + rest)[1..] == rest;
    } else {
      EscapesAreSafe(EncodeChar(c));
      assert one == EscapeAll(EncodeChar(c));
      EscapedCharReturns(c, rest);
    }
  }

  lemma {:induction false} FormReturns(s: string, keep: char -> bool)
    requires Encoder(keep)
    ensures FormDecode(FormEncode(s, keep)) == Some(s)
  {
    if s != [] {
      var one, rest := EncodeOne(s[0], keep), FormEncode(s[1..], keep);
      assert PlusToSpace(one + rest) == PlusToSpace(one) + PlusToSpace(rest);
      OneReturns(s[0], keep, PlusToSpace(rest));
      FormReturns(s[1..], keep);
      assert s == [s[0]] + s[1..];
    }
  }

  // ----- base64

  function Symbol(v: nat): char {
    if v < 26 then 'A' + v as char
    else if v < 52 then 'a' + (v - 26) as char
    else if v < 62 then '0' + (v - 52) as char
    else if v == 62 then '+' else if v == 63 then '/' else '='
  }

  function Value(c: char): Option<nat> {
    if 'A' <= c <= 'Z' then Some((c - 'A') as nat)
    else if 'a' <= c <= 'z' then Some(26 + (c - 'a') as nat)
    else if '0' <= c <= '9' then Some(52 + (c - '0') as nat)
    else if c == '+' then Some(62) else if c == '/' then Some(63) else None
  }

  const SYMBOLS := Alphabet(Symbol, Value)

  lemma SymbolsOk()
    ensures Inverse(SYMBOLS, Pow2(6))
  {
  }

  /** The alphabet of section 4 of RFC 4648. */
  lemma SymbolsAreTheStandards(v: nat)
    requires v < 64
    ensures Symbol(v) == if v < 26 then "ABCDEFGHIJKLMNOPQRSTUVWXYZ"[v]
                         else if v < 52 then "abcdefghijklmnopqrstuvwxyz"[v - 26]
                         else "0123456789+/"[v - 52]
  {
  }

  function EncodeBase64(bytes: seq<Byte>): string {
    Padded(Spell(Encode(bytes, 6), SYMBOLS), 4)
  }

  predicate AsciiSpace(c: char) {
    c == ' ' || c == '\t' || c == '\n' || c == '\r' || c == 12 as char
  }

  function WithoutSpaces(s: string): string {
    if s == [] then [] else
      WithoutSpaces(s[..|s| - 1]) + if AsciiSpace(s[|s| - 1]) then [] else [s[|s| - 1]]
  }

  /** At most two padding characters, and only where they complete a unit of four. */
  function WithoutPads(s: string): string {
    var n := |s|;
    if n % 4 != 0 || n == 0 || s[n - 1] != '=' then s
    else if s[n - 2] == '=' then s[..n - 2]
    else s[..n - 1]
  }

  /** atob, with its result as bytes: None where it throws. */
  function Atob(s: string): Option<seq<Byte>> {
    var core := WithoutPads(WithoutSpaces(s));
    if |core| % 4 == 1 then None
    else
      var groups := Unspell(core, SYMBOLS);
      if groups.None? then None else Some(Decode(groups.value, 6))
  }

  lemma {:induction false} BitsLength(bytes: seq<Byte>)
    ensures |BytesToBits(bytes)| == 8 * |bytes|
  {
    if bytes != [] {
      BitsLength(bytes[1..]);
    }
  }

  lemma {:induction false} GroupsLength(bits: BitString)
    ensures |bits| <= 6 * |Groups(bits, 6)| < |bits| + 6
    decreases |bits|
  {
    if |bits| > 6 {
      GroupsLength(bits[6..]);
    }
  }

  /** Base64 never leaves a single symbol over. */
  lemma NoLoneSymbol(bytes: seq<Byte>)
    ensures |Encode(bytes, 6)| % 4 != 1
  {
    BitsLength(bytes);
    GroupsLength(BytesToBits(bytes));
  }

  lemma {:induction false} NoSpaces(s: string)
    requires forall i :: 0 <= i < |s| ==> !AsciiSpace(s[i])
    ensures WithoutSpaces(s) == s
  {
    if s != [] {
      NoSpaces(s[..|s| - 1]);
    }
  }

  lemma PadsComeOff(s: string)
    requires '=' !in s && |s| % 4 != 1
    ensures WithoutPads(Padded(s, 4)) == s
  {
  }

  /** SYMBOLS and padding: no white space, and printable ASCII throughout. */
  predicate Base64Text(s: string) {
    forall i :: 0 <= i < |s| ==> Value(s[i]).Some? || s[i] == '='
  }

  lemma EncodedIsText(bytes: seq<Byte>)
    ensures Base64Text(EncodeBase64(bytes)) && (bytes != [] ==> EncodeBase64(bytes) != [])
  {
  }

  lemma AtobInverts(bytes: seq<Byte>)
    ensures Atob(EncodeBase64(bytes)) == Some(bytes)
  {
    SymbolsOk();
    var groups := Encode(bytes, 6);
    var s := Spell(groups, SYMBOLS);
    UnspellInverts(groups, Pow2(6), SYMBOLS);
    EncodedIsText(bytes);
    NoSpaces(EncodeBase64(bytes));
    NoLoneSymbol(bytes);
    PadsComeOff(s);
    DecodeInverts(bytes, 6);
  }

  // ----- the header

  function Lower(c: char): char {
    if 'A' <= c <= 'Z' then (c - 'A') + 'a' else c
  }

  function LowerAll(s: string): (r: string)
    ensures |r| == |s|
  {
    seq(|s|, i requires 0 <= i < |s| => Lower(s[i]))
  }

  /** What \s matches. */
  predicate Space(c: char) {
    var n := c as nat;
    || AsciiSpace(c) || n == 11 || LineEnd(c)
    || n == 0xA0 || n == 0x1680 || 0x2000 <= n <= 0x200A || n == 0x202F || n == 0x205F || n == 0x3000 || n == 0xFEFF
  }

  /** What . does not match. */
  predicate LineEnd(c: char) {
    c == '\n' || c == '\r' || c == 0x2028 as char || c == 0x2029 as char
  }

  function AfterSpaces(s: string): string {
    if s != [] && Space(s[0]) then AfterSpaces(s[1..]) else s
  }

  /** The part after the scheme: None unless the header is a Basic one. */
  function BasicPart(header: string): Option<string> {
    if |header| < 5 || LowerAll(header[..5]) != "basic" then None
    else if |header| == 5 then Some([])
    else if !Space(header[5]) then None
    else
      var part := AfterSpaces(header[5..]);
      if exists i :: 0 <= i < |part| && LineEnd(part[i]) then None else Some(part)
  }

  datatype Basic = NotBasic | InvalidClient | Credentials(id: string, secret: string)

  function Latin1(bytes: seq<Byte>): (s: string)
    ensures |s| == |bytes|
  {
    seq(|bytes|, i requires 0 <= i < |bytes| => bytes[i] as char)
  }

  function IndexOfColon(s: string): (i: nat)
    ensures i <= |s| && (i < |s| ==> s[i] == ':') && forall j :: 0 <= j < i ==> s[j] != ':'
  {
    if s == [] || s[0] == ':' then 0 else
      var i := IndexOfColon(s[1..]);
      assert forall j :: 1 <= j < 1 + i ==> s[j] == s[1..][j - 1];
      1 + i
  }

  function BasicCredentials(header: Option<string>): Basic {
    var part := BasicPart(header.GetOr([]));
    if part.None? then NotBasic
    else
      var bytes := Atob(part.value);
      if bytes.None? then InvalidClient
      else
        var pair := Latin1(bytes.value);
        var colon := IndexOfColon(pair);
        if colon == |pair| then InvalidClient
        else
          var id, secret := FormDecode(pair[..colon]), FormDecode(pair[colon + 1..]);
          if id.None? || secret.None? then InvalidClient else Credentials(id.value, secret.value)
  }

  lemma {:induction false} SpacesComeOff(gap: string, part: string)
    requires (forall i :: 0 <= i < |gap| ==> Space(gap[i])) && (part != [] ==> !Space(part[0]))
    ensures AfterSpaces(gap + part) == part
    decreases gap
  {
    if gap == [] {
      assert gap + part == part;
    } else {
      assert (gap + part)[1..] == gap[1..] + part;
      SpacesComeOff(gap[1..], part);
    }
  }

  lemma {:induction false} SpacesEnd(s: string) returns (k: nat)
    ensures k <= |s| && AfterSpaces(s) == s[k..] && (forall i :: 0 <= i < k ==> Space(s[i]))
    ensures k < |s| ==> !Space(s[k])
  {
    if s != [] && Space(s[0]) {
      k := SpacesEnd(s[1..]);
      assert forall i :: 1 <= i < k + 1 ==> s[i] == s[1..][i - 1];
      k := k + 1;
    } else {
      k := 0;
    }
  }

  predicate EitherCase(c: char, lower: char, upper: char) {
    c == lower || c == upper
  }

  /** The scheme in any case. */
  predicate Basically(s: string)
    requires |s| == 5
  {
    && EitherCase(s[0], 'b', 'B') && EitherCase(s[1], 'a', 'A') && EitherCase(s[2], 's', 'S')
    && EitherCase(s[3], 'i', 'I') && EitherCase(s[4], 'c', 'C')
  }

  lemma SchemeIs(s: string)
    requires |s| == 5
    ensures LowerAll(s) == "basic" <==> Basically(s)
  {
    var low := LowerAll(s);
    assert low == [Lower(s[0]), Lower(s[1]), Lower(s[2]), Lower(s[3]), Lower(s[4])];
    assert low == "basic" <==>
      low[0] == 'b' && low[1] == 'a' && low[2] == 's' && low[3] == 'i' && low[4] == 'c';
  }

  /** The header splits after the scheme and the white space before the credentials, which hold no line end. */
  predicate SplitsAt(header: string, k: nat, part: string) {
    && 5 < k <= |header| && (forall i :: 5 <= i < k ==> Space(header[i])) && part == header[k..]
    && (part != [] ==> !Space(part[0])) && forall i :: 0 <= i < |part| ==> !LineEnd(part[i])
  }

  lemma SplitIs(header: string, k: nat, part: string)
    requires SplitsAt(header, k, part)
    ensures Space(header[5]) && AfterSpaces(header[5..]) == part
  {
    assert header[5..] == header[5..k] + part;
    SpacesComeOff(header[5..k], part);
  }

  /** Exactly the headers of a Basic scheme, in any case, have a part for the credentials. */
  lemma PartIs(header: string, part: string)
    ensures BasicPart(header) == Some(part) <==>
            && |header| >= 5
            && Basically(header[..5])
            && if |header| == 5 then part == [] else exists k :: SplitsAt(header, k, part)
  {
    if |header| >= 5 {
      SchemeIs(header[..5]);
    }
    if |header| > 5 {
      var rest := header[5..];
      var k := SpacesEnd(rest);
      assert header[5 + k..] == rest[k..] && forall i :: 5 <= i < 5 + k ==> header[i] == rest[i - 5];
      if BasicPart(header) == Some(part) {
        assert SplitsAt(header, 5 + k, part);
      }
      if k' :| SplitsAt(header, k', part) {
        SplitIs(header, k', part);
      }
    }
  }

  // ----- what a client sends

  function AsciiBytes(s: string): (bytes: seq<Byte>)
    requires Ascii(s)
    ensures |bytes| == |s| && forall i :: 0 <= i < |s| ==> bytes[i] == s[i] as nat
  {
    seq(|s|, i requires 0 <= i < |s| => s[i] as nat)
  }

  function Pair(id: string, secret: string, keep: char -> bool): string {
    FormEncode(id, keep) + ":" + FormEncode(secret, keep)
  }

  /** The header of a client: the scheme in any case, white space, the encoded pair. */
  function ClientHeader(scheme: string, gap: string, id: string, secret: string, keep: char -> bool): string
    requires Ascii(Pair(id, secret, keep))
  {
    scheme + gap + EncodeBase64(AsciiBytes(Pair(id, secret, keep)))
  }

  predicate Ascii(s: string) {
    forall i :: 0 <= i < |s| ==> s[i] as nat < 0x80
  }

  predicate Gap(s: string) {
    s != [] && forall i :: 0 <= i < |s| ==> Space(s[i])
  }

  lemma PartReturns(scheme: string, gap: string, part: string)
    requires LowerAll(scheme) == "basic" && Gap(gap) && Base64Text(part) && part != []
    ensures BasicPart(scheme + gap + part) == Some(part)
  {
    var header := scheme + gap + part;
    assert |scheme| == 5 && header[..5] == scheme && header[5..] == gap + part;
    SpacesComeOff(gap, part);
  }

  lemma PairSplits(id: string, secret: string, keep: char -> bool)
    requires Encoder(keep)
    ensures var pair := Pair(id, secret, keep);
            && Ascii(pair) && IndexOfColon(pair) == |FormEncode(id, keep)|
            && pair[..IndexOfColon(pair)] == FormEncode(id, keep)
            && pair[IndexOfColon(pair) + 1..] == FormEncode(secret, keep)
  {
    FormIsSafe(id, keep);
    FormIsSafe(secret, keep);
    var pair := Pair(id, secret, keep);
    var n := |FormEncode(id, keep)|;
    assert pair[..n] == FormEncode(id, keep) && pair[n] == ':';
    assert forall j :: 0 <= j < n ==> pair[j] != ':';
  }

  /**
    For every id and secret, whatever characters they hold and whichever harmless ones the
    client's encoder leaves alone, the header decodes to exactly that pair.
   */
  lemma BasicCredentialsInvert(scheme: string, gap: string, id: string, secret: string, keep: char -> bool)
    requires Encoder(keep) && LowerAll(scheme) == "basic" && Gap(gap)
    ensures Ascii(Pair(id, secret, keep))
    ensures BasicCredentials(Some(ClientHeader(scheme, gap, id, secret, keep))) == Credentials(id, secret)
  {
    PairSplits(id, secret, keep);
    var pair := Pair(id, secret, keep);
    var bytes := AsciiBytes(pair);
    EncodedIsText(bytes);
    PartReturns(scheme, gap, EncodeBase64(bytes));
    AtobInverts(bytes);
    assert Latin1(bytes) == pair;
    FormReturns(id, keep);
    FormReturns(secret, keep);
  }
}
