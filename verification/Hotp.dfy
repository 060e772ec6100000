/** One-time passwords: dynamic truncation, the digits, the drift window and the comparison. */
module Hotp {
  import opened Base
  import opened Bits

  /** HMAC-SHA-1 yields 20 bytes; what they are is the hash function's business. */
  type Mac = m: seq<Byte> | |m| == 20 witness seq(20, i => 0)

  type Hmac = seq<Byte> -> Mac

  // ----- dynamic truncation

  /** The 31-bit big-endian number of section 5.3 of RFC 4226: four bytes without the top bit. */
  function Number31(a: Byte, b: Byte, c: Byte, d: Byte): (n: nat)
    ensures n < 0x8000_0000
  {
    a % 0x80 * 0x100_0000 + b * 0x1_0000 + c * 0x100 + d
  }

  function Offset(mac: Mac): int {
    And32(mac[19], 0x0f)
  }

  /** The offset is the low nibble of the last byte, so the four bytes exist. */
  lemma OffsetInRange(mac: Mac)
    ensures Offset(mac) == mac[19] % 16 && 0 <= Offset(mac) && Offset(mac) + 3 < |mac|
  {
    assert Pow2(4) == 16;
    MaskIsRemainder(mac[19], 4);
    And32Is(mac[19], 0x0f, mac[19] % 16);
  }

  /** The masks, shifts and ors as the code writes them. */
  function Truncated(mac: Mac): int {
    OffsetInRange(mac);
    var off := Offset(mac);
    Or32(Or32(Or32(Shl32(And32(mac[off], 0x7f), 24), Shl32(mac[off + 1], 16)), Shl32(mac[off + 2], 8)), mac[off + 3])
  }

  lemma Powers()
    ensures Pow2(7) == 0x80 && Pow2(8) == 0x100 && Pow2(16) == 0x1_0000 && Pow2(24) == 0x100_0000
  {
  }

  /** The shifted bytes and the masked one, none of which reaches the sign bit. */
  lemma Parts(a: Byte, b: Byte, c: Byte)
    ensures Shl32(And32(a, 0x7f), 24) == a % 0x80 * 0x100_0000
    ensures Shl32(b, 16) == b * 0x1_0000 && Shl32(c, 8) == c * 0x100
  {
    Powers();
    MaskIsRemainder(a, 7);
    And32Is(a, 0x7f, a % 0x80);
    Shl32Is(a % 0x80, 24);
    Shl32Is(b, 16);
    Shl32Is(c, 8);
  }

  lemma OnePart(x: nat, p: nat, y: nat, n: nat)
    requires p == Pow2(n) && y < p && x * p + y < HALF
    ensures Or32(x * p, y) == x * p + y
  {
    Or32OfParts(x, y, n);
  }

  lemma TwoJoined(a: nat, b: nat)
    requires a < 0x80 && b < 0x100
    ensures Or32(a * 0x100_0000, b * 0x1_0000) == (a * 0x100 + b) * 0x1_0000
  {
    Powers();
    OnePart(a, 0x100_0000, b * 0x1_0000, 24);
  }

  lemma OneMoreJoined(x: nat, c: nat)
    requires x < 0x8000 && c < 0x100
    ensures Or32(x * 0x1_0000, c * 0x100) == (x * 0x100 + c) * 0x100
  {
    Powers();
    OnePart(x, 0x1_0000, c * 0x100, 16);
  }

  lemma LastJoined(x: nat, d: nat)
    requires x < 0x80_0000 && d < 0x100
    ensures Or32(x * 0x100, d) == x * 0x100 + d
  {
    Powers();
    OnePart(x, 0x100, d, 8);
  }

  /** Joining four parts, highest first. */
  lemma Joined(a: nat, b: nat, c: nat, d: nat)
    requires a < 0x80 && b < 0x100 && c < 0x100 && d < 0x100
    ensures Or32(Or32(Or32(a * 0x100_0000, b * 0x1_0000), c * 0x100), d) ==
              a * 0x100_0000 + b * 0x1_0000 + c * 0x100 + d
  {
    TwoJoined(a, b);
    OneMoreJoined(a * 0x100 + b, c);
    LastJoined((a * 0x100 + b) * 0x100 + c, d);
  }

  /** For every MAC the operators compute the standard's number: no index out of range, nothing wraps. */
  lemma TruncationIsTheStandards(mac: Mac)
    ensures var off := mac[19] % 16; Truncated(mac) == Number31(mac[off], mac[off + 1], mac[off + 2], mac[off + 3])
  {
    OffsetInRange(mac);
    var off := Offset(mac);
    Parts(mac[off], mac[off + 1], mac[off + 2]);
    Joined(mac[off] % 0x80, mac[off + 1], mac[off + 2], mac[off + 3]);
  }

  // ----- digits

  function Pow10(k: nat): (p: nat)
    ensures p > 0
  {
    if k == 0 then 1 else 10 * Pow10(k - 1)
  }

  predicate IsDigit(c: char) {
    '0' <= c <= '9'
  }

  predicate AllDigits(s: string) {
    forall i :: 0 <= i < |s| ==> IsDigit(s[i])
  }

  function Digit(n: nat): (c: char)
    requires n < 10
    ensures IsDigit(c)
  {
    '0' + n as char
  }

  /** String(n). */
  function Decimal(n: nat): (s: string)
    ensures |s| > 0 && AllDigits(s)
  {
    if n < 10 then [Digit(n)] else Decimal(n / 10) + [Digit(n % 10)]
  }

  function Zeros(k: nat): (s: string)
    ensures |s| == k && AllDigits(s)
  {
    seq(k, i => '0')
  }

  /** s.padStart(width, '0'). */
  function PadStart(s: string, width: nat): string {
    if |s| >= width then s else Zeros(width - |s|) + s
  }

  /** The number a string of digits spells. */
  function Parse(s: string): nat
    requires AllDigits(s)
  {
    if s == [] then 0 else 10 * Parse(s[..|s| - 1]) + (s[|s| - 1] - '0') as nat
  }

  lemma {:induction false} DecimalParses(n: nat)
    ensures Parse(Decimal(n)) == n
  {
    if n >= 10 {
      DecimalParses(n / 10);
      assert Decimal(n)[..|Decimal(n)| - 1] == Decimal(n / 10);
    }
  }

  lemma {:induction false} DecimalLength(n: nat, k: nat)
    requires k > 0 && n < Pow10(k)
    ensures |Decimal(n)| <= k
  {
    if n >= 10 {
      assert k > 1 by {
        assert Pow10(1) == 10;
      }
      DecimalLength(n / 10, k - 1);
    }
  }

  lemma {:induction false} LeadingZeros(k: nat, s: string)
    requires AllDigits(s)
    ensures Parse(Zeros(k) + s) == Parse(s)
    decreases k + |s|
  {
    if s == [] {
      assert Zeros(k) + s == Zeros(k);
      if k > 0 {
        assert Zeros(k)[..k - 1] == Zeros(k - 1) + [];
        LeadingZeros(k - 1, s);
        assert Zeros(k - 1) + s == Zeros(k - 1);
      }
    } else {
      var init := s[..|s| - 1];
      assert (Zeros(k) + s)[..k + |s| - 1] == Zeros(k) + init;
      LeadingZeros(k, init);
    }
  }

  /** Strings of digits of one length that spell the same number are the same string. */
  lemma {:induction false} SpelledOnce(s: string, t: string)
    requires AllDigits(s) && AllDigits(t) && |s| == |t| && Parse(s) == Parse(t)
    ensures s == t
  {
    if s != [] {
      var n := |s| - 1;
      var a, b := (s[n] - '0') as nat, (t[n] - '0') as nat;
      assert 10 * Parse(s[..n]) + a == 10 * Parse(t[..n]) + b && a < 10 && b < 10;
      SpelledOnce(s[..n], t[..n]);
      assert s == s[..n] + [s[n]] && t == t[..n] + [t[n]];
    }
  }

  // ----- the code

  function BigEndian(n: nat, width: nat): (bytes: seq<Byte>)
    ensures |bytes| == width
  {
    if width == 0 then [] else BigEndian(n / 256, width - 1) + [n % 256]
  }

  /** The counter as setBigUint64 stores it: modulo 2^64, so a step before the epoch wraps. */
  function Message(counter: int): seq<Byte> {
    BigEndian(counter % 0x1_0000_0000_0000_0000, 8)
  }

  function FourBytes(bytes: seq<Byte>): int
    requires |bytes| == 4
  {
    var a: int, b: int, c: int, d: int := bytes[0], bytes[1], bytes[2], bytes[3];
    a * 0x100_0000 + b * 0x1_0000 + c * 0x100 + d
  }

  /** The eight bytes, the highest first, make up the counter. */
  lemma MessageIsBigEndian(counter: int)
    ensures var m := Message(counter);
            FourBytes(m[..4]) * 0x1_0000_0000 + FourBytes(m[4..]) == counter % 0x1_0000_0000_0000_0000
  {
    var n := counter % 0x1_0000_0000_0000_0000;
    LastFour(n, 8);
    LastFour(n / 0x1_0000_0000, 4);
    assert BigEndian(n / 0x1_0000_0000, 4)[0..] == BigEndian(n / 0x1_0000_0000, 4);
  }

  lemma LastFour(n: nat, width: nat)
    requires width >= 4
    ensures var bytes := BigEndian(n, width);
            && bytes[..width - 4] == BigEndian(n / 0x1_0000_0000, width - 4)
            && n == n / 0x1_0000_0000 * 0x1_0000_0000 + FourBytes(bytes[width - 4..])
  {
    LastByte(n, width);
    LastByte(n / 256, width - 1);
    LastByte(n / 256 / 256, width - 2);
    LastByte(n / 256 / 256 / 256, width - 3);
  }

  lemma LastByte(n: nat, width: nat)
    requires width > 0
    ensures var bytes := BigEndian(n, width);
            bytes[..width - 1] == BigEndian(n / 256, width - 1) && n == n / 256 * 256 + bytes[width - 1]
  {
  }

  function Code(hmac: Hmac, counter: int, digits: nat): string {
    var bin := Truncated(hmac(Message(counter)));
    TruncationIsTheStandards(hmac(Message(counter)));
    PadStart(Decimal(bin % Pow10(digits)), digits)
  }

  /** The number the standard assigns to a counter. */
  function StandardNumber(hmac: Hmac, counter: int): nat {
    var mac := hmac(Message(counter));
    var off := mac[19] % 16;
    Number31(mac[off], mac[off + 1], mac[off + 2], mac[off + 3])
  }

  /** The code has exactly `digits` digits and spells the standard's number modulo 10^digits. */
  lemma CodeSpellsTheNumber(hmac: Hmac, counter: int, digits: nat)
    requires digits > 0
    ensures var code := Code(hmac, counter, digits);
            |code| == digits && AllDigits(code) && Parse(code) == StandardNumber(hmac, counter) % Pow10(digits)
  {
    TruncationIsTheStandards(hmac(Message(counter)));
    var n := StandardNumber(hmac, counter);
    Reduced(n, Pow10(digits));
    PaddedSpells(n % Pow10(digits), digits);
  }

  lemma Reduced(n: nat, m: nat)
    requires m > 0
    ensures 0 <= n % m < m
  {
  }

  lemma PaddedSpells(n: nat, digits: nat)
    requires digits > 0 && n < Pow10(digits)
    ensures var code := PadStart(Decimal(n), digits); |code| == digits && AllDigits(code) && Parse(code) == n
  {
    DecimalLength(n, digits);
    DecimalParses(n);
    LeadingZeros(digits - |Decimal(n)|, Decimal(n));
    if |Decimal(n)| == digits {
      assert Zeros(0) + Decimal(n) == Decimal(n);
    }
  }

  // ----- comparing and matching

  /** Looks at every character whatever it finds, and still decides equality. */
  method TimingSafeEqual(a: string, b: string) returns (equal: bool)
    ensures equal <==> a == b
  {
    if |a| != |b| {
      return false;
    }
    var diff := 0;
    for i := 0 to |a|
      invariant 0 <= diff < Pow2(21) && (diff == 0 <==> a[..i] == b[..i])
    {
      DiffStep(diff, a[i] as int, b[i] as int);
      PrefixStep(a, b, i);
      diff := Or32(diff, Xor32(a[i] as int, b[i] as int));
    }
    assert a[..|a|] == a && b[..|b|] == b;
    return diff == 0;
  }

  lemma PrefixStep(a: string, b: string, i: nat)
    requires i < |a| && i < |b|
    ensures a[..i + 1] == b[..i + 1] <==> a[..i] == b[..i] && a[i] as int == b[i] as int
  {
  }

  lemma DiffStep(diff: nat, x: nat, y: nat)
    requires diff < Pow2(21) && x < 0x11_0000 && y < 0x11_0000
    ensures var d := Or32(diff, Xor32(x, y)); 0 <= d < Pow2(21) && (d == 0 <==> diff == 0 && x == y)
  {
    assert Pow2(21) == 0x20_0000 by {
      Powers();
    }
    XorFits(x, y, 21);
    XorIsZero(x, y);
    Xor32Is(x, y, Xor(x, y));
    OrFits(diff, Xor(x, y), 21);
    OrIsZero(diff, Xor(x, y));
    Or32Is(diff, Xor(x, y), Or(diff, Xor(x, y)));
  }

  const DIGITS := 6

  predicate SixDigits(code: string) {
    |code| == DIGITS && AllDigits(code)
  }

  /** The code spells the standard's number for the counter, modulo a million. */
  predicate Matches(hmac: Hmac, counter: int, code: string) {
    SixDigits(code) && Parse(code) == StandardNumber(hmac, counter) % 1000000
  }

  lemma MatchesIsEquality(hmac: Hmac, counter: int, code: string)
    requires SixDigits(code)
    ensures Code(hmac, counter, DIGITS) == code <==> Matches(hmac, counter, code)
  {
    CodeSpellsTheNumber(hmac, counter, DIGITS);
    assert Pow10(DIGITS) == 1000000 by {
      assert Pow10(3) == 1000;
    }
    if Matches(hmac, counter, code) {
      SpelledOnce(Code(hmac, counter, DIGITS), code);
    }
  }

  method CodeIs(hmac: Hmac, counter: int, code: string) returns (equal: bool)
    requires SixDigits(code)
    ensures equal <==> Matches(hmac, counter, code)
  {
    MatchesIsEquality(hmac, counter, code);
    equal := TimingSafeEqual(Code(hmac, counter, DIGITS), code);
  }

  /** The earliest step within one step of drift that the code belongs to, if there is one. */
  method MatchStep(hmac: Hmac, code: string, step: int) returns (found: Option<int>)
    ensures found.Some? ==>
              && step - 1 <= found.value <= step + 1 && Matches(hmac, found.value, code)
              && forall s :: step - 1 <= s < found.value ==> !Matches(hmac, s, code)
    ensures found.None? ==> forall s :: step - 1 <= s <= step + 1 ==> !Matches(hmac, s, code)
  {
    if !SixDigits(code) {
      return None;
    }
    var steps := [step - 1, step, step + 1];
    for i := 0 to |steps|
      invariant forall s :: step - 1 <= s < step - 1 + i ==> !Matches(hmac, s, code)
    {
      var equal := CodeIs(hmac, steps[i], code);
      if equal {
        return Some(steps[i]);
      }
    }
    return None;
  }
}
