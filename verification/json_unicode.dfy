/**
 The `\u` escapes of a JSON string: reading four hexadecimal digits, joining surrogate pairs,
 and emitting UTF-8.  The bit operations of the source act on disjoint bits, so they appear
 here as division, remainder and addition; that these are the same is proved at the end.
 */
module JsonUnicode {
  import opened JsonBits

  predicate IsHex(c: char) {
    '0' <= c <= '9' || 'A' <= c <= 'F' || 'a' <= c <= 'f'
  }

  function HexValue(c: char): (v: nat)
    requires IsHex(c)
    ensures v < 16
  {
    if c <= '9' then c as int - '0' as int
    else if c <= 'F' then c as int - 'A' as int + 10
    else c as int - 'a' as int + 10
  }

  predicate IsHex4(h: string) {
    |h| == 4 && IsHex(h[0]) && IsHex(h[1]) && IsHex(h[2]) && IsHex(h[3])
  }

  function Hex4(h: string): (u: nat)
    requires IsHex4(h)
    ensures u < 0x10000
  {
    ((HexValue(h[0]) * 16 + HexValue(h[1])) * 16 + HexValue(h[2])) * 16 + HexValue(h[3])
  }

  predicate IsHigh(u: nat) { 0xD800 <= u <= 0xDBFF }

  predicate IsLow(u: nat) { 0xDC00 <= u <= 0xDFFF }

  // What the parser computes from a high and a low surrogate.
  function Join(high: nat, low: nat): (u: nat)
    requires IsHigh(high) && IsLow(low)
    ensures 0x10000 <= u <= 0x10FFFF
  {
    (high - 0xD800) * 0x400 + (low - 0xDC00) + 0x10000
  }

  // The UTF-16 encoder of section 2.1 of RFC 2781 for a code point beyond the basic plane.
  function Split(u: nat): (pair: (nat, nat))
    requires 0x10000 <= u <= 0x10FFFF
    ensures IsHigh(pair.0) && IsLow(pair.1)
  {
    (0xD800 + (u - 0x10000) / 0x400, 0xDC00 + (u - 0x10000) % 0x400)
  }

  // Joining and splitting are inverse to each other: the pairs and the code points from
  // 0x10000 to 0x10FFFF correspond one to one.
  lemma JoinIsABijection(high: nat, low: nat, u: nat)
    requires IsHigh(high) && IsLow(low) && 0x10000 <= u <= 0x10FFFF
    ensures Split(Join(high, low)) == (high, low)
    ensures Join(Split(u).0, Split(u).1) == u
  {
    var h, l := high - 0xD800, low - 0xDC00;
    assert (h * 0x400 + l) / 0x400 == h && (h * 0x400 + l) % 0x400 == l;
  }

  function Byte(n: nat): char
    requires n < 256
  {
    n as char
  }

  function Tail(n: nat): char { Byte(0x80 + n % 0x40) }

  // The bytes the parser emits.  The bounds 0x7F and 0xFF are the source's own.
  function Encode(u: nat): (bytes: string)
    requires u <= 0x10FFFF
    ensures 1 <= |bytes| <= 4
    ensures |bytes| == 4 ==> u > 0xFFFF
  {
    if u < 0x7F then [Byte(u)]
    else if u <= 0xFF then [Byte(0xC0 + u / 0x40), Tail(u)]
    else if u <= 0xFFFF then [Byte(0xE0 + u / 0x1000), Tail(u / 0x40), Tail(u)]
    else [Byte(0xF0 + u / 0x40000), Tail(u / 0x1000), Tail(u / 0x40), Tail(u)]
  }

  // The encoder of section 3 of RFC 3629.
  function Utf8(u: nat): string
    requires u <= 0x10FFFF
  {
    if u <= 0x7F then [u as char]
    else if u <= 0x7FF then [(0xC0 + u / 0x40) as char, (0x80 + u % 0x40) as char]
    else if u <= 0xFFFF then
      [(0xE0 + u / 0x1000) as char, (0x80 + u / 0x40 % 0x40) as char, (0x80 + u % 0x40) as char]
    else
      [(0xF0 + u / 0x40000) as char, (0x80 + u / 0x1000 % 0x40) as char, (0x80 + u / 0x40 % 0x40) as char,
       (0x80 + u % 0x40) as char]
  }

  // The parser emits proper UTF-8 exactly outside DEL and the range 0x100 to 0x7FF, where it
  // uses one byte too many.
  lemma EncodeIsUtf8Iff(u: nat)
    requires u <= 0x10FFFF
    ensures Encode(u) == Utf8(u) <==> u != 0x7F && !(0x100 <= u <= 0x7FF)
    ensures |Encode(u)| == |Utf8(u)| + (if u == 0x7F || 0x100 <= u <= 0x7FF then 1 else 0)
  {
  }

  // Reads the code point back from the payload bits, whatever the number of bytes.
  function Payload(bytes: string): (u: int)
    requires 1 <= |bytes| <= 4
  {
    if |bytes| == 1 then bytes[0] as int
    else if |bytes| == 2 then (bytes[0] as int - 0xC0) * 0x40 + (bytes[1] as int - 0x80)
    else if |bytes| == 3 then
      ((bytes[0] as int - 0xE0) * 0x40 + (bytes[1] as int - 0x80)) * 0x40 + (bytes[2] as int - 0x80)
    else
      (((bytes[0] as int - 0xF0) * 0x40 + (bytes[1] as int - 0x80)) * 0x40
       + (bytes[2] as int - 0x80)) * 0x40 + (bytes[3] as int - 0x80)
  }

  // Even where the emitted form is too long, its payload is the code point, so no two code
  // points share an encoding.
  lemma PayloadOfEncode(u: nat)
    requires u <= 0x10FFFF
    ensures Payload(Encode(u)) == u
  {
    assert u / 0x1000 == u / 0x40 / 0x40 && u / 0x40000 == u / 0x1000 / 0x40;
  }

  // The same two as the source writes them, with shifts, masks and ors.
  function JoinByBits(high: nat, low: nat): nat
    requires IsHigh(high) && IsLow(low)
  {
    Or(ShiftLeft(high - 0xD800, 10), low - 0xDC00) + 0x10000
  }

  function EncodeByBits(u: nat): seq<nat> {
    if u < 0x7F then [And(u, 0xFF)]
    else if u <= 0xFF then [Or(0xC0, And(ShiftRight(u, 6), 0xFF)), Or(0x80, And(u, 0x3F))]
    else if u <= 0xFFFF then
      [Or(0xE0, And(ShiftRight(u, 12), 0xFF)), Or(0x80, And(ShiftRight(u, 6), 0x3F)), Or(0x80, And(u, 0x3F))]
    else
      [Or(0xF0, And(ShiftRight(u, 18), 0xFF)), Or(0x80, And(ShiftRight(u, 12), 0x3F)),
       Or(0x80, And(ShiftRight(u, 6), 0x3F)), Or(0x80, And(u, 0x3F))]
  }

  // They are the sums and quotients above, and no intermediate result leaves the 32 bits of an unsigned.
  lemma JoinIsBitwise(high: nat, low: nat)
    requires IsHigh(high) && IsLow(low)
    ensures JoinByBits(high, low) == Join(high, low)
    ensures ShiftLeft(high - 0xD800, 10) < 0x1_0000_0000
  {
    hide Or, ShiftLeft;
    Powers();
    LeftIsProduct(high - 0xD800, 10);
    HighAndLow(high - 0xD800, low - 0xDC00, 10);
  }

  lemma EncodeIsBitwise(u: nat)
    requires u <= 0x10FFFF
    ensures |EncodeByBits(u)| == |Encode(u)|
    ensures forall i :: 0 <= i < |Encode(u)| ==> EncodeByBits(u)[i] == Encode(u)[i] as int
  {
    hide Or, And, Pow2, ShiftRight;
    Powers();
    RightIsQuotient(u, 6);
    RightIsQuotient(u, 12);
    RightIsQuotient(u, 18);
    TailIsBitwise(u);
    TailIsBitwise(u / 0x40);
    TailIsBitwise(u / 0x1000);
    if u < 0x7F {
      ByteIsBitwise(u);
    } else if u <= 0xFF {
      ByteIsBitwise(u / 0x40);
      HighAndLow(3, u / 0x40, 6);
    } else if u <= 0xFFFF {
      ByteIsBitwise(u / 0x1000);
      HighAndLow(14, u / 0x1000, 4);
    } else {
      ByteIsBitwise(u / 0x40000);
      HighAndLow(15, u / 0x40000, 4);
    }
  }

  lemma Powers()
    ensures Pow2(4) == 0x10 && Pow2(6) == 0x40 && Pow2(8) == 0x100 && Pow2(10) == 0x400
    ensures Pow2(12) == 0x1000 && Pow2(18) == 0x40000
  {
    assert Pow2(9) == 2 * Pow2(8) && Pow2(8) == 0x100;
    assert Pow2(18) == 2 * Pow2(17) && Pow2(17) == 2 * Pow2(16) && Pow2(16) == 0x10000;
  }

  lemma TailIsBitwise(u: nat)
    ensures Or(0x80, And(u, 0x3F)) == Tail(u) as int
  {
    hide Or, And;
    Powers();
    LowBits(u, 6);
    HighAndLow(2, u % 0x40, 6);
  }

  lemma ByteIsBitwise(u: nat)
    requires u < 0x100
    ensures And(u, 0xFF) == u
  {
    hide And;
    Powers();
    LowBits(u, 8);
  }
}
