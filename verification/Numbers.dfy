/** Numbers in text: fixed-width hexadecimal, hex byte strings, decimal, and the shift-or
    assembly of eight bytes. */
module Numbers {
  import opened Types

  // ---------------------------------------------------------------- hexadecimal

  function HexChar(n: nat): char
    requires n < 16
  {
    if n < 10 then ('0' as int + n) as char else ('a' as int + n - 10) as char
  }

  function FromHex(c: char): (r: Option<nat>)
    ensures r.Some? ==> r.value < 16
  {
    if '0' <= c <= '9' then Some(c as int - '0' as int)
    else if 'a' <= c <= 'f' then Some(c as int - 'a' as int + 10)
    else if 'A' <= c <= 'F' then Some(c as int - 'A' as int + 10)
    else None
  }

  lemma HexDigit(n: nat)
    requires n < 16
    ensures FromHex(HexChar(n)) == Some(n)
  {
  }

  /** The low `width` hex digits of n, as %016x prints them for width 16. */
  function Hex(n: nat, width: nat): (s: string)
    ensures |s| == width
  {
    if width == 0 then "" else Hex(n / 16, width - 1) + [HexChar(n % 16)]
  }

  function EncodeHex(b: Bytes): (s: string)
    ensures |s| == 2 * |b|
  {
    if b == [] then "" else EncodeHex(b[..|b| - 1]) + [HexChar(b[|b| - 1] as int / 16), HexChar(b[|b| - 1] as int % 16)]
  }

  /** hex.DecodeString: an odd length or a foreign character is an error. */
  function DecodeHex(s: string): Option<Bytes> {
    if s == "" then Some([])
    else if |s| == 1 then None
    else
      match (DecodeHex(s[..|s| - 2]), FromHex(s[|s| - 2]), FromHex(s[|s| - 1]))
      case (Some(b), Some(h), Some(l)) => Some(b + [(16 * h + l) as byte])
      case _ => None
  }

  lemma DecodeSnoc(s: string, c: char, d: char)
    ensures DecodeHex(s + [c, d]) ==
            match (DecodeHex(s), FromHex(c), FromHex(d))
            case (Some(b), Some(h), Some(l)) => Some(b + [(16 * h + l) as byte])
            case _ => None
  {
    var t := s + [c, d];
    assert t[..|t| - 2] == s && t[|t| - 2] == c && t[|t| - 1] == d;
  }

  lemma DecodePair(s: string, x: byte)
    ensures DecodeHex(s + [HexChar(x as int / 16), HexChar(x as int % 16)]) ==
            match DecodeHex(s) { case None => None case Some(b) => Some(b + [x]) }
  {
    DecodeDigits(s, x as int / 16, x as int % 16);
  }

  lemma DecodeDigits(s: string, h: nat, l: nat)
    requires h < 16 && l < 16
    ensures DecodeHex(s + [HexChar(h), HexChar(l)]) ==
            match DecodeHex(s) { case None => None case Some(b) => Some(b + [(16 * h + l) as byte]) }
  {
    DecodeSnoc(s, HexChar(h), HexChar(l));
    HexDigit(h);
    HexDigit(l);
  }

  lemma EncodeSnoc(b: Bytes, x: byte)
    ensures EncodeHex(b + [x]) == EncodeHex(b) + [HexChar(x as int / 16), HexChar(x as int % 16)]
  {
    assert (b + [x])[..|b|] == b;
  }

  lemma {:induction false} DecodeEncode(b: Bytes)
    ensures DecodeHex(EncodeHex(b)) == Some(b)
  {
    if b != [] {
      var front, last := b[..|b| - 1], b[|b| - 1];
      DecodeEncode(front);
      DecodePair(EncodeHex(front), last);
      EncodeSnoc(front, last);
      assert front + [last] == b;
    }
  }

  /** Hex text is made of hex digits only. */
  lemma {:induction false} HexHasNo(b: Bytes, c: char)
    requires FromHex(c).None?
    ensures c !in EncodeHex(b)
  {
    if b != [] {
      HexHasNo(b[..|b| - 1], c);
    }
  }

  // ---------------------------------------------------------------- bytes of a word

  function BigEndian(n: nat, width: nat): (b: Bytes)
    ensures |b| == width
  {
    if width == 0 then [] else BigEndian(n / 256, width - 1) + [(n % 256) as byte]
  }

  /** Printing a word in hex is printing its bytes, high byte first. */
  lemma {:induction false} HexIsBytes(n: nat, width: nat)
    ensures Hex(n, 2 * width) == EncodeHex(BigEndian(n, width))
  {
    if width > 0 {
      HexIsBytes(n / 256, width - 1);
      var b := BigEndian(n, width);
      assert b[..|b| - 1] == BigEndian(n / 256, width - 1);
      HexPair(n, 2 * width);
    }
  }

  lemma HexPair(n: nat, width: nat)
    requires width >= 2
    ensures Hex(n, width) == Hex(n / 256, width - 2) + [HexChar(n % 256 / 16), HexChar(n % 256 % 16)]
  {
    assert n / 16 / 16 == n / 256 && n / 16 % 16 == n % 256 / 16 && n % 16 == n % 256 % 16;
  }

  // ---------------------------------------------------------------- shift and or

  function Pow2(k: nat): (p: nat)
    ensures p > 0
  {
    if k == 0 then 1 else 2 * Pow2(k - 1)
  }

  /** Bitwise or. */
  function Or(a: nat, b: nat): nat {
    if a == 0 && b == 0 then 0
    else 2 * Or(a / 2, b / 2) + (if a % 2 == 1 || b % 2 == 1 then 1 else 0)
  }

  /** A 64-bit left shift. */
  function Shl(x: nat, k: nat): uint64 {
    x * Pow2(k) % 0x1_0000_0000_0000_0000
  }

  lemma {:induction false} OrDisjoint(x: nat, y: nat, k: nat)
    requires y < Pow2(k)
    ensures Or(x * Pow2(k), y) == x * Pow2(k) + y
  {
    if k == 0 {
      OrZero(x);
    } else {
      var p := Pow2(k - 1);
      assert x * Pow2(k) == 2 * (x * p);
      OrDisjoint(x, y / 2, k - 1);
      assert x * Pow2(k) / 2 == x * p;
    }
  }

  lemma {:induction false} OrZero(x: nat)
    ensures Or(x, 0) == x
  {
    if x > 0 {
      OrZero(x / 2);
    }
  }

  /** The value of the first i of eight bytes, shifted into place one by one. */
  function Assemble(b: Bytes, i: nat): nat
    requires |b| == 8 && i <= 8
  {
    if i == 0 then 0 else Or(Assemble(b, i - 1), Shl(b[i - 1] as nat, 8 * (8 - i)))
  }

  /** Eight more bits are one factor of 256. */
  lemma Pow2Byte(k: nat)
    ensures Pow2(k + 8) == 256 * Pow2(k)
  {
    assert Pow2(k + 8) == 2 * Pow2(k + 7) && Pow2(k + 7) == 2 * Pow2(k + 6) && Pow2(k + 6) == 2 * Pow2(k + 5);
    assert Pow2(k + 5) == 2 * Pow2(k + 4) && Pow2(k + 4) == 2 * Pow2(k + 3) && Pow2(k + 3) == 2 * Pow2(k + 2);
    assert Pow2(k + 2) == 2 * Pow2(k + 1) && Pow2(k + 1) == 2 * Pow2(k);
  }

  lemma Pow2Word()
    ensures Pow2(64) == 0x1_0000_0000_0000_0000
  {
    Pow2Byte(0);
    Pow2Byte(8);
    Pow2Byte(16);
    Pow2Byte(24);
    Pow2Byte(32);
    Pow2Byte(40);
    Pow2Byte(48);
    Pow2Byte(56);
  }

  lemma {:induction false} Pow2Mono(a: nat, b: nat)
    requires a <= b
    ensures Pow2(a) <= Pow2(b)
  {
    if a < b {
      Pow2Mono(a, b - 1);
    }
  }

  /** The number whose base-256 digits are b, high digit first. */
  function Value(b: Bytes): nat {
    if b == [] then 0 else 256 * Value(b[..|b| - 1]) + b[|b| - 1] as nat
  }

  lemma {:induction false} ValueOfBigEndian(n: nat, width: nat)
    requires n < Pow2(8 * width)
    ensures Value(BigEndian(n, width)) == n
  {
    if width > 0 {
      Pow2Byte(8 * (width - 1));
      ValueOfBigEndian(n / 256, width - 1);
      var b := BigEndian(n, width);
      assert b[..|b| - 1] == BigEndian(n / 256, width - 1);
    }
  }

  lemma ShlByte(x: byte, k: nat)
    requires k <= 56
    ensures Shl(x as nat, k) == x as nat * Pow2(k) < Pow2(k + 8)
  {
    Pow2Byte(k);
    Pow2Word();
    Pow2Mono(k + 8, 64);
    MulLess(x as nat, Pow2(k));
  }

  lemma MulLess(x: nat, p: nat)
    requires x < 256 && p > 0
    ensures x * p < 256 * p
  {
  }

  /** One more byte: or-ing it in below what is there is adding it. */
  lemma AssembleByte(v: nat, x: byte, k: nat)
    requires k <= 56
    ensures Or(v * Pow2(k + 8), Shl(x as nat, k)) == (256 * v + x as nat) * Pow2(k)
  {
    ShlByte(x, k);
    OrDisjoint(v, Shl(x as nat, k), k + 8);
    Pow2Byte(k);
    Distribute(v, x as nat, Pow2(k));
  }

  lemma Distribute(v: nat, x: nat, p: nat)
    ensures v * (256 * p) + x * p == (256 * v + x) * p
  {
  }

  /** After i bytes, they stand at the top of the word and the rest is zero. */
  lemma {:induction false} AssembleTop(b: Bytes, i: nat)
    requires |b| == 8 && i <= 8
    ensures Assemble(b, i) == Value(b[..i]) * Pow2(8 * (8 - i))
  {
    if i > 0 {
      AssembleTop(b, i - 1);
      assert b[..i][..i - 1] == b[..i - 1];
      AssembleByte(Value(b[..i - 1]), b[i - 1], 8 * (8 - i));
    }
  }

  /** Big-endian bytes, shifted and or-ed together, are the word again. */
  lemma AssembleBigEndian(n: uint64)
    ensures Assemble(BigEndian(n, 8), 8) == n
  {
    var b := BigEndian(n, 8);
    AssembleTop(b, 8);
    assert b[..8] == b;
    Pow2Word();
    ValueOfBigEndian(n, 8);
  }

  // ---------------------------------------------------------------- integers in text

  /** The magnitude a non-empty digit string denotes; None on a foreign character. */
  function Digits(s: string, base: nat): Option<nat>
    requires base <= 16
  {
    if s == "" then None
    else
      var d := FromHex(s[|s| - 1]);
      if d.None? || d.value >= base then None
      else if |s| == 1 then d
      else
        match Digits(s[..|s| - 1], base)
        case None => None
        case Some(v) => Some(base * v + d.value)
  }

  const INT64 := 0x8000_0000_0000_0000

  function Signed(negative: bool, m: Option<nat>): Option<int> {
    if m.None? then None
    else
      var v: int := m.value;
      if negative then (if v <= INT64 then Some(-v) else None) else if v < INT64 then Some(v) else None
  }

  function Unsign(s: string): string {
    if s != "" && (s[0] == '-' || s[0] == '+') then s[1..] else s
  }

  /** strconv.ParseInt(s, 0, 64): the prefix gives the base, the range is that of int64. */
  function ParseInt(s: string): Option<int> {
    var t := Unsign(s);
    var m := if |t| > 2 && t[0] == '0' && (t[1] == 'x' || t[1] == 'X') then Digits(t[2..], 16)
             else if |t| > 1 && t[0] == '0' then Digits(t[1..], 8)
             else Digits(t, 10);
    Signed(s != "" && s[0] == '-', m)
  }

  /** strconv.Atoi. */
  function Atoi(s: string): Option<int> {
    Signed(s != "" && s[0] == '-', Digits(Unsign(s), 10))
  }

  /** %d of an unsigned number. */
  function Dec(n: nat): (s: string)
    ensures |s| >= 1
  {
    (if n < 10 then [] else Dec(n / 10)) + [HexChar(n % 10)]
  }

  lemma DigitsSnoc(s: string, d: nat, base: nat)
    requires d < base <= 16 && s != "" && Digits(s, base).Some?
    ensures Digits(s + [HexChar(d)], base) == Some(base * Digits(s, base).value + d)
  {
    HexDigit(d);
    var t := s + [HexChar(d)];
    assert t[|t| - 1] == HexChar(d) && t[..|t| - 1] == s;
  }

  lemma DigitsOne(d: nat, base: nat)
    requires d < base <= 16
    ensures Digits([HexChar(d)], base) == Some(d)
  {
    HexDigit(d);
  }

  lemma {:induction false} DigitsOfHex(n: nat, width: nat)
    requires width >= 1 && n < Pow2(4 * width)
    ensures Digits(Hex(n, width), 16) == Some(n)
  {
    Pow2Nibble(4 * (width - 1));
    if width > 1 {
      DigitsOfHex(n / 16, width - 1);
      DigitsSnoc(Hex(n / 16, width - 1), n % 16, 16);
    } else {
      assert Hex(n, 1) == [HexChar(n)];
      DigitsOne(n, 16);
    }
  }

  lemma Pow2Nibble(k: nat)
    ensures Pow2(k + 4) == 16 * Pow2(k) && Pow2(0) == 1
  {
    assert Pow2(k + 4) == 2 * Pow2(k + 3) && Pow2(k + 3) == 2 * Pow2(k + 2) && Pow2(k + 2) == 2 * Pow2(k + 1);
  }

  lemma {:induction false} DigitsOfDec(n: nat)
    ensures Digits(Dec(n), 10) == Some(n)
  {
    if n >= 10 {
      DigitsOfDec(n / 10);
      DigitsSnoc(Dec(n / 10), n % 10, 10);
    } else {
      assert Dec(n) == [HexChar(n)];
      DigitsOne(n, 10);
    }
  }

  predicate Decimal(s: string) {
    forall i | 0 <= i < |s| :: '0' <= s[i] <= '9'
  }

  lemma {:induction false} DecIsDecimal(n: nat)
    ensures Decimal(Dec(n))
  {
    if n >= 10 {
      DecIsDecimal(n / 10);
    }
  }

  /** A printed attrs word is read back exactly when it is below 2^63. */
  lemma ParsePrintedHex(n: uint64)
    ensures ParseInt("0x" + Hex(n, 16)) == if n < INT64 then Some(n) else None
  {
    Pow2Word();
    DigitsOfHex(n, 16);
    var s := "0x" + Hex(n, 16);
    assert s[0] == '0' && s[1] == 'x' && s[2..] == Hex(n, 16);
  }

  lemma ParsePrintedDec(n: uint32)
    ensures Atoi(Dec(n)) == Some(n)
  {
    DigitsOfDec(n);
    DecIsDecimal(n);
    assert '0' <= Dec(n)[0] <= '9';
  }
}
