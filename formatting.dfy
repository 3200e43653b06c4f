/**
 * The three Java text conversions the program relies on:
 * String.format("%02X ", b) on a signed byte, Integer.toString in string
 * concatenation, and java.util.UUID.toString.
 */
module Formatting {
  import opened Options

  /** A Java byte: signed, 8 bits. */
  newtype JavaByte = b: int | -128 <= b < 128

  /** One hexadecimal digit's value. */
  type Nibble = n: int | 0 <= n < 16

  /** %X formats a negative byte as its two's-complement unsigned value. */
  function Unsigned(b: JavaByte): (u: int)
    ensures 0 <= u < 256
    ensures (u - b as int) % 256 == 0
  {
    if b < 0 then b as int + 256 else b as int
  }

  function Signed(u: int): (b: JavaByte)
    requires 0 <= u < 256
    ensures (u - b as int) % 256 == 0
  {
    if u >= 128 then (u - 256) as JavaByte else u as JavaByte
  }

  function UpperDigit(n: Nibble): char {
    if n < 10 then ('0' as int + n) as char else ('A' as int + n - 10) as char
  }

  function LowerDigit(n: Nibble): char {
    if n < 10 then ('0' as int + n) as char else ('a' as int + n - 10) as char
  }

  /** The value of an upper-case hexadecimal digit, as UpperDigit writes them. */
  function UpperDigitValue(c: char): (r: Option<Nibble>)
    ensures r.Some? ==> UpperDigit(r.value) == c
  {
    if '0' <= c <= '9' then Some((c as int - '0' as int) as Nibble)
    else if 'A' <= c <= 'F' then Some((c as int - 'A' as int + 10) as Nibble)
    else None
  }

  predicate IsUpperHexDigit(c: char) {
    '0' <= c <= '9' || 'A' <= c <= 'F'
  }

  predicate IsLowerHexDigit(c: char) {
    '0' <= c <= '9' || 'a' <= c <= 'f'
  }

  /** String.format("%02X ", b): two upper-case digits of the unsigned value, then a space. */
  function ByteHex(b: JavaByte): string {
    [UpperDigit(Unsigned(b) / 16), UpperDigit(Unsigned(b) % 16), ' ']
  }

  /** What the StringBuilder loop of onCharacteristicChanged holds after appending every byte of `data`. */
  function HexString(data: seq<JavaByte>): string {
    if data == [] then "" else HexString(data[..|data| - 1]) + ByteHex(data[|data| - 1])
  }

  /** Reads back three characters written by ByteHex. */
  function ParseByteHex(t: string): (r: Option<JavaByte>)
    requires |t| == 3
  {
    match (UpperDigitValue(t[0]), UpperDigitValue(t[1]))
    case (Some(hi), Some(lo)) => if t[2] == ' ' then Some(Signed(hi as int * 16 + lo as int)) else None
    case _ => None
  }

  /** The inverse of HexString: the bytes a notification text stands for. */
  function ParseHex(s: string): (r: Option<seq<JavaByte>>)
  {
    if s == [] then Some([])
    else if |s| < 3 then None
    else match (ParseHex(s[..|s| - 3]), ParseByteHex(s[|s| - 3..]))
      case (Some(front), Some(b)) => Some(front + [b])
      case _ => None
  }

  /** Three characters per byte. */
  lemma {:induction false} HexLength(data: seq<JavaByte>)
    ensures |HexString(data)| == 3 * |data|
  {
    if data != [] {
      HexLength(data[..|data| - 1]);
    }
  }

  /** Every character of the text is an upper-case hexadecimal digit or the separating space. */
  lemma {:induction false} HexAlphabet(data: seq<JavaByte>)
    ensures forall i :: 0 <= i < |HexString(data)| ==> IsUpperHexDigit(HexString(data)[i]) || HexString(data)[i] == ' '
  {
    if data != [] {
      HexAlphabet(data[..|data| - 1]);
    }
  }

  lemma ByteHexRoundTrip(b: JavaByte)
    ensures ParseByteHex(ByteHex(b)) == Some(b)
  {
    var u := Unsigned(b);
    assert UpperDigitValue(UpperDigit(u / 16)) == Some(u / 16);
    assert UpperDigitValue(UpperDigit(u % 16)) == Some(u % 16);
  }

  /** The notification text determines the bytes: parsing it gives them back. */
  lemma {:induction false} HexRoundTrip(data: seq<JavaByte>)
    ensures ParseHex(HexString(data)) == Some(data)
  {
    if data != [] {
      var front, last := data[..|data| - 1], data[|data| - 1];
      var s := HexString(data);
      HexLength(front);
      assert s == HexString(front) + ByteHex(last);
      assert s[..|s| - 3] == HexString(front);
      assert s[|s| - 3..] == ByteHex(last);
      HexRoundTrip(front);
      ByteHexRoundTrip(last);
      assert front + [last] == data;
    }
  }

  function DecimalDigit(d: int): char
    requires 0 <= d < 10
  {
    ('0' as int + d) as char
  }

  /** The decimal digits of n, most significant first, without leading zeros. */
  function NatDigits(n: nat): (s: string)
    ensures |s| >= 1
    ensures forall i :: 0 <= i < |s| ==> '0' <= s[i] <= '9'
    ensures |s| > 1 ==> s[0] != '0'
  {
    if n < 10 then [DecimalDigit(n)] else NatDigits(n / 10) + [DecimalDigit(n % 10)]
  }

  /** Integer.toString: a minus sign for negative values, then the digits of the magnitude. */
  function DecimalString(n: int): string {
    if n < 0 then "-" + NatDigits(-n) else NatDigits(n)
  }

  function ParseNat(s: string): Option<nat> {
    if s == [] || !('0' <= s[|s| - 1] <= '9') then None
    else
      var d := s[|s| - 1] as int - '0' as int;
      if |s| == 1 then Some(d)
      else match ParseNat(s[..|s| - 1])
        case Some(front) => Some(front * 10 + d)
        case None => None
  }

  /** Integer.parseInt for what Integer.toString produces. */
  function ParseInt(s: string): Option<int> {
    if s != [] && s[0] == '-' then
      match ParseNat(s[1..])
      case Some(m) => Some(0 - m as int)
      case None => None
    else ParseNat(s)
  }

  lemma {:induction false} NatDigitsRoundTrip(n: nat)
    ensures ParseNat(NatDigits(n)) == Some(n)
  {
    if n >= 10 {
      var s := NatDigits(n);
      assert s[..|s| - 1] == NatDigits(n / 10);
      NatDigitsRoundTrip(n / 10);
    }
  }

  lemma ParseNegative(digits: string, m: nat)
    requires ParseNat(digits) == Some(m)
    ensures ParseInt("-" + digits) == Some(0 - m as int)
  {
    assert ("-" + digits)[1..] == digits;
  }

  lemma ParseNonNegative(digits: string)
    requires digits != [] && '0' <= digits[0] <= '9'
    ensures ParseInt(digits) == ParseNat(digits)
  {
  }

  /** The status number in a failure text can be read back exactly. */
  lemma DecimalRoundTrip(n: int)
    ensures ParseInt(DecimalString(n)) == Some(n)
  {
    if n < 0 {
      NatDigitsRoundTrip(-n);
      ParseNegative(NatDigits(-n), -n);
    } else {
      NatDigitsRoundTrip(n);
      ParseNonNegative(NatDigits(n));
    }
  }

  lemma DecimalAlphabet(n: int)
    ensures |DecimalString(n)| >= 1
    ensures forall i :: 0 <= i < |DecimalString(n)| ==> DecimalString(n)[i] == '-' || '0' <= DecimalString(n)[i] <= '9'
  {
  }

  function LowerHex(s: seq<Nibble>): (r: string)
    ensures |r| == |s|
  {
    if s == [] then "" else [LowerDigit(s[0])] + LowerHex(s[1..])
  }

  lemma {:induction false} LowerHexAt(s: seq<Nibble>, i: nat)
    requires i < |s|
    ensures LowerHex(s)[i] == LowerDigit(s[i])
  {
    if i > 0 {
      LowerHexAt(s[1..], i - 1);
    }
  }

  lemma {:induction false} LowerHexConcat(a: seq<Nibble>, b: seq<Nibble>)
    ensures LowerHex(a + b) == LowerHex(a) + LowerHex(b)
  {
    if a != [] {
      assert (a + b)[0] == a[0];
      assert (a + b)[1..] == a[1..] + b;
      LowerHexConcat(a[1..], b);
      calc {
        LowerHex(a + b);
        [LowerDigit(a[0])] + LowerHex(a[1..] + b);
        [LowerDigit(a[0])] + (LowerHex(a[1..]) + LowerHex(b));
        ([LowerDigit(a[0])] + LowerHex(a[1..])) + LowerHex(b);
        LowerHex(a) + LowerHex(b);
      }
    } else {
      assert a + b == b;
    }
  }

  /** String.toLowerCase on ASCII text: upper-case letters become lower case, all else is kept. */
  function AsciiLower(c: char): char {
    if 'A' <= c <= 'Z' then (c as int + 32) as char else c
  }

  function LowerCase(s: string): (r: string)
    ensures |r| == |s|
  {
    if s == [] then "" else [AsciiLower(s[0])] + LowerCase(s[1..])
  }

  lemma {:induction false} LowerCaseConcat(a: string, b: string)
    ensures LowerCase(a + b) == LowerCase(a) + LowerCase(b)
  {
    if a != [] {
      assert (a + b)[0] == a[0];
      assert (a + b)[1..] == a[1..] + b;
      LowerCaseConcat(a[1..], b);
      calc {
        LowerCase(a + b);
        [AsciiLower(a[0])] + LowerCase(a[1..] + b);
        [AsciiLower(a[0])] + (LowerCase(a[1..]) + LowerCase(b));
        ([AsciiLower(a[0])] + LowerCase(a[1..])) + LowerCase(b);
        LowerCase(a) + LowerCase(b);
      }
    } else {
      assert a + b == b;
    }
  }

  /** Lower-casing a dashed text lower-cases each part and keeps the dashes. */
  lemma LowerCaseDashed(a: string, b: string, c: string, d: string, e: string)
    ensures LowerCase(a + "-" + b + "-" + c + "-" + d + "-" + e)
         == LowerCase(a) + "-" + LowerCase(b) + "-" + LowerCase(c) + "-" + LowerCase(d) + "-" + LowerCase(e)
  {
    assert LowerCase("-") == "-";
    LowerCaseConcat(a, "-");
    LowerCaseConcat(a + "-", b);
    LowerCaseConcat(a + "-" + b, "-");
    LowerCaseConcat(a + "-" + b + "-", c);
    LowerCaseConcat(a + "-" + b + "-" + c, "-");
    LowerCaseConcat(a + "-" + b + "-" + c + "-", d);
    LowerCaseConcat(a + "-" + b + "-" + c + "-" + d, "-");
    LowerCaseConcat(a + "-" + b + "-" + c + "-" + d + "-", e);
  }

  /**
   * A java.util.UUID as the digit values of its five groups
   * (time_low, time_mid, time_hi_and_version, clock_seq, node).
   */
  datatype Uuid = Uuid(timeLow: seq<Nibble>, timeMid: seq<Nibble>, timeHigh: seq<Nibble>,
                       clockSeq: seq<Nibble>, node: seq<Nibble>)

  predicate ValidUuid(u: Uuid) {
    |u.timeLow| == 8 && |u.timeMid| == 4 && |u.timeHigh| == 4 && |u.clockSeq| == 4 && |u.node| == 12
  }

  /** java.util.UUID.toString: the groups in lower-case hexadecimal, joined by dashes. */
  function UuidToString(u: Uuid): string {
    LowerHex(u.timeLow) + "-" + LowerHex(u.timeMid) + "-" + LowerHex(u.timeHigh) + "-"
      + LowerHex(u.clockSeq) + "-" + LowerHex(u.node)
  }

  /** A UUID's text is 36 characters, dashes at 8, 13, 18 and 23, lower-case digits elsewhere. */
  lemma UuidShape(u: Uuid)
    requires ValidUuid(u)
    ensures |UuidToString(u)| == 36
    ensures forall i :: 0 <= i < 36 ==>
      if i in {8, 13, 18, 23} then UuidToString(u)[i] == '-' else IsLowerHexDigit(UuidToString(u)[i])
  {
    var r := UuidToString(u);
    forall i | 0 <= i < 36
      ensures if i in {8, 13, 18, 23} then r[i] == '-' else IsLowerHexDigit(r[i])
    {
      if i < 8 { LowerHexAt(u.timeLow, i); }
      else if 8 < i < 13 { LowerHexAt(u.timeMid, i - 9); }
      else if 13 < i < 18 { LowerHexAt(u.timeHigh, i - 14); }
      else if 18 < i < 23 { LowerHexAt(u.clockSeq, i - 19); }
      else if 23 < i { LowerHexAt(u.node, i - 24); }
    }
  }
}
