/** UTF-8 byte sequences of text, and decimal numerals. */
module Utf8 {
  import opened Common

  type Byte = b: int | 0 <= b < 256 witness 0

  /** The bytes of one Unicode scalar value. */
  function EncodeChar(c: char): (r: seq<Byte>)
    ensures 1 <= |r| <= 4
    ensures c as int < 0x80 ==> r == [c as int]
    ensures c as int >= 0x80 ==> forall i :: 0 <= i < |r| ==> r[i] >= 0x80
  {
    var n := c as int;
    if n < 0x80 then [n]
    else if n < 0x800 then [0xC0 + n / 0x40, 0x80 + n % 0x40]
    else if n < 0x1_0000 then [0xE0 + n / 0x1000, 0x80 + n / 0x40 % 0x40, 0x80 + n % 0x40]
    else [0xF0 + n / 0x4_0000, 0x80 + n / 0x1000 % 0x40, 0x80 + n / 0x40 % 0x40, 0x80 + n % 0x40]
  }

  function Encode(s: string): seq<Byte> {
    if s == "" then [] else EncodeChar(s[0]) + Encode(s[1..])
  }

  lemma {:induction false} EncodeConcat(s: string, t: string)
    ensures Encode(s + t) == Encode(s) + Encode(t)
    decreases |s|
  {
    if s == "" {
      assert s + t == t;
    } else {
      EncodeConcat(s[1..], t);
      assert (s + t)[0] == s[0] && (s + t)[1..] == s[1..] + t;
      AppendIsAssociative(EncodeChar(s[0]), Encode(s[1..]), Encode(t));
    }
  }

  function ByteAt(bs: seq<Byte>, k: nat): int {
    if k < |bs| then bs[k] else -1
  }

  /** The scalar value that a sequence of bytes starts with. */
  function FirstScalar(bs: seq<Byte>): int {
    var a, b, c, d := ByteAt(bs, 0), ByteAt(bs, 1) - 0x80, ByteAt(bs, 2) - 0x80, ByteAt(bs, 3) - 0x80;
    if a < 0x80 then a
    else if a < 0xE0 then (a - 0xC0) * 0x40 + b
    else if a < 0xF0 then (a - 0xE0) * 0x1000 + b * 0x40 + c
    else (a - 0xF0) * 0x4_0000 + b * 0x1000 + c * 0x40 + d
  }

  lemma SixBits(n: nat)
    ensures n == n / 0x40 * 0x40 + n % 0x40
    ensures n == n / 0x1000 * 0x1000 + n / 0x40 % 0x40 * 0x40 + n % 0x40
    ensures n == n / 0x4_0000 * 0x4_0000 + n / 0x1000 % 0x40 * 0x1000 + n / 0x40 % 0x40 * 0x40 + n % 0x40
  {
    assert n / 0x1000 == n / 0x40 / 0x40;
    assert n / 0x4_0000 == n / 0x1000 / 0x40;
  }

  lemma BytesOfConcat(a: seq<Byte>, rest: seq<Byte>, k: nat)
    ensures k < |a| ==> ByteAt(a + rest, k) == a[k]
  {
  }

  lemma ScalarIsRead(c: char, rest: seq<Byte>)
    ensures FirstScalar(EncodeChar(c) + rest) == c as int
  {
    SixBits(c as int);
    var bs := EncodeChar(c);
    BytesOfConcat(bs, rest, 0);
    BytesOfConcat(bs, rest, 1);
    BytesOfConcat(bs, rest, 2);
    BytesOfConcat(bs, rest, 3);
  }

  lemma {:induction false} EncodeIsInjective(s: string, t: string)
    requires Encode(s) == Encode(t)
    ensures s == t
    decreases |s|
  {
    if s != "" && t != "" {
      ScalarIsRead(s[0], Encode(s[1..]));
      ScalarIsRead(t[0], Encode(t[1..]));
      var n := |EncodeChar(s[0])|;
      assert Encode(s)[n..] == Encode(s[1..]) && Encode(t)[n..] == Encode(t[1..]);
      EncodeIsInjective(s[1..], t[1..]);
      assert s == [s[0]] + s[1..] && t == [t[0]] + t[1..];
    }
  }

  lemma SplitBytes(a: string, b: string, after: seq<Byte>)
    ensures Encode(a + b) + after == Encode(a) + (Encode(b) + after)
  {
    EncodeConcat(a, b);
    AppendIsAssociative(Encode(a), Encode(b), after);
  }

  predicate IsAscii(s: string) {
    forall i :: 0 <= i < |s| ==> s[i] as int < 0x80
  }

  lemma {:induction false} EncodeAscii(s: string)
    requires IsAscii(s)
    ensures |Encode(s)| == |s| && forall i :: 0 <= i < |s| ==> Encode(s)[i] == s[i] as int
    decreases |s|
  {
    if s != "" {
      EncodeAscii(s[1..]);
    }
  }

  // ----- Decimal numerals -----

  function Digit(d: nat): char
    requires d < 10
  {
    ('0' as int + d) as char
  }

  function Decimal(n: nat): (s: string)
    ensures |s| >= 1
  {
    if n < 10 then [Digit(n)] else Decimal(n / 10) + [Digit(n % 10)]
  }

  function Zeros(n: nat): string {
    seq(n, i => '0')
  }

  /** `String(n).padStart(10, '0')`. */
  function Pad10(n: nat): string {
    var s := Decimal(n);
    if |s| >= 10 then s else Zeros(10 - |s|) + s
  }

  predicate IsDigitByte(b: Byte) {
    48 <= b <= 57
  }

  predicate AllDigits(bs: seq<Byte>) {
    forall i :: 0 <= i < |bs| ==> IsDigitByte(bs[i])
  }

  function ParseDecimal(bs: seq<Byte>): int {
    if |bs| == 0 then 0 else 10 * ParseDecimal(bs[..|bs| - 1]) + bs[|bs| - 1] - 48
  }

  lemma {:induction false} DecimalIsDigits(n: nat)
    ensures IsAscii(Decimal(n)) && forall i :: 0 <= i < |Decimal(n)| ==> '0' <= Decimal(n)[i] <= '9'
    decreases n
  {
    if n >= 10 {
      DecimalIsDigits(n / 10);
    }
  }

  lemma ParseAppend(bs: seq<Byte>, d: nat)
    requires d < 10
    ensures ParseDecimal(bs + [48 + d]) == 10 * ParseDecimal(bs) + d
  {
  }

  lemma {:induction false} DecimalRoundTrip(n: nat)
    ensures ParseDecimal(Encode(Decimal(n))) == n && AllDigits(Encode(Decimal(n)))
    ensures |Encode(Decimal(n))| == |Decimal(n)|
    decreases n
  {
    DecimalIsDigits(n);
    EncodeAscii(Decimal(n));
    if n < 10 {
      assert Encode(Decimal(n)) == [48 + n];
      ParseAppend([], n);
      assert [] + [48 + n] == [48 + n];
    } else {
      DecimalRoundTrip(n / 10);
      EncodeConcat(Decimal(n / 10), [Digit(n % 10)]);
      assert Encode([Digit(n % 10)]) == [48 + n % 10];
      ParseAppend(Encode(Decimal(n / 10)), n % 10);
    }
  }

  lemma {:induction false} LeadingZeros(k: nat, bs: seq<Byte>)
    ensures ParseDecimal(seq(k, i => 48) + bs) == ParseDecimal(bs)
    decreases k + |bs|
  {
    var all := seq(k, i => 48) + bs;
    if |bs| > 0 {
      LeadingZeros(k, bs[..|bs| - 1]);
      assert all[..|all| - 1] == seq(k, i => 48) + bs[..|bs| - 1];
    } else if k > 0 {
      LeadingZeros(k - 1, []);
      assert all[..k - 1] == seq(k - 1, i => 48) + [];
    }
  }

  function Pow10(k: nat): nat {
    if k == 0 then 1 else 10 * Pow10(k - 1)
  }

  lemma {:induction false} DecimalLength(n: nat, k: nat)
    requires k > 0
    ensures |Decimal(n)| <= k <==> n < Pow10(k)
    decreases k
  {
    if k == 1 {
      assert Pow10(1) == 10 * Pow10(0);
    } else if n >= 10 {
      DecimalLength(n / 10, k - 1);
      assert n / 10 < Pow10(k - 1) <==> n < 10 * Pow10(k - 1);
    } else {
      PowPositive(k - 1);
    }
  }

  lemma {:induction false} PowPositive(k: nat)
    ensures Pow10(k) >= 1
  {
    if k > 0 { PowPositive(k - 1); }
  }

  /** Padding yields exactly ten digits, for the same number, exactly below ten to the tenth. */
  lemma Pad10RoundTrip(n: nat)
    ensures ParseDecimal(Encode(Pad10(n))) == n && AllDigits(Encode(Pad10(n))) && IsAscii(Pad10(n))
    ensures |Encode(Pad10(n))| == |Pad10(n)|
    ensures |Pad10(n)| == 10 <==> n < 10_000_000_000
  {
    DecimalRoundTrip(n);
    DecimalIsDigits(n);
    TenDigits(n);
    if |Decimal(n)| < 10 {
      ZeroPadded(10 - |Decimal(n)|, Decimal(n));
    }
  }

  lemma TenDigits(n: nat)
    ensures |Decimal(n)| <= 10 <==> n < 10_000_000_000
  {
    DecimalLength(n, 10);
    TenToTheTenth();
  }

  lemma ZeroPadded(k: nat, s: string)
    requires IsAscii(s) && AllDigits(Encode(s))
    ensures ParseDecimal(Encode(Zeros(k) + s)) == ParseDecimal(Encode(s))
    ensures AllDigits(Encode(Zeros(k) + s)) && IsAscii(Zeros(k) + s)
    ensures |Encode(Zeros(k) + s)| == k + |s|
  {
    EncodeConcat(Zeros(k), s);
    EncodeAscii(Zeros(k));
    EncodeAscii(s);
    assert Encode(Zeros(k)) == seq(k, i => 48);
    LeadingZeros(k, Encode(s));
  }

  lemma TenToTheTenth()
    ensures Pow10(10) == 10_000_000_000
  {
  }
}
