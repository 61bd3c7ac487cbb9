/** Decimal numbers as the stream operator prints them and as stoull and stoll read them. */
module Decimals {
  import opened Bytes

  const TWO_TO_63 := 0x8000_0000_0000_0000

  predicate IsDigit(c: char) {
    '0' <= c <= '9'
  }

  function DigitChar(d: nat): (c: char)
    requires d < 10
    ensures IsDigit(c) && DigitValue(c) == d
  {
    ('0' as int + d) as char
  }

  function DigitValue(c: char): nat
    requires IsDigit(c)
  {
    c as int - '0' as int
  }

  function PrintNat(n: nat): (s: string)
    ensures s != [] && forall c <- s :: IsDigit(c)
  {
    if n < 10 then [DigitChar(n)] else PrintNat(n / 10) + [DigitChar(n % 10)]
  }

  function PrintInt(x: int): string {
    if x < 0 then ['-'] + PrintNat(-x) else PrintNat(x)
  }

  /** The digits a text starts with, read after `acc`. */
  function ReadDigits(s: string, acc: nat): nat {
    if s == [] || !IsDigit(s[0]) then acc else ReadDigits(s[1..], acc * 10 + DigitValue(s[0]))
  }

  predicate IsSpace(c: char) {
    c == ' ' || c == '\t' || c == '\n' || c as int == 11 || c as int == 12 || c == '\r'
  }

  function SkipSpace(s: string): string {
    if s != [] && IsSpace(s[0]) then SkipSpace(s[1..]) else s
  }

  /** Sign and magnitude after leading blanks; trailing text is ignored, and no digit at all is an error. */
  function ReadNumber(s: string): Option<(bool, nat)> {
    var t := SkipSpace(s);
    var negative := t != [] && t[0] == '-';
    var u := if t != [] && (t[0] == '-' || t[0] == '+') then t[1..] else t;
    if u != [] && IsDigit(u[0]) then Some((negative, ReadDigits(u, 0))) else None
  }

  /** stoull: the magnitude must fit in 64 bits; a minus sign negates modulo 2^64. */
  function Stoull(s: string): Option<u64> {
    match ReadNumber(s)
    case None => None
    case Some((negative, n)) =>
      if n >= TWO_TO_64 then None else Some(if negative && n > 0 then TWO_TO_64 - n else n)
  }

  function Stoll(s: string): Option<int> {
    match ReadNumber(s)
    case None => None
    case Some((negative, n)) =>
      var x: int := if negative then 0 - n as int else n as int;
      if -TWO_TO_63 <= x < TWO_TO_63 then Some(x) else None
  }

  /** ParseUnsigned into 32 bits: the cast drops the high bits. */
  function ParseUnsigned(s: string): Option<u32> {
    match Stoull(s)
    case None => None
    case Some(v) => Some(v % TWO_TO_32)
  }

  function ParseSigned(s: string): Option<i32> {
    match Stoll(s)
    case None => None
    case Some(v) => Some(ToI32(v % TWO_TO_32))
  }

  lemma {:induction false} ReadDigitsSnoc(s: string, c: char, acc: nat)
    requires (forall d <- s :: IsDigit(d)) && IsDigit(c)
    ensures ReadDigits(s + [c], acc) == ReadDigits(s, acc) * 10 + DigitValue(c)
    decreases |s|
  {
    if s == [] {
      assert (s + [c])[1..] == [];
    } else {
      assert (s + [c])[1..] == s[1..] + [c];
      ReadDigitsSnoc(s[1..], c, acc * 10 + DigitValue(s[0]));
    }
  }

  lemma {:induction false} DigitsReadBack(n: nat)
    ensures ReadDigits(PrintNat(n), 0) == n
    decreases n
  {
    if n < 10 {
      assert PrintNat(n)[1..] == [];
    } else {
      DigitsReadBack(n / 10);
      ReadDigitsSnoc(PrintNat(n / 10), DigitChar(n % 10), 0);
    }
  }

  lemma PrintedReadsBack(x: int)
    ensures ReadNumber(PrintInt(x)) == Some((x < 0, if x < 0 then -x else x))
  {
    var s := PrintInt(x);
    DigitsReadBack(if x < 0 then -x else x);
    hide PrintNat;
    assert SkipSpace(s) == s;
    if x < 0 {
      assert s[1..] == PrintNat(-x);
    }
  }

  /** A printed natural number is read modulo 2^32, and refused from 2^64 on. */
  lemma UnsignedReadsBack(n: nat)
    ensures ParseUnsigned(PrintNat(n)) == if n < TWO_TO_64 then Some(n % TWO_TO_32) else None
  {
    PrintedReadsBack(n);
  }

  /** A minus sign is no error to the unsigned reader: it negates modulo 2^64, and so modulo 2^32. */
  lemma NegativeReadsUnsigned(n: nat)
    requires n > 0
    ensures ParseUnsigned(PrintInt(0 - n as int)) == if n < TWO_TO_64 then Some((0 - n as int) % TWO_TO_32) else None
  {
    PrintedReadsBack(0 - n as int);
    hide PrintInt, ReadNumber;
    if n < TWO_TO_64 {
      assert (TWO_TO_64 - n) % TWO_TO_32 == (0 - n as int) % TWO_TO_32;
    }
  }

  /** A printed integer is read as the signed 32-bit value of its low bits, and refused outside 64 bits. */
  lemma SignedReadsBack(x: int)
    ensures ParseSigned(PrintInt(x)) == if -TWO_TO_63 <= x < TWO_TO_63 then Some(ToI32(x % TWO_TO_32)) else None
    ensures -TWO_TO_31 <= x < TWO_TO_31 ==> ParseSigned(PrintInt(x)) == Some(x)
  {
    PrintedReadsBack(x);
    hide ReadNumber, PrintInt;
    if -TWO_TO_31 <= x < 0 {
      assert x % TWO_TO_32 == x + TWO_TO_32;
    }
  }

  // ---- which text it is ----

  function Power10(k: nat): (p: nat)
    ensures p > 0
  {
    if k == 0 then 1 else 10 * Power10(k - 1)
  }

  lemma TenTimes(n: nat, p: nat)
    requires p > 0
    ensures n / 10 / p == n / (10 * p)
  {
    var q, r := n / 10 / p, n / 10 % p;
    assert n / 10 == q * p + r;
    assert n == q * (10 * p) + (10 * r + n % 10);
    QuotientIs(n, 10 * p, q, 10 * r + n % 10);
  }

  lemma QuotientIs(n: nat, p: nat, q: nat, r: nat)
    requires p > 0 && n == q * p + r && r < p
    ensures n / p == q
  {
    var d, m := n / p, n % p;
    if d > q {
      TimesApart(d, q, p);
    } else if d < q {
      TimesApart(q, d, p);
    }
  }

  lemma TimesApart(a: nat, b: nat, p: nat)
    requires a > b
    ensures a * p >= b * p + p
  {
    assert a * p == b * p + (a - b) * p;
    assert (a - b) * p == p + (a - b - 1) * p;
  }

  /** The k-th character from the end is the k-th decimal digit, in ASCII. */
  lemma {:induction false} PrintedDigits(n: nat, k: nat)
    requires k < |PrintNat(n)|
    ensures var s := PrintNat(n); s[|s| - 1 - k] as int == 48 + n / Power10(k) % 10
    decreases n
  {
    if n < 10 {
    } else {
      var t := PrintNat(n / 10);
      assert PrintNat(n) == t + [DigitChar(n % 10)];
      hide PrintNat;
      if k > 0 {
        PrintedDigits(n / 10, k - 1);
        TenTimes(n, Power10(k - 1));
      }
    }
  }

  /** No leading zero, except in the text of 0 itself. */
  lemma {:induction false} NoLeadingZero(n: nat)
    ensures PrintNat(n)[0] == '0' <==> n == 0
    decreases n
  {
    if n >= 10 {
      NoLeadingZero(n / 10);
    }
  }

  // ---- what surrounds a number ----

  lemma {:induction false} BlanksAreSkipped(blanks: string, s: string)
    requires (forall c <- blanks :: IsSpace(c)) && (s == [] || !IsSpace(s[0]))
    ensures SkipSpace(blanks + s) == s
    decreases |blanks|
  {
    if blanks == [] {
      assert blanks + s == s;
    } else {
      assert (blanks + s)[1..] == blanks[1..] + s;
      BlanksAreSkipped(blanks[1..], s);
    }
  }

  lemma {:induction false} DigitsEnd(s: string, junk: string, acc: nat)
    requires (forall c <- s :: IsDigit(c)) && (junk == [] || !IsDigit(junk[0]))
    ensures ReadDigits(s + junk, acc) == ReadDigits(s, acc)
    decreases |s|
  {
    if s == [] {
      assert s + junk == junk;
    } else {
      assert (s + junk)[1..] == s[1..] + junk;
      DigitsEnd(s[1..], junk, acc * 10 + DigitValue(s[0]));
    }
  }

  predicate IsSign(sign: string) {
    sign == "" || sign == "-" || sign == "+"
  }

  lemma SignedDigits(sign: string, digits: string, junk: string)
    requires IsSign(sign) && digits != [] && forall c <- digits :: IsDigit(c)
    ensures var t := sign + (digits + junk);
            var u := if t[0] == '-' || t[0] == '+' then t[1..] else t;
            u == digits + junk && (t[0] == '-' <==> sign == "-") && !IsSpace(t[0])
  {
    assert IsDigit(digits[0]);
    var t := sign + (digits + junk);
    if sign == "" {
      assert t == digits + junk;
    } else {
      assert t[1..] == digits + junk && t[0] == sign[0];
    }
  }

  /** Blanks before the sign and anything after the last digit make no difference. */
  lemma SurroundingsAreIgnored(blanks: string, sign: string, digits: string, junk: string)
    requires (forall c <- blanks :: IsSpace(c)) && IsSign(sign)
    requires digits != [] && (forall c <- digits :: IsDigit(c)) && (junk == [] || !IsDigit(junk[0]))
    ensures ReadNumber(blanks + (sign + (digits + junk))) == Some((sign == "-", ReadDigits(digits, 0)))
  {
    SignedDigits(sign, digits, junk);
    DigitsEnd(digits, junk, 0);
    hide ReadDigits, IsSpace;
    BlanksAreSkipped(blanks, sign + (digits + junk));
    assert IsDigit(digits[0]);
  }

  /** Without a digit right after blanks and sign there is no number. */
  lemma NoNumberWithoutDigit(blanks: string, sign: string, rest: string)
    requires (forall c <- blanks :: IsSpace(c)) && IsSign(sign) && (rest == [] || !IsDigit(rest[0]))
    requires sign == "" ==> rest == [] || (!IsSpace(rest[0]) && rest[0] != '-' && rest[0] != '+')
    ensures ReadNumber(blanks + (sign + rest)) == None
  {
    var t := sign + rest;
    if sign == "" {
      assert t == rest;
    } else {
      assert t[1..] == rest && t[0] == sign[0] && !IsSpace(t[0]);
    }
    BlanksAreSkipped(blanks, t);
  }
}
