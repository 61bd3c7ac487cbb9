/** Hexadecimal text and the salted password check built on it. */
module PasswordHex {
  import opened Bytes
  import opened Sha256

  function HexNibble(ch: char): (r: int)
    ensures -1 <= r < 16
  {
    if '0' <= ch <= '9' then ch as int - '0' as int
    else if 'a' <= ch <= 'f' then 10 + (ch as int - 'a' as int)
    else if 'A' <= ch <= 'F' then 10 + (ch as int - 'A' as int)
    else -1
  }

  predicate IsHexDigit(ch: char) {
    HexNibble(ch) >= 0
  }

  const DIGITS := "0123456789ABCDEF"

  function UpperDigit(n: nat): (ch: char)
    requires n < 16
    ensures HexNibble(ch) == n
  {
    if n < 10 then ('0' as int + n) as char else ('A' as int + n - 10) as char
  }

  lemma DigitTable(n: nat)
    requires n < 16
    ensures |DIGITS| == 16 && DIGITS[n] == UpperDigit(n)
  {}

  /** toupper of one character in the C locale. */
  function ToUpperChar(ch: char): char {
    if 'a' <= ch <= 'z' then (ch as int - 32) as char else ch
  }

  function ToUpperAscii(s: string): (r: string)
    ensures |r| == |s|
  {
    seq(|s|, i requires 0 <= i < |s| => ToUpperChar(s[i]))
  }

  /** Differing at most in the case of ASCII letters. */
  predicate SameUpToCase(s: string, t: string) {
    ToUpperAscii(s) == ToUpperAscii(t)
  }

  function Decode(hex: string): Option<seq<byte>> {
    if hex == [] then Some([])
    else if |hex| == 1 || !IsHexDigit(hex[0]) || !IsHexDigit(hex[1]) then None
    else
      match Decode(hex[2..])
      case None => None
      case Some(rest) => Some([16 * HexNibble(hex[0]) + HexNibble(hex[1])] + rest)
  }

  function Encode(bytes: seq<byte>): (r: string)
    ensures |r| == 2 * |bytes|
  {
    if bytes == [] then []
    else [UpperDigit(bytes[0] / 16), UpperDigit(bytes[0] % 16)] + Encode(bytes[1..])
  }

  /** Decoding succeeds exactly on an even number of hexadecimal digits. */
  lemma {:induction false} DecodeSucceeds(hex: string)
    ensures Decode(hex).Some? <==> |hex| % 2 == 0 && forall ch <- hex :: IsHexDigit(ch)
  {
    if |hex| < 2 {
    } else {
      hide HexNibble;
      DecodeSucceeds(hex[2..]);
      assert hex[0] in hex && hex[1] in hex;
      assert forall ch :: ch in hex <==> ch == hex[0] || ch == hex[1] || ch in hex[2..];
      assert |hex[2..]| % 2 == |hex| % 2;
    }
  }

  /** Text to bytes undoes bytes to text ... */
  lemma {:induction false} DecodeEncode(bytes: seq<byte>)
    ensures Decode(Encode(bytes)) == Some(bytes)
  {
    if bytes == [] {
    } else {
      DecodeEncode(bytes[1..]);
      hide HexNibble, UpperDigit;
      assert Encode(bytes)[2..] == Encode(bytes[1..]);
      assert 16 * (bytes[0] / 16) + bytes[0] % 16 == bytes[0] && [bytes[0]] + bytes[1..] == bytes;
    }
  }

  /** The high half of a byte comes first, each half as one of the sixteen upper-case digits. */
  lemma {:induction false} EncodedAt(bytes: seq<byte>, i: nat)
    requires i < |bytes|
    ensures Encode(bytes)[2 * i] == "0123456789ABCDEF"[bytes[i] / 16]
    ensures Encode(bytes)[2 * i + 1] == "0123456789ABCDEF"[bytes[i] % 16]
  {
    DigitTable(bytes[i] / 16);
    DigitTable(bytes[i] % 16);
    hide UpperDigit;
    if i > 0 {
      EncodedAt(bytes[1..], i - 1);
    }
  }

  lemma UpperOfDigit(ch: char)
    requires IsHexDigit(ch)
    ensures ToUpperChar(ch) == UpperDigit(HexNibble(ch))
  {}

  /** ... and bytes to text gives back the text in upper case. */
  lemma {:induction false} EncodeDecode(hex: string)
    requires Decode(hex).Some?
    ensures Encode(Decode(hex).value) == ToUpperAscii(hex)
  {
    if hex == [] {
    } else {
      UpperOfDigit(hex[0]);
      UpperOfDigit(hex[1]);
      EncodeDecode(hex[2..]);
      hide HexNibble, ToUpperChar, UpperDigit;
      var h, l, rest := HexNibble(hex[0]), HexNibble(hex[1]), Decode(hex[2..]).value;
      EncodeCons(h, l, rest);
      assert ToUpperAscii(hex) == [ToUpperChar(hex[0]), ToUpperChar(hex[1])] + ToUpperAscii(hex[2..]);
    }
  }

  lemma EncodeCons(h: nat, l: nat, rest: seq<byte>)
    requires h < 16 && l < 16
    ensures Encode([16 * h + l] + rest) == [UpperDigit(h), UpperDigit(l)] + Encode(rest)
  {
    hide UpperDigit;
    var bytes: seq<byte> := [16 * h + l] + rest;
    assert bytes[1..] == rest && bytes[0] / 16 == h && bytes[0] % 16 == l;
  }

  lemma NibbleIgnoresCase(ch: char)
    ensures HexNibble(ToUpperChar(ch)) == HexNibble(ch)
  {}

  lemma {:induction false} DecodeIgnoresCase(hex: string)
    ensures Decode(ToUpperAscii(hex)) == Decode(hex)
  {
    if |hex| < 2 {
      if hex != [] {
        NibbleIgnoresCase(hex[0]);
      }
    } else {
      NibbleIgnoresCase(hex[0]);
      NibbleIgnoresCase(hex[1]);
      assert ToUpperAscii(hex)[2..] == ToUpperAscii(hex[2..]);
      DecodeIgnoresCase(hex[2..]);
    }
  }

  /** Comparing upper-cased text is comparing the bytes the text stands for. */
  lemma TextMatchIsByteMatch(digest: seq<byte>, expected: string)
    ensures Encode(digest) == ToUpperAscii(expected) <==> Decode(expected) == Some(digest)
  {
    DecodeIgnoresCase(expected);
    DecodeEncode(digest);
    if Decode(expected).Some? {
      EncodeDecode(expected);
    }
  }

  // ---- the check ----

  predicate Matches(input: seq<byte>, expectedHex: string) {
    Encode(Sha256Of(input)) == ToUpperAscii(expectedHex)
  }

  predicate Verify(password: seq<byte>, hashHex: string, saltHex: string) {
    && password != [] && hashHex != []
    && var salt := Decode(saltHex);
       salt.Some? && (Matches(salt.value + password, hashHex) || Matches(password + salt.value, hashHex))
  }

  lemma EmptyDecodes()
    ensures Decode([]) == Some([])
  {}

  /** A password passes exactly when the stored hash is the digest of salt and password in either order. */
  lemma VerifyComparesDigests(password: seq<byte>, hashHex: string, saltHex: string)
    ensures Verify(password, hashHex, saltHex) <==>
            && password != []
            && Decode(saltHex).Some?
            && var salt := Decode(saltHex).value;
               Decode(hashHex) in {Some(Sha256Of(salt + password)), Some(Sha256Of(password + salt))}
  {
    hide Sha256Of, Encode, Decode, ToUpperAscii;
    if hashHex == [] {
      EmptyDecodes();
    }
    if Decode(saltHex).Some? {
      var salt := Decode(saltHex).value;
      TextMatchIsByteMatch(Sha256Of(salt + password), hashHex);
      TextMatchIsByteMatch(Sha256Of(password + salt), hashHex);
    }
  }

  /** The verdict does not depend on the letter case in which hash and salt are stored. */
  lemma VerifyIgnoresCase(password: seq<byte>, hash1: string, salt1: string, hash2: string, salt2: string)
    requires SameUpToCase(hash1, hash2) && SameUpToCase(salt1, salt2)
    ensures Verify(password, hash1, salt1) == Verify(password, hash2, salt2)
  {
    DecodeIgnoresCase(salt1);
    DecodeIgnoresCase(salt2);
    assert hash1 == [] <==> ToUpperAscii(hash1) == [];
    assert hash2 == [] <==> ToUpperAscii(hash2) == [];
    hide Sha256Of, Encode, Decode;
  }

  // ---- the loops ----

  function After(out: seq<byte>, rest: Option<seq<byte>>): Option<seq<byte>> {
    match rest
    case None => None
    case Some(bytes) => Some(out + bytes)
  }

  lemma DecodeStep(out: seq<byte>, hex: string)
    requires |hex| >= 2
    ensures !IsHexDigit(hex[0]) || !IsHexDigit(hex[1]) ==> Decode(hex) == None
    ensures IsHexDigit(hex[0]) && IsHexDigit(hex[1]) ==>
              After(out, Decode(hex)) == After(out + [16 * HexNibble(hex[0]) + HexNibble(hex[1])], Decode(hex[2..]))
  {
    hide HexNibble;
    if Decode(hex).Some? {
      var b, rest := [16 * HexNibble(hex[0]) + HexNibble(hex[1])], Decode(hex[2..]).value;
      assert out + (b + rest) == out + b + rest;
    }
  }

  /** HexToBytes_ */
  method HexToBytes(hex: string) returns (ok: bool, out: seq<byte>)
    ensures ok == Decode(hex).Some?
    ensures ok ==> Decode(hex) == Some(out)
  {
    hide HexNibble, Decode;
    out := [];
    if |hex| % 2 != 0 {
      DecodeSucceeds(hex);
      return false, out;
    }
    var i := 0;
    assert hex[0..] == hex;
    StartAfter(Decode(hex));
    while i < |hex|
      invariant 0 <= i <= |hex| && i % 2 == 0
      invariant Decode(hex) == After(out, Decode(hex[i..]))
    {
      var hi, lo := HexNibble(hex[i]), HexNibble(hex[i + 1]);
      DecodeStep(out, hex[i..]);
      if hi < 0 || lo < 0 {
        return false, [];
      }
      assert hex[i..][2..] == hex[i + 2..];
      out := out + [16 * hi + lo];
      i := i + 2;
    }
    EmptyDecodes();
    assert hex[i..] == [] && out + [] == out;
    ok := true;
  }

  lemma StartAfter(rest: Option<seq<byte>>)
    ensures After([], rest) == rest
  {
    if rest.Some? {
      assert [] + rest.value == rest.value;
    }
  }

  lemma EncodeStep(out: string, bytes: seq<byte>, i: nat)
    requires i < |bytes|
    ensures out + Encode(bytes[i..]) == out + [UpperDigit(bytes[i] / 16), UpperDigit(bytes[i] % 16)] + Encode(bytes[i + 1..])
  {
    hide UpperDigit;
    assert bytes[i..][1..] == bytes[i + 1..];
  }

  /** ToUpperHex */
  method ToUpperHex(bytes: seq<byte>) returns (out: string)
    ensures out == Encode(bytes)
  {
    EmptyEncodes();
    hide UpperDigit, Encode;
    var text := new char[2 * |bytes|](_ => '0');
    assert text[..0] + Encode(bytes[0..]) == Encode(bytes) by {
      assert bytes[0..] == bytes;
    }
    for i := 0 to |bytes|
      invariant Encode(bytes) == text[..2 * i] + Encode(bytes[i..])
    {
      DigitTable(bytes[i] / 16);
      DigitTable(bytes[i] % 16);
      EncodeStep(text[..2 * i], bytes, i);
      text[2 * i] := DIGITS[bytes[i] / 16];
      text[2 * i + 1] := DIGITS[bytes[i] % 16];
      assert text[..2 * (i + 1)] == text[..2 * i] + [text[2 * i], text[2 * i + 1]];
    }
    assert bytes[|bytes|..] == [];
    out := text[..];
  }

  lemma EmptyEncodes()
    ensures Encode([]) == []
  {}

  method MatchSha256(input: seq<byte>, expectedHex: string) returns (r: bool)
    ensures r == Matches(input, expectedHex)
  {
    var digest := Sha256Bytes(input);
    var text := ToUpperHex(digest);
    r := text == ToUpperAscii(expectedHex);
  }

  /** VerifyPasswordHex_ */
  method VerifyPasswordHex(password: seq<byte>, hashHex: string, saltHex: string) returns (r: bool)
    ensures r == Verify(password, hashHex, saltHex)
  {
    if password == [] || hashHex == [] {
      return false;
    }
    var ok, salt := HexToBytes(saltHex);
    if !ok {
      return false;
    }
    r := MatchSha256(salt + password, hashHex);
    if !r {
      r := MatchSha256(password + salt, hashHex);
    }
  }
}
