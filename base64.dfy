/** `btoa` and `atob` as browsers define them: the standard base64 alphabet of
    section 4 of RFC 4648 with `=` padding on output, and the forgiving decoder
    of the WHATWG Infra standard (ASCII whitespace ignored, padding optional,
    any other stray character an error) on input. */
module Base64 {
  import opened Prelude

  /** The character for the 6-bit value `i`: `A`-`Z`, `a`-`z`, `0`-`9`, `+`, `/`. */
  function Base64Char(i: int): char
    requires 0 <= i < 64
  {
    if i < 26 then ('A' as int + i) as char
    else if i < 52 then ('a' as int + i - 26) as char
    else if i < 62 then ('0' as int + i - 52) as char
    else if i == 62 then '+'
    else '/'
  }

  /** The 6-bit value of an alphabet character; `None` for any other character. */
  function Base64Index(c: char): (r: Option<nat>)
    ensures r.Some? ==> r.value < 64
  {
    if 'A' <= c <= 'Z' then Some(c as int - 'A' as int)
    else if 'a' <= c <= 'z' then Some(c as int - 'a' as int + 26)
    else if '0' <= c <= '9' then Some(c as int - '0' as int + 52)
    else if c == '+' then Some(62)
    else if c == '/' then Some(63)
    else None
  }

  predicate IsBase64Char(c: char) {
    Base64Index(c).Some?
  }

  predicate AllBase64(s: string) {
    forall i :: 0 <= i < |s| ==> IsBase64Char(s[i])
  }

  lemma {:induction false} CharIndexRoundTrip(i: int)
    requires 0 <= i < 64
    ensures Base64Index(Base64Char(i)) == Some(i)
  {
  }

  /** The digits of `bs` without padding: four characters per three bytes, and
      two or three characters for a final group of one or two bytes. */
  function Digits64(bs: seq<Byte>): (r: string)
    ensures AllBase64(r)
    ensures |r| == (4 * |bs| + 2) / 3
    decreases |bs|
  {
    if |bs| == 0 then []
    else if |bs| == 1 then
      [Base64Char(bs[0] / 4), Base64Char((bs[0] % 4) * 16)]
    else if |bs| == 2 then
      [Base64Char(bs[0] / 4), Base64Char((bs[0] % 4) * 16 + bs[1] / 16), Base64Char((bs[1] % 16) * 4)]
    else
      [Base64Char(bs[0] / 4), Base64Char((bs[0] % 4) * 16 + bs[1] / 16),
       Base64Char((bs[1] % 16) * 4 + bs[2] / 64), Base64Char(bs[2] % 64)] + Digits64(bs[3..])
  }

  /** The `=` characters that complete the last group of four. */
  function Padding(n: nat): string {
    if n % 3 == 1 then "==" else if n % 3 == 2 then "=" else ""
  }

  /** Standard, padded base64 of a byte sequence. */
  function Encode(bs: seq<Byte>): string {
    Digits64(bs) + Padding(|bs|)
  }

  /** A string in the padded form of section 4 of RFC 4648: a multiple of four
      characters, alphabet characters followed by at most two `=`. */
  predicate IsPaddedBase64(b: string) {
    && |b| % 4 == 0
    && (|| AllBase64(b)
        || (|b| >= 1 && b[|b| - 1] == '=' && AllBase64(b[..|b| - 1]))
        || (|b| >= 2 && b[|b| - 2] == '=' && b[|b| - 1] == '=' && AllBase64(b[..|b| - 2])))
  }

  lemma {:induction false} EncodeIsPadded(bs: seq<Byte>)
    ensures IsPaddedBase64(Encode(bs))
  {
    var b := Encode(bs);
    var d := Digits64(bs);
    EncodeLength(bs);
    if Padding(|bs|) == "" {
      assert b == d;
    } else if Padding(|bs|) == "=" {
      assert b[..|b| - 1] == d;
    } else {
      assert b[..|b| - 2] == d;
    }
  }

  /** Every character of `s` is a single byte (a code unit below 256). */
  predicate IsLatin1(s: string) {
    forall i :: 0 <= i < |s| ==> (s[i] as int) < 256
  }

  function ToBytes(s: string): (bs: seq<Byte>)
    requires IsLatin1(s)
    ensures |bs| == |s| && forall i :: 0 <= i < |s| ==> bs[i] == s[i] as int
  {
    seq(|s|, i requires 0 <= i < |s| => s[i] as int)
  }

  /** The binary string whose characters are the given bytes. */
  function FromBytes(bs: seq<Byte>): (s: string)
    ensures |s| == |bs| && forall i :: 0 <= i < |bs| ==> s[i] as int == bs[i]
    ensures IsLatin1(s)
  {
    seq(|bs|, i requires 0 <= i < |bs| => bs[i] as char)
  }

  lemma {:induction false} Latin1RoundTrip(s: string)
    requires IsLatin1(s)
    ensures FromBytes(ToBytes(s)) == s
  {
  }

  /** `btoa(s)`: `None` for the `InvalidCharacterError` thrown when a character
      of `s` is not a single byte. */
  function Btoa(s: string): (r: Option<string>)
    ensures r.Some? <==> IsLatin1(s)
  {
    if IsLatin1(s) then Some(Encode(ToBytes(s))) else None
  }

  /** ASCII whitespace as the Infra standard defines it: tab, line feed, form
      feed, carriage return and space. */
  predicate IsAsciiWhitespace(c: char) {
    c == '\t' || c == '\n' || c == '\U{C}' || c == '\r' || c == ' '
  }

  function RemoveWhitespace(s: string): (r: string)
    ensures forall i :: 0 <= i < |r| ==> !IsAsciiWhitespace(r[i])
  {
    if s == [] then []
    else if IsAsciiWhitespace(s[0]) then RemoveWhitespace(s[1..])
    else [s[0]] + RemoveWhitespace(s[1..])
  }

  /** Whitespace removal works character by character: the result for a
      concatenation is the results for its parts, in order, and a single
      character is dropped exactly when it is whitespace. */
  lemma {:induction false} RemoveWhitespaceAppend(a: string, b: string)
    ensures RemoveWhitespace(a + b) == RemoveWhitespace(a) + RemoveWhitespace(b)
    ensures |a| == 1 ==> RemoveWhitespace(a) == (if IsAsciiWhitespace(a[0]) then [] else a)
    decreases |a|
  {
    if a == [] {
      assert a + b == b;
    } else {
      assert (a + b)[0] == a[0] && (a + b)[1..] == a[1..] + b;
      RemoveWhitespaceAppend(a[1..], b);
      if |a| == 1 {
        assert a[1..] == [];
      }
    }
  }

  /** Removes one or two trailing `=`. */
  function StripPadding(d: string): string {
    if |d| >= 2 && d[|d| - 2] == '=' && d[|d| - 1] == '=' then d[..|d| - 2]
    else if |d| >= 1 && d[|d| - 1] == '=' then d[..|d| - 1]
    else d
  }

  function Value(c: char): nat
    requires IsBase64Char(c)
    ensures Value(c) < 64
  {
    Base64Index(c).value
  }

  /** The bytes of a run of alphabet characters; the bits left over in a final
      group of two or three characters are discarded. A final lone character,
      which `Atob` refuses before decoding, gives no byte. */
  function DecodeDigits(cs: string): seq<Byte>
    requires AllBase64(cs)
    decreases |cs|
  {
    if |cs| <= 1 then []
    else if |cs| == 2 then
      [Value(cs[0]) * 4 + Value(cs[1]) / 16]
    else if |cs| == 3 then
      [Value(cs[0]) * 4 + Value(cs[1]) / 16, (Value(cs[1]) % 16) * 16 + Value(cs[2]) / 4]
    else
      [Value(cs[0]) * 4 + Value(cs[1]) / 16, (Value(cs[1]) % 16) * 16 + Value(cs[2]) / 4,
       (Value(cs[2]) % 4) * 64 + Value(cs[3])] + DecodeDigits(cs[4..])
  }

  /** The forgiving-base64 decode of the Infra standard, which `atob` runs;
      `None` for the `InvalidCharacterError` it throws. */
  function Atob(s: string): Option<seq<Byte>> {
    var d := RemoveWhitespace(s);
    var d' := if |d| % 4 == 0 then StripPadding(d) else d;
    if |d'| % 4 == 1 || !AllBase64(d') then None
    else Some(DecodeDigits(d'))
  }

  /** `atob(s)` as the binary string JavaScript returns. */
  function AtobText(s: string): (r: Option<string>)
    ensures r.Some? ==> IsLatin1(r.value)
  {
    match Atob(s)
    case None => None
    case Some(bs) => Some(FromBytes(bs))
  }

  lemma {:induction false} DecodeDigits64(bs: seq<Byte>)
    ensures DecodeDigits(Digits64(bs)) == bs
    decreases |bs|
  {
    if |bs| == 1 {
      CharIndexRoundTrip(bs[0] / 4);
      CharIndexRoundTrip((bs[0] % 4) * 16);
    } else if |bs| == 2 {
      CharIndexRoundTrip(bs[0] / 4);
      CharIndexRoundTrip((bs[0] % 4) * 16 + bs[1] / 16);
      CharIndexRoundTrip((bs[1] % 16) * 4);
    } else if |bs| >= 3 {
      DecodeFirstGroup(bs);
      DecodeDigits64(bs[3..]);
      assert bs == bs[..3] + bs[3..];
    }
  }

  /** The first four characters of a long enough encoding decode to the first
      three bytes. */
  lemma {:induction false} DecodeFirstGroup(bs: seq<Byte>)
    requires |bs| >= 3
    ensures DecodeDigits(Digits64(bs)) == bs[..3] + DecodeDigits(Digits64(bs[3..]))
  {
    var b0, b1, b2 := bs[0], bs[1], bs[2];
    GroupOfThree(b0, b1, b2);
    FirstGroupValues(bs);
    DecodeQuad(Digits64(bs), Digits64(bs[3..]), b0 / 4, (b0 % 4) * 16 + b1 / 16, (b1 % 16) * 4 + b2 / 64, b2 % 64);
  }

  /** The values of the first four characters `Digits64` writes. */
  lemma {:induction false} FirstGroupValues(bs: seq<Byte>)
    requires |bs| >= 3
    ensures var d := Digits64(bs);
      && |d| >= 4 && d[4..] == Digits64(bs[3..])
      && Value(d[0]) == bs[0] / 4 && Value(d[1]) == (bs[0] % 4) * 16 + bs[1] / 16
      && Value(d[2]) == (bs[1] % 16) * 4 + bs[2] / 64 && Value(d[3]) == bs[2] % 64
  {
    EncodeFirstGroup(bs);
    CharIndexRoundTrip(bs[0] / 4);
    CharIndexRoundTrip((bs[0] % 4) * 16 + bs[1] / 16);
    CharIndexRoundTrip((bs[1] % 16) * 4 + bs[2] / 64);
    CharIndexRoundTrip(bs[2] % 64);
  }

  /** `Digits64` writes the first three bytes as four characters. */
  lemma {:induction false} EncodeFirstGroup(bs: seq<Byte>)
    requires |bs| >= 3
    ensures var d := Digits64(bs);
      && |d| >= 4 && d[4..] == Digits64(bs[3..])
      && d[0] == Base64Char(bs[0] / 4) && d[1] == Base64Char((bs[0] % 4) * 16 + bs[1] / 16)
      && d[2] == Base64Char((bs[1] % 16) * 4 + bs[2] / 64) && d[3] == Base64Char(bs[2] % 64)
  {
  }

  /** `DecodeDigits` reads the first four characters as three bytes. */
  lemma {:induction false} DecodeQuad(d: string, rest: string, v0: nat, v1: nat, v2: nat, v3: nat)
    requires |d| >= 4 && AllBase64(d) && d[4..] == rest
    requires Value(d[0]) == v0 && Value(d[1]) == v1 && Value(d[2]) == v2 && Value(d[3]) == v3
    ensures AllBase64(rest)
    ensures DecodeDigits(d) == [v0 * 4 + v1 / 16, (v1 % 16) * 16 + v2 / 4, (v2 % 4) * 64 + v3] + DecodeDigits(rest)
  {
  }

  /** The four 6-bit values written for three bytes give the bytes back. */
  lemma {:induction false} GroupOfThree(b0: Byte, b1: Byte, b2: Byte)
    ensures var c0, c1, c2, c3 := b0 / 4, (b0 % 4) * 16 + b1 / 16, (b1 % 16) * 4 + b2 / 64, b2 % 64;
      && c0 < 64 && c1 < 64 && c2 < 64 && c3 < 64
      && c0 * 4 + c1 / 16 == b0 && (c1 % 16) * 16 + c2 / 4 == b1 && (c2 % 4) * 64 + c3 == b2
  {
  }

  lemma {:induction false} RemoveWhitespaceOfBase64(s: string)
    requires forall i :: 0 <= i < |s| ==> !IsAsciiWhitespace(s[i])
    ensures RemoveWhitespace(s) == s
  {
    if s != [] {
      RemoveWhitespaceOfBase64(s[1..]);
    }
  }

  lemma {:induction false} EncodeHasNoWhitespace(bs: seq<Byte>)
    ensures forall i :: 0 <= i < |Encode(bs)| ==> !IsAsciiWhitespace(Encode(bs)[i])
  {
    var e := Encode(bs);
    var d := Digits64(bs);
    forall i | 0 <= i < |e| ensures !IsAsciiWhitespace(e[i]) {
      if i < |d| { assert e[i] == d[i] && IsBase64Char(d[i]); }
    }
  }

  lemma {:induction false} StripEncode(bs: seq<Byte>)
    ensures StripPadding(Encode(bs)) == Digits64(bs)
  {
    var e := Encode(bs);
    var d := Digits64(bs);
    if |d| > 0 { assert IsBase64Char(d[|d| - 1]); }
    if Padding(|bs|) == "" {
      assert e == d;
    } else if Padding(|bs|) == "=" {
      assert e[|e| - 2] == d[|d| - 1];
      assert e[..|e| - 1] == d;
    } else {
      assert e[..|e| - 2] == d;
    }
  }

  lemma {:induction false} Mod4(q: nat, t: nat)
    requires t < 4
    ensures (4 * q + t) % 4 == t
  {
  }

  lemma {:induction false} EncodeLength(bs: seq<Byte>)
    ensures |Digits64(bs)| % 4 != 1 && |Encode(bs)| % 4 == 0
  {
    var q := |bs| / 3;
    var t := if |bs| % 3 == 0 then 0 else |bs| % 3 + 1;
    assert |bs| == 3 * q + |bs| % 3;
    assert |Digits64(bs)| == 4 * q + t;
    Mod4(q, t);
    if t == 0 {
      Mod4(q, 0);
    } else {
      assert |Encode(bs)| == 4 * (q + 1);
      Mod4(q + 1, 0);
    }
  }

  lemma {:induction false} AtobEncode(bs: seq<Byte>)
    ensures Atob(Encode(bs)) == Some(bs)
  {
    var e := Encode(bs);
    EncodeHasNoWhitespace(bs);
    RemoveWhitespaceOfBase64(e);
    EncodeLength(bs);
    StripEncode(bs);
    DecodeDigits64(bs);
  }

  /** `atob(btoa(s)) == s` for every string `btoa` accepts. */
  lemma {:induction false} AtobBtoa(s: string)
    requires IsLatin1(s)
    ensures Btoa(s).Some? && AtobText(Btoa(s).value) == Some(s)
  {
    AtobEncode(ToBytes(s));
    Latin1RoundTrip(s);
  }
}
