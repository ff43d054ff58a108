/** Hexadecimal text as JavaScript produces and reads it: `Number.prototype.toString(16)`
    on non-negative integers, and `parseInt(s, 16)`. */
module HexDigits {
  import opened Prelude
  import opened JsStrings

  /** The lower-case digit for `d`, as `toString(16)` writes it. */
  function HexDigit(d: int): (c: char)
    requires 0 <= d < 16
  {
    if d < 10 then ('0' as int + d) as char else ('a' as int + d - 10) as char
  }

  predicate IsLowerHex(c: char) {
    ('0' <= c <= '9') || ('a' <= c <= 'f')
  }

  /** The value of a digit of radix 16, in either case; `None` for any other character. */
  function HexValue(c: char): (r: Option<nat>)
    ensures r.Some? ==> r.value < 16
  {
    var n := c as int;
    if '0' as int <= n <= '9' as int then Some(n - '0' as int)
    else if 'a' as int <= n <= 'f' as int then Some(n - 'a' as int + 10)
    else if 'A' as int <= n <= 'F' as int then Some(n - 'A' as int + 10)
    else None
  }

  lemma {:induction false} HexDigitRoundTrip(d: int)
    requires 0 <= d < 16
    ensures IsLowerHex(HexDigit(d)) && HexValue(HexDigit(d)) == Some(d)
  {
  }

  function Pow16(k: nat): (p: nat)
    ensures p >= 1
  {
    if k == 0 then 1 else 16 * Pow16(k - 1)
  }

  /** `n.toString(16)` for a non-negative integer: most significant digit first,
      no leading zeros. */
  function ToHex(n: nat): string
    decreases n
  {
    if n < 16 then [HexDigit(n)] else ToHex(n / 16) + [HexDigit(n % 16)]
  }

  /** The lowest `k` hexadecimal digits of `n`, most significant first. */
  function Digits(n: nat, k: nat): (r: string)
    ensures |r| == k
    ensures forall i :: 0 <= i < k ==> IsLowerHex(r[i])
  {
    if k == 0 then [] else Digits(n / 16, k - 1) + [HexDigit(n % 16)]
  }

  lemma {:induction false} DivMod16(a: nat, b: nat)
    ensures (16 * a + b) / 16 == a + b / 16 && (16 * a + b) % 16 == b % 16
  {
  }

  /** One step of the digit recursions: dividing `n * 16p + v` by 16. */
  lemma {:induction false} ShiftStep(n: nat, p: nat, v: nat)
    requires p >= 1 && v < 16 * p
    ensures (n * (16 * p) + v) / 16 == n * p + v / 16
    ensures (n * (16 * p) + v) % 16 == v % 16
    ensures v / 16 < p
    ensures n >= 1 ==> n * (16 * p) + v >= 16
  {
    assert n * (16 * p) + v == 16 * (n * p) + v;
    DivMod16(n * p, v);
    if n >= 1 {
      assert n * p >= p;
    }
  }

  /** Writing `n * 16^k + v` in hexadecimal gives the digits of `n` followed by
      exactly `k` digits of `v`. */
  lemma {:induction false} ToHexShift(n: nat, v: nat, k: nat)
    requires n >= 1 && v < Pow16(k)
    ensures ToHex(n * Pow16(k) + v) == ToHex(n) + Digits(v, k)
  {
    if k > 0 {
      var p := Pow16(k - 1);
      assert Pow16(k) == 16 * p;
      ShiftStep(n, p, v);
      ToHexShift(n, v / 16, k - 1);
      var m := n * Pow16(k) + v;
      assert ToHex(m) == ToHex(m / 16) + [HexDigit(m % 16)];
    }
  }

  /** The `j + k` low digits of `a * 16^k + b` are the `j` low digits of `a`
      followed by the `k` digits of `b`. */
  lemma {:induction false} DigitsSplit(a: nat, b: nat, j: nat, k: nat)
    requires b < Pow16(k)
    ensures Digits(a * Pow16(k) + b, j + k) == Digits(a, j) + Digits(b, k)
  {
    if k > 0 {
      var p := Pow16(k - 1);
      assert Pow16(k) == 16 * p;
      ShiftStep(a, p, b);
      DigitsSplit(a, b / 16, j, k - 1);
      assert j + k - 1 == j + (k - 1);
    }
  }

  lemma {:induction false} TwoDigits(v: nat)
    requires v < 256
    ensures Digits(v, 2) == [HexDigit(v / 16), HexDigit(v % 16)]
  {
    var hi := v / 16;
    assert hi < 16 && hi / 16 == 0 && hi % 16 == hi;
    assert Digits(hi, 1) == Digits(0, 0) + [HexDigit(hi)];
    assert Digits(v, 2) == Digits(hi, 1) + [HexDigit(v % 16)];
  }

  /** The number of radix-16 digits in a row from position `i` on. */
  function HexRunFrom(s: string, i: nat): (n: nat)
    requires i <= |s|
    ensures i + n <= |s|
    decreases |s| - i
  {
    if i < |s| && HexValue(s[i]).Some? then 1 + HexRunFrom(s, i + 1) else 0
  }

  lemma {:induction false} HexRunFromSpec(s: string, i: nat)
    requires i <= |s|
    ensures var n := HexRunFrom(s, i);
      && (forall k :: i <= k < i + n ==> HexValue(s[k]).Some?)
      && (i + n < |s| ==> HexValue(s[i + n]).None?)
    decreases |s| - i
  {
    if i < |s| && HexValue(s[i]).Some? {
      HexRunFromSpec(s, i + 1);
    }
  }

  /** The length of the longest prefix of `s` made of radix-16 digits. */
  function HexRun(s: string): (n: nat)
    ensures n <= |s|
  {
    HexRunFrom(s, 0)
  }

  /** The run is made of digits and is followed by none. */
  lemma {:induction false} HexRunSpec(s: string)
    ensures var n := HexRun(s);
      && (forall i :: 0 <= i < n ==> HexValue(s[i]).Some?)
      && (n < |s| ==> HexValue(s[n]).None?)
  {
    HexRunFromSpec(s, 0);
  }

  /** The value of the radix-16 digits at positions `lo` up to `hi`, most
      significant first. */
  function HexNumberIn(s: string, lo: nat, hi: nat): nat
    requires lo <= hi <= |s| && forall i :: lo <= i < hi ==> HexValue(s[i]).Some?
    decreases hi
  {
    if hi == lo then 0 else 16 * HexNumberIn(s, lo, hi - 1) + HexValue(s[hi - 1]).value
  }

  /** The value of a string of radix-16 digits. */
  function HexNumber(ds: string): nat
    requires forall i :: 0 <= i < |ds| ==> HexValue(ds[i]).Some?
  {
    HexNumberIn(ds, 0, |ds|)
  }

  /** `parseInt(s, 16)`: leading whitespace is skipped, an optional sign and an
      optional `0x` / `0X` prefix are read, then the longest run of radix-16 digits;
      `None` stands for `NaN`, the result when that run is empty. The positions
      `i`, `j` and `k` are where the sign, the prefix and the digits start. */
  function ParseInt16(s: string): Option<int>
  {
    var i := SpacesFrom(s, 0);
    var sign := if i < |s| && s[i] == '-' then -1 else 1;
    var j := if i < |s| && (s[i] == '-' || s[i] == '+') then i + 1 else i;
    var k := if j + 2 <= |s| && s[j] == '0' && (s[j + 1] == 'x' || s[j + 1] == 'X') then j + 2 else j;
    var n := HexRunFrom(s, k);
    HexRunFromSpec(s, k);
    if n == 0 then None else Some(sign * HexNumberIn(s, k, k + n))
  }

  /** A non-empty string made only of radix-16 digits parses to its value. */
  lemma {:induction false} ParseDigitsOnly(s: string)
    requires s != [] && forall i :: 0 <= i < |s| ==> HexValue(s[i]).Some?
    ensures ParseInt16(s) == Some(HexNumber(s))
  {
    assert !IsJsSpace(s[0]) && SpacesFrom(s, 0) == 0;
    assert s[0] != '-' && s[0] != '+';
    assert |s| >= 2 ==> s[1] != 'x' && s[1] != 'X';
    HexRunFromSpec(s, 0);
    assert HexRunFrom(s, 0) == |s|;
  }

  /** Two digits of radix 16, in either case, parse to their value. */
  lemma {:induction false} ParseTwoDigits(a: char, b: char)
    requires HexValue(a).Some? && HexValue(b).Some?
    ensures ParseInt16([a, b]) == Some(16 * HexValue(a).value + HexValue(b).value)
  {
    TwoDigitsOnly(a, b);
    ParseDigitsOnly([a, b]);
    HexNumberTwo(a, b);
  }

  lemma {:induction false} TwoDigitsOnly(a: char, b: char)
    requires HexValue(a).Some? && HexValue(b).Some?
    ensures forall i :: 0 <= i < |[a, b]| ==> HexValue([a, b][i]).Some?
  {
  }

  lemma {:induction false} HexNumberTwo(a: char, b: char)
    requires HexValue(a).Some? && HexValue(b).Some?
    ensures HexNumber([a, b]) == 16 * HexValue(a).value + HexValue(b).value
  {
    var s := [a, b];
    assert HexNumberIn(s, 0, 1) == HexValue(a).value;
  }

  /** One radix-16 digit parses to its value. */
  lemma {:induction false} ParseOneDigit(c: char)
    requires HexValue(c).Some?
    ensures ParseInt16([c]) == Some(HexValue(c).value)
  {
    ParseDigitsOnly([c]);
    assert HexNumberIn([c], 0, 0) == 0;
  }

  /** No digits at all parse to `NaN`. */
  lemma {:induction false} ParseEmpty()
    ensures ParseInt16([]) == None
  {
  }

  lemma {:induction false} LowerHexDigits(s: string)
    requires forall i :: 0 <= i < |s| ==> IsLowerHex(s[i])
    ensures forall i :: 0 <= i < |s| ==> HexValue(s[i]).Some?
  {
  }

  /** The two lower-case digits of a byte are worth the byte. */
  lemma {:induction false} HexNumberOfByte(v: nat)
    requires v < 256
    ensures HexNumber(Digits(v, 2)) == v
  {
    TwoDigits(v);
    HexDigitRoundTrip(v / 16);
    HexDigitRoundTrip(v % 16);
    HexNumberTwo(HexDigit(v / 16), HexDigit(v % 16));
  }

  /** The two lower-case digits of a byte parse back to the byte. */
  lemma {:induction false} ParseByteDigits(v: nat)
    requires v < 256
    ensures ParseInt16(Digits(v, 2)) == Some(v)
  {
    LowerHexDigits(Digits(v, 2));
    ParseDigitsOnly(Digits(v, 2));
    HexNumberOfByte(v);
  }

  /** Two digits are worth less than 256. */
  lemma {:induction false} HexNumberPairBound(s: string)
    requires |s| == 2 && forall i :: 0 <= i < |s| ==> HexValue(s[i]).Some?
    ensures HexNumber(s) < 256
  {
    assert s == [s[0], s[1]];
    HexNumberTwo(s[0], s[1]);
  }
}
