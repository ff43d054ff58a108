/** The character layer of the share-link codec (public/js/gradients.js): the
    encoder turns standard base64 into the base64url alphabet of section 5 of
    RFC 4648 (`+` to `-`, `/` to `_`) and drops the `=` padding, as section 3.2
    allows; the decoder maps the two characters back and re-pads. */
module UrlToken {
  import opened Base64
  import opened JsStrings

  /** What the encoder's replacement callback makes of one character. */
  function UrlSafeChar(c: char): string {
    if c == '+' then "-" else if c == '/' then "_" else if c == '=' then "" else [c]
  }

  /** `b.replace(/[+/=]/g, ...)` as the encoder calls it. */
  function ToUrlSafe(b: string): (r: string)
    ensures forall i :: 0 <= i < |r| ==> r[i] != '+' && r[i] != '/' && r[i] != '='
    ensures |r| <= |b|
  {
    if b == [] then [] else UrlSafeChar(b[0]) + ToUrlSafe(b[1..])
  }

  /** The replacement works character by character: the encoding of a
      concatenation is the concatenation of the encodings. */
  lemma {:induction false} ToUrlSafeAppend(a: string, b: string)
    ensures ToUrlSafe(a + b) == ToUrlSafe(a) + ToUrlSafe(b)
  {
    if a == [] {
      assert a + b == b;
    } else {
      assert (a + b)[0] == a[0] && (a + b)[1..] == a[1..] + b;
      ToUrlSafeAppend(a[1..], b);
    }
  }

  /** Characters other than `+`, `/` and `=` are kept, in order. */
  lemma {:induction false} ToUrlSafeKeeps(b: string)
    requires forall i :: 0 <= i < |b| ==> b[i] != '+' && b[i] != '/' && b[i] != '='
    ensures ToUrlSafe(b) == b
  {
    if b != [] {
      ToUrlSafeKeeps(b[1..]);
    }
  }

  /** What the decoder's replacement callback makes of one character. */
  function StandardChar(c: char): char {
    if c == '-' then '+' else if c == '_' then '/' else c
  }

  /** `e.replace(/[-_]/g, ...)` as the decoder calls it. */
  function FromUrlSafe(e: string): (r: string)
    ensures |r| == |e|
    ensures forall i :: 0 <= i < |e| ==> r[i] == StandardChar(e[i])
  {
    if e == [] then [] else [StandardChar(e[0])] + FromUrlSafe(e[1..])
  }

  /** `'=='.slice(0, (4 - n % 4) % 4)` for a token of length `n`. */
  function RestoredPadding(e: string): (r: string)
    ensures |r| <= 2 && forall i :: 0 <= i < |r| ==> r[i] == '='
    ensures |r| == if |e| % 4 == 0 then 0 else if |e| % 4 == 1 then 2 else 4 - |e| % 4
  {
    Slice("==", 0, (4 - |e| % 4) % 4)
  }

  /** The standard base64 text the decoder hands to `atob`. */
  function ToBase64(e: string): string {
    FromUrlSafe(e) + RestoredPadding(e)
  }

  lemma {:induction false} UrlSafeOfAlphabet(core: string)
    requires AllBase64(core)
    ensures |ToUrlSafe(core)| == |core|
    ensures FromUrlSafe(ToUrlSafe(core)) == core
  {
    if core != [] {
      assert AllBase64(core[1..]) by {
        forall i | 0 <= i < |core[1..]| ensures IsBase64Char(core[1..][i]) { assert core[1..][i] == core[i + 1]; }
      }
      UrlSafeOfAlphabet(core[1..]);
      assert IsBase64Char(core[0]);
      if core[0] == '+' || core[0] == '/' {
        assert ToUrlSafe(core) == UrlSafeChar(core[0]) + ToUrlSafe(core[1..]);
      } else {
        assert ToUrlSafe(core) == [core[0]] + ToUrlSafe(core[1..]);
      }
    }
  }

  lemma {:induction false} UrlSafeOfPadding(pad: string)
    requires forall i :: 0 <= i < |pad| ==> pad[i] == '='
    ensures ToUrlSafe(pad) == []
  {
    if pad != [] {
      UrlSafeOfPadding(pad[1..]);
    }
  }

  lemma {:induction false} PaddingCount(n: nat, p: nat)
    requires p <= 2 && (n + p) % 4 == 0
    ensures (if n % 4 == 0 then 0 else if n % 4 == 1 then 2 else 4 - n % 4) == p
  {
  }

  lemma {:induction false} RoundTripWithPadding(core: string, pad: string)
    requires AllBase64(core) && |pad| <= 2 && (|core| + |pad|) % 4 == 0
    requires forall i :: 0 <= i < |pad| ==> pad[i] == '='
    ensures ToBase64(ToUrlSafe(core + pad)) == core + pad
  {
    var e := ToUrlSafe(core + pad);
    assert e == ToUrlSafe(core) by {
      ToUrlSafeAppend(core, pad);
      UrlSafeOfPadding(pad);
    }
    UrlSafeOfAlphabet(core);
    assert RestoredPadding(e) == pad by {
      PaddingCount(|core|, |pad|);
      var r := RestoredPadding(e);
      assert |r| == |pad|;
      forall i | 0 <= i < |r| ensures r[i] == pad[i] { }
    }
  }

  /** For every padded standard base64 string `b`, the decoder's preparation of
      the encoder's output gives back `b` exactly. */
  lemma {:induction false} UrlSafeRoundTrip(b: string)
    requires IsPaddedBase64(b)
    ensures ToBase64(ToUrlSafe(b)) == b
  {
    var k := if AllBase64(b) then 0 else if |b| >= 1 && b[|b| - 1] == '=' && AllBase64(b[..|b| - 1]) then 1 else 2;
    assert b == b[..|b| - k] + b[|b| - k..];
    RoundTripWithPadding(b[..|b| - k], b[|b| - k..]);
  }

  /** A token whose length leaves remainder 1 modulo 4 is re-padded with `==`,
      which no base64 length accepts. */
  lemma {:induction false} PaddingOfBadLength(e: string)
    requires |e| % 4 == 1
    ensures RestoredPadding(e) == "==" && |ToBase64(e)| % 4 == 3
  {
  }
}
