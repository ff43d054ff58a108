/** The Cloudflare Web Analytics placeholder that `wrangler.jsonc` and
    `public/index.html` ship with, and the substitution the setup script and the
    worker both make with it: `text.replace(Placeholder, token)` with a string
    pattern. */
module Beacon {
  import opened Prelude
  import opened JsStrings

  const Placeholder: string := "YOUR_CLOUDFLARE_BEACON_TOKEN_HERE"

  lemma {:induction false} PlaceholderShape()
    ensures |Placeholder| == 33 && Placeholder[0] == 'Y'
    ensures forall i :: 0 <= i < |Placeholder| ==> Placeholder[i] != '$'
  {
  }

  /** The first occurrence of the placeholder is replaced by the expansion of
      `token`; text without the placeholder is returned as it was. */
  function InsertToken(text: string, token: string): (r: string)
    ensures IndexOf(text, Placeholder).None? ==> r == text
    ensures IndexOf(text, Placeholder).Some? ==>
      var i := IndexOf(text, Placeholder).value;
      text[..i] <= r && |r| >= |text| - i - |Placeholder| && text[i + |Placeholder|..] == r[|r| - (|text| - i - |Placeholder|)..]
  {
    ReplaceFirst(text, Placeholder, token)
  }

  /** A token without `$` is inserted exactly once, in place of the first
      placeholder, and everything after that placeholder is kept. */
  lemma {:induction false} InsertLiteral(text: string, token: string)
    requires NoDollar(token) && IndexOf(text, Placeholder).Some?
    ensures var i := IndexOf(text, Placeholder).value;
      InsertToken(text, token) == text[..i] + token + text[i + |Placeholder|..]
  {
    var i := IndexOf(text, Placeholder).value;
    ReplaceFirstLiteral(text, Placeholder, token, i);
  }

  /** Only the first of two placeholders is substituted. */
  lemma {:induction false} SecondPlaceholderKept(token: string)
    requires NoDollar(token)
    ensures InsertToken(Placeholder + Placeholder, token) == token + Placeholder
  {
    var text := Placeholder + Placeholder;
    assert OccursAt(text, Placeholder, 0) by { assert text[0..|Placeholder|] == Placeholder; }
    ReplaceFirstLiteral(text, Placeholder, token, 0);
    assert text[|Placeholder|..] == Placeholder;
  }

  /** A token `$&` stands for the matched text: the placeholder is put back in
      place of itself. */
  lemma {:induction false} DollarTokenKeepsPlaceholder()
    ensures InsertToken(Placeholder, "$&") == Placeholder
  {
    var p := Placeholder;
    assert OccursAt(p, p, 0) by { assert p[0..|p|] == p; }
    assert p[..0] == [] && p[0 + |p|..] == [];
    assert Expand("$&", p, [], []) == p + Expand([], p, [], []);
  }
}
