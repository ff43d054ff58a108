/** `scripts/setup-analytics.js`: the interactive setup that asks for a
    Cloudflare Web Analytics beacon token, checks its format, asks for a
    confirmation and writes the token into `wrangler.jsonc` and
    `public/index.html` in place of the placeholder. The two answers typed at
    the prompts and the contents of the two files are parameters; a file that
    cannot be read is `None`. */
module Analytics {
  import opened Prelude
  import opened JsStrings
  import opened HexDigits
  import opened Beacon

  /** `/^[a-f0-9]{32}$/i.test(token)`: exactly 32 radix-16 digits, either case. */
  function ValidateToken(token: string): (ok: bool)
    ensures ok <==> |token| == 32 && forall i :: 0 <= i < |token| ==> HexValue(token[i]).Some?
  {
    HexRunSpec(token);
    |token| == 32 && HexRun(token) == 32
  }

  /** A valid token holds no `$`, so `replace` inserts it literally. */
  lemma {:induction false} ValidTokenIsLiteral(token: string)
    requires ValidateToken(token)
    ensures NoDollar(token)
  {
    forall i | 0 <= i < |token| ensures token[i] != '$' {
      assert HexValue(token[i]).Some?;
    }
  }

  /** The placeholder itself is refused, and so is anything but 32 characters. */
  lemma {:induction false} PlaceholderIsInvalid()
    ensures !ValidateToken(Placeholder)
  {
    assert |Placeholder| == 33;
  }

  /** Two instances of the `ValidateToken` equivalence: a non-digit in the
      last place, and one character too few. */
  lemma {:induction false} InvalidTokenExamples()
    ensures !ValidateToken("0123456789abcdef0123456789abcdeg")
    ensures !ValidateToken("0123456789abcdef0123456789abcde")
  {
    var bad := "0123456789abcdef0123456789abcdeg";
    assert HexValue(bad[31]).None?;
  }

  /** `confirm.toLowerCase() === 'y' || confirm.toLowerCase() === 'yes'`. Only
      `Y`, `E` and `S` lower-case to `y`, `e` and `s`, so lower-casing ASCII
      letters alone gives the same answer. */
  predicate IsConfirmed(answer: string) {
    LowerAscii(answer) == "y" || LowerAscii(answer) == "yes"
  }

  /** The accepted answers are `y` and `yes` in any mix of cases, nothing more:
      no surrounding spaces, and an empty answer (the `N` default) declines. */
  lemma {:induction false} ConfirmedAnswers(answer: string)
    ensures IsConfirmed(answer) <==>
      (|answer| == 1 && answer[0] in "yY") ||
      (|answer| == 3 && answer[0] in "yY" && answer[1] in "eE" && answer[2] in "sS")
  {
    var l := LowerAscii(answer);
    if |answer| == 1 {
      assert l == "y" <==> l[0] == 'y';
    } else if |answer| == 3 {
      assert l == "yes" <==> l[0] == 'y' && l[1] == 'e' && l[2] == 's';
    } else {
      assert |l| != 1 && |l| != 3;
    }
  }

  /** What `updateAnalyticsToken` leaves on disk and the exit status it ends
      with; `None` for a file that is not written. */
  datatype FileUpdate = FileUpdate(wrangler: Option<string>, html: Option<string>, exitCode: nat)

  /** `updateAnalyticsToken(token)`: `wrangler.jsonc` is read, substituted and
      written before `index.html` is read, so a missing `index.html` leaves the
      first file already updated and ends the process with status 1. */
  function UpdateAnalyticsToken(token: string, wrangler: Option<string>, html: Option<string>): (r: FileUpdate)
    ensures r.exitCode == 0 <==> wrangler.Some? && html.Some?
    ensures r.exitCode != 0 ==> r.exitCode == 1
    ensures r.wrangler.Some? <==> wrangler.Some?
    ensures r.html.Some? <==> wrangler.Some? && html.Some?
    ensures r.wrangler.Some? ==> r.wrangler.value == InsertToken(wrangler.value, token)
    ensures r.html.Some? ==> r.html.value == InsertToken(html.value, token)
  {
    match wrangler
    case None => FileUpdate(None, None, 1)
    case Some(w) =>
      match html
      case None => FileUpdate(Some(InsertToken(w, token)), None, 1)
      case Some(h) => FileUpdate(Some(InsertToken(w, token)), Some(InsertToken(h, token)), 0)
  }

  /** How a run of the script ends. */
  datatype Outcome = NoToken | InvalidFormat | Cancelled | Finished(update: FileUpdate)

  /** The question flow: the typed token is trimmed, an empty one ends the
      script, a malformed one ends it, and only a confirmed valid token reaches
      the files. */
  function Setup(typedToken: string, answer: string, wrangler: Option<string>, html: Option<string>): (r: Outcome)
    ensures r.NoToken? <==> Trim(typedToken) == []
    ensures r.InvalidFormat? <==> Trim(typedToken) != [] && !ValidateToken(Trim(typedToken))
    ensures r.Cancelled? <==> ValidateToken(Trim(typedToken)) && !IsConfirmed(answer)
    ensures r.Finished? <==> ValidateToken(Trim(typedToken)) && IsConfirmed(answer)
    ensures r.Finished? ==> r.update == UpdateAnalyticsToken(Trim(typedToken), wrangler, html)
  {
    var token := Trim(typedToken);
    if token == [] then NoToken
    else if !ValidateToken(token) then InvalidFormat
    else if !IsConfirmed(answer) then Cancelled
    else Finished(UpdateAnalyticsToken(token, wrangler, html))
  }

  /** A completed setup puts the trimmed token, literally, in place of the first
      placeholder of each file, and leaves a file without a placeholder as it
      was. */
  lemma {:induction false} SetupWritesToken(typedToken: string, answer: string, w: string, h: string)
    requires Setup(typedToken, answer, Some(w), Some(h)).Finished?
    ensures var token := Trim(typedToken);
      var u := Setup(typedToken, answer, Some(w), Some(h)).update;
      u.exitCode == 0 && u.wrangler.Some? && u.html.Some? &&
      (IndexOf(w, Placeholder).None? ==> u.wrangler.value == w) &&
      (IndexOf(w, Placeholder).Some? ==>
        var i := IndexOf(w, Placeholder).value;
        u.wrangler.value == w[..i] + token + w[i + |Placeholder|..]) &&
      (IndexOf(h, Placeholder).Some? ==>
        var j := IndexOf(h, Placeholder).value;
        u.html.value == h[..j] + token + h[j + |Placeholder|..])
  {
    var token := Trim(typedToken);
    ValidTokenIsLiteral(token);
    if IndexOf(w, Placeholder).Some? { InsertLiteral(w, token); }
    if IndexOf(h, Placeholder).Some? { InsertLiteral(h, token); }
  }

  /** Whitespace typed around a valid token is dropped before the token is
      checked and written: the run goes exactly as with the bare token. */
  lemma {:induction false} SurroundingSpaceIgnored(p: string, t: string, q: string, answer: string, w: Option<string>, h: Option<string>)
    requires AllJsSpace(p) && AllJsSpace(q)
    requires ValidateToken(t)
    ensures Setup(p + t + q, answer, w, h) == Setup(t, answer, w, h)
  {
    assert HexValue(t[0]).Some? && HexValue(t[|t| - 1]).Some?;
    TrimAround(p, t, q);
    TrimAround([], t, []);
    assert [] + t + [] == t;
  }
}
