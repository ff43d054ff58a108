/** `src/index.js`: the Cloudflare Worker that serves the static site from KV
    storage and, for HTML pages, hands the `script[data-cf-beacon]` elements to
    an `AnalyticsRewriter` that substitutes the configured beacon token for the
    placeholder. The asset lookup and the configured token are parameters;
    HTML parsing and streaming are not part of this model. */
module Worker {
  import opened Prelude
  import opened JsStrings
  import opened Beacon

  const BeaconAttribute: string := "data-cf-beacon"

  /** An element as the HTML rewriter exposes it: its attributes by name. */
  class Element {
    var attributes: map<string, string>

    constructor(attributes: map<string, string>)
      ensures this.attributes == attributes
    {
      this.attributes := attributes;
    }

    /** `getAttribute(name)`; `None` stands for `null`. */
    function GetAttribute(name: string): (v: Option<string>)
      reads this
      ensures v.Some? <==> name in attributes
      ensures v.Some? ==> v.value == attributes[name]
    {
      if name in attributes then Some(attributes[name]) else None
    }

    method SetAttribute(name: string, value: string)
      modifies this
      ensures attributes == old(attributes)[name := value]
    {
      attributes := attributes[name := value];
    }
  }

  /** The attributes after the handler ran: only a present, non-empty (truthy)
      `data-cf-beacon` value is rewritten; every other attribute is kept. */
  function RewrittenAttributes(attrs: map<string, string>, token: string): (r: map<string, string>)
    ensures r.Keys == attrs.Keys
    ensures forall k :: k in attrs && k != BeaconAttribute ==> r[k] == attrs[k]
    ensures BeaconAttribute in attrs && attrs[BeaconAttribute] != [] ==>
      r[BeaconAttribute] == InsertToken(attrs[BeaconAttribute], token)
    ensures (BeaconAttribute !in attrs || attrs[BeaconAttribute] == []) ==> r == attrs
  {
    if BeaconAttribute in attrs && attrs[BeaconAttribute] != [] then
      attrs[BeaconAttribute := InsertToken(attrs[BeaconAttribute], token)]
    else attrs
  }

  /** A beacon value that no longer holds the placeholder, such as one already
      rewritten with a `$`-free token that does not contain it, is left alone,
      so running the handler again changes nothing. */
  lemma {:induction false} RewriteWithoutPlaceholder(attrs: map<string, string>, token: string)
    requires BeaconAttribute in attrs ==> IndexOf(attrs[BeaconAttribute], Placeholder).None?
    ensures RewrittenAttributes(attrs, token) == attrs
  {
  }

  /** The value the repository's page carries, a JSON object naming the
      placeholder as its token, receives a `$`-free token literally. */
  lemma {:induction false} BeaconJsonRewritten(token: string)
    requires NoDollar(token)
    ensures InsertToken("{\"token\": \"" + Placeholder + "\"}", token) == "{\"token\": \"" + token + "\"}"
  {
    var pre := "{\"token\": \"";
    var s := pre + Placeholder + "\"}";
    assert OccursAt(s, Placeholder, |pre|) by {
      assert s[|pre|..|pre| + |Placeholder|] == Placeholder;
    }
    forall j: nat | j < |pre| ensures !OccursAt(s, Placeholder, j) {
      assert s[j] == pre[j] && pre[j] != 'Y';
      assert s[j..j + |Placeholder|][0] == s[j];
    }
    ReplaceFirstLiteral(s, Placeholder, token, |pre|);
    assert s[..|pre|] == pre;
    assert s[|pre| + |Placeholder|..] == "\"}";
  }

  class AnalyticsRewriter {
    const token: string

    constructor(token: string)
      ensures this.token == token
    {
      this.token := token;
    }

    /** `element(element)`: the handler the rewriter calls for each matching
        element. */
    method Element(element: Element)
      modifies element
      ensures element.attributes == RewrittenAttributes(old(element.attributes), token)
    {
      var beacon := element.GetAttribute(BeaconAttribute);
      if beacon.Some? && beacon.value != [] {
        var updated := InsertToken(beacon.value, token);
        element.SetAttribute(BeaconAttribute, updated);
      }
    }
  }

  /** `contentType && contentType.includes('text/html')` followed by
      `analyticsToken && analyticsToken !== placeholder`; a missing header and
      an unset variable are `None`. */
  predicate ShouldRewrite(contentType: Option<string>, token: Option<string>) {
    contentType.Some? && contentType.value != [] && Includes(contentType.value, "text/html")
    && token.Some? && token.value != [] && token.value != Placeholder
  }

  /** An HTML page with a parameterised media type is rewritten; a page whose
      token was never configured, or configured empty, is not; neither is a
      stylesheet. */
  lemma {:induction false} RewriteDecisionExamples(token: string)
    requires token != [] && token != Placeholder
    ensures ShouldRewrite(Some("text/html; charset=utf-8"), Some(token))
    ensures !ShouldRewrite(Some("text/html"), Some(Placeholder))
    ensures !ShouldRewrite(Some("text/html"), Some(""))
    ensures !ShouldRewrite(Some("text/html"), None)
    ensures !ShouldRewrite(Some("text/css"), Some(token))
    ensures !ShouldRewrite(None, Some(token))
  {
    var ct := "text/html; charset=utf-8";
    assert OccursAt(ct, "text/html", 0) by { assert ct[0..9] == "text/html"; }
    assert |"text/html"| > |"text/css"|;
  }

  /** The stored asset `getAssetFromKV` resolves to. */
  datatype Asset = Asset(contentType: Option<string>, body: string)

  /** What the worker answers: the asset as stored, the asset streamed through
      a rewriter holding `token`, or an error response. */
  datatype Reply =
    | Served(asset: Asset)
    | Rewritten(asset: Asset, token: string)
    | Failure(status: nat, text: string)

  /** `fetch`: `found` is `None` when the asset lookup throws, which covers a
      missing asset. */
  function Fetch(found: Option<Asset>, token: Option<string>): (r: Reply)
    ensures r.Failure? <==> found.None?
    ensures r.Failure? ==> r.status == 404 && r.text == "Not Found"
    ensures r.Rewritten? <==> found.Some? && ShouldRewrite(found.value.contentType, token)
    ensures r.Rewritten? ==> r.asset == found.value && token == Some(r.token)
    ensures r.Served? ==> r.asset == found.value
  {
    match found
    case None => Failure(404, "Not Found")
    case Some(asset) =>
      if ShouldRewrite(asset.contentType, token) then Rewritten(asset, token.value) else Served(asset)
  }

  /** The rewriter the worker installs never substitutes an empty token or the
      placeholder itself. */
  lemma {:induction false} RewriteTokenIsConfigured(found: Option<Asset>, token: Option<string>)
    requires Fetch(found, token).Rewritten?
    ensures Fetch(found, token).token != [] && Fetch(found, token).token != Placeholder
    ensures Includes(found.value.contentType.value, "text/html")
  {
  }
}
