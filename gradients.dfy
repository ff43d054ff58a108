/** The settings store of the gradient generator (`GradientEngine`): four colour
    slots, an animation record, the name of the last applied preset, an observer
    list, the share-link codec and the CSS / SVG / embed-snippet generators. */
module Gradients {
  import opened Prelude
  import opened JsStrings
  import opened HexDigits
  import opened Base64
  import opened UrlToken
  import opened Templates

  /** A JavaScript object of colour strings, keyed `color1` .. `color4`. */
  type Colors = map<string, string>
  /** A JavaScript object of numbers, keyed `speed`, `complexity`, `scale`. */
  type Animation = map<string, real>

  datatype Settings = Settings(colors: Colors, animation: Animation, currentPreset: Option<string>)

  /** A named preset: its colours and the animation fields it overrides. */
  datatype Preset = Preset(colors: Colors, animation: Animation)

  const ColorKeys: seq<string> := ["color1", "color2", "color3", "color4"]
  const ColorKeySet: set<string> := {"color1", "color2", "color3", "color4"}
  const AnimationKeySet: set<string> := {"speed", "complexity", "scale"}

  /** The settings the engine starts with. */
  const DefaultSettings: Settings := Settings(
    map["color1" := "#ff6b6b", "color2" := "#4ecdc4", "color3" := "#45b7d1", "color4" := "#f7dc6f"],
    map["speed" := 1.0, "complexity" := 3.0, "scale" := 1.0],
    None)

  // ----- Object spread -----

  /** `r` is what `{ ...base, ...patch }` gives: every key of either object, the
      patch's value where the patch has the key and the base's value elsewhere. */
  ghost predicate Overrides<V>(r: map<string, V>, base: map<string, V>, patch: map<string, V>) {
    && r.Keys == base.Keys + patch.Keys
    && (forall k :: k in patch ==> r[k] == patch[k])
    && (forall k :: k in base && k !in patch ==> r[k] == base[k])
  }

  /** `{ ...base, ...patch }`. */
  function Spread<V>(base: map<string, V>, patch: map<string, V>): (r: map<string, V>)
    ensures Overrides(r, base, patch)
  {
    base + patch
  }

  /** Merging the same patch twice changes nothing the first merge did not. */
  lemma {:induction false} SpreadIdempotent<V>(base: map<string, V>, patch: map<string, V>)
    ensures Spread(Spread(base, patch), patch) == Spread(base, patch)
  {
  }

  /** Two merges in a row are one merge with the combined patch. */
  lemma {:induction false} SpreadCompose<V>(base: map<string, V>, p: map<string, V>, q: map<string, V>)
    ensures Spread(Spread(base, p), q) == Spread(base, Spread(p, q))
  {
  }

  // ----- The mutators as functions of the settings -----

  /** The settings after `setPreset(name, p)`: the colours are a copy of the
      preset's (nothing of the old colours survives), the animation is the old
      one overridden by the preset's fields, and the preset is recorded. */
  function SetPresetState(s: Settings, name: string, p: Preset): (r: Settings)
    ensures r.colors == p.colors
    ensures Overrides(r.animation, s.animation, p.animation)
    ensures r.currentPreset == Some(name)
  {
    Settings(p.colors, Spread(s.animation, p.animation), Some(name))
  }

  /** Applying the same preset twice gives the same settings as applying it once. */
  lemma {:induction false} SetPresetIdempotent(s: Settings, name: string, p: Preset)
    ensures SetPresetState(SetPresetState(s, name, p), name, p) == SetPresetState(s, name, p)
  {
    SpreadIdempotent(s.animation, p.animation);
  }

  // ----- Colour packing (the last line of hslToHex) -----

  /** Three colour channels after rounding. */
  datatype Rgb = Rgb(r: Byte, g: Byte, b: Byte)

  lemma {:induction false} Pow16Values()
    ensures Pow16(2) == 0x100 && Pow16(4) == 0x10000 && Pow16(6) == 0x1000000
  {
    assert Pow16(1) == 16;
    assert Pow16(3) == 0x1000;
    assert Pow16(5) == 0x100000;
  }

  lemma {:induction false} PackArithmetic(r: nat, g: nat, b: nat)
    requires r < 0x100 && g < 0x100 && b < 0x100
    ensures r * 0x10000 + g * 0x100 + b == (r * 0x100 + g) * 0x100 + b
    ensures r * 0x10000 + g * 0x100 + b < 0x1000000
  {
  }

  lemma {:induction false} PackDigits(c: Rgb)
    ensures ToHex(0x1000000 + c.r * 0x10000 + c.g * 0x100 + c.b) == "1" + Digits(c.r, 2) + Digits(c.g, 2) + Digits(c.b, 2)
  {
    Pow16Values();
    PackArithmetic(c.r, c.g, c.b);
    var v := c.r * 0x10000 + c.g * 0x100 + c.b;
    var hi := c.r * 0x100 + c.g;
    assert 0x1000000 + v == 1 * Pow16(6) + v;
    ToHexShift(1, v, 6);
    assert ToHex(1) == "1";
    assert v == hi * Pow16(2) + c.b;
    DigitsSplit(hi, c.b, 4, 2);
    assert hi == c.r * Pow16(2) + c.g;
    DigitsSplit(c.r, c.g, 2, 2);
  }

  /** `#${((1 << 24) + (r << 16) + (g << 8) + b).toString(16).slice(1)}`: the
      leading `1` keeps every channel at exactly two digits and is then cut off.
      The shifts stay within 32 bits for byte channels, so they are products. */
  function PackRgb(c: Rgb): (hex: string)
    ensures hex == "#" + Digits(c.r, 2) + Digits(c.g, 2) + Digits(c.b, 2)
    ensures |hex| == 7 && hex[0] == '#' && forall i :: 1 <= i < 7 ==> IsLowerHex(hex[i])
  {
    var t := ToHex((1 * 0x1000000) + c.r * 0x10000 + c.g * 0x100 + c.b);
    PackDigits(c);
    "#" + Slice(t, 1, |t|)
  }

  // ----- randomize -----

  /** The animation `randomize` draws from three values of `Math.random()`. */
  function RandomAnimation(speedDraw: real, complexityDraw: real, scaleDraw: real): (a: Animation)
    requires 0.0 <= speedDraw < 1.0 && 0.0 <= complexityDraw < 1.0 && 0.0 <= scaleDraw < 1.0
    ensures a.Keys == AnimationKeySet
    ensures 0.5 <= a["speed"] < 2.0 && 0.5 <= a["scale"] < 3.0
    ensures 1.0 <= a["complexity"] <= 5.0 && a["complexity"] == a["complexity"].Floor as real
  {
    var k := (complexityDraw * 5.0).Floor;
    assert 0 <= k <= 4;
    map["speed" := 0.5 + speedDraw * 1.5, "complexity" := (1 + k) as real, "scale" := 0.5 + scaleDraw * 2.5]
  }

  /** The settings after `randomize`: four packed colours, a fresh animation record
      and no current preset. The channels are what `hslToHex` rounds its random
      hue, saturation and lightness to. */
  function RandomSettings(c1: Rgb, c2: Rgb, c3: Rgb, c4: Rgb, speedDraw: real, complexityDraw: real, scaleDraw: real): (r: Settings)
    requires 0.0 <= speedDraw < 1.0 && 0.0 <= complexityDraw < 1.0 && 0.0 <= scaleDraw < 1.0
    ensures r.colors.Keys == ColorKeySet && r.animation.Keys == AnimationKeySet && r.currentPreset.None?
    ensures forall k :: k in r.colors ==> |r.colors[k]| == 7 && r.colors[k][0] == '#'
  {
    Settings(map["color1" := PackRgb(c1), "color2" := PackRgb(c2), "color3" := PackRgb(c3), "color4" := PackRgb(c4)],
             RandomAnimation(speedDraw, complexityDraw, scaleDraw), None)
  }

  // ----- The share link -----

  function Lookup<V>(m: map<string, V>, k: string): Option<V> {
    if k in m then Some(m[k]) else None
  }

  /** The record `encodeToURL` serialises: `c` the four colours, `s`, `x`, `z` the
      speed, complexity and scale. A missing value is `undefined`: JSON writes it
      as `null` inside the array and leaves the property out otherwise. */
  datatype UrlState = UrlState(c: seq<Option<string>>, s: Option<real>, x: Option<real>, z: Option<real>)

  function ShareState(s: Settings): UrlState {
    UrlState([Lookup(s.colors, "color1"), Lookup(s.colors, "color2"), Lookup(s.colors, "color3"), Lookup(s.colors, "color4")],
             Lookup(s.animation, "speed"), Lookup(s.animation, "complexity"), Lookup(s.animation, "scale"))
  }

  /** `encodeToURL`, given `JSON.stringify` on the record: base64 of the JSON text
      in the URL-safe alphabet without padding; `None` where `btoa` throws. */
  function EncodeSettings(s: Settings, stringify: UrlState -> string): (r: Option<string>)
    ensures r.Some? <==> IsLatin1(stringify(ShareState(s)))
    ensures r.Some? ==> forall i :: 0 <= i < |r.value| ==> r.value[i] != '+' && r.value[i] != '/' && r.value[i] != '='
  {
    match Btoa(stringify(ShareState(s)))
    case None => None
    case Some(b) => Some(ToUrlSafe(b))
  }

  /** What the decoder reads of `JSON.parse`'s result: `Malformed` when the parse
      throws, `NullValue` for the JSON `null`, on which reading a property throws;
      otherwise `c` is the array found under `c` (absent when there is no array)
      and `s`, `x`, `z` the properties of type number (absent when missing or of
      another type). Any other value, such as a number or a string, has none of them. */
  datatype Parsed =
    | Malformed
    | NullValue
    | Props(c: Option<seq<string>>, s: Option<real>, x: Option<real>, z: Option<real>)

  predicate AllPresent(cs: seq<Option<string>>) {
    forall i :: 0 <= i < |cs| ==> cs[i].Some?
  }

  function Present(cs: seq<Option<string>>): (r: seq<string>)
    requires AllPresent(cs)
    ensures |r| == |cs| && forall i :: 0 <= i < |cs| ==> r[i] == cs[i].value
  {
    seq(|cs|, i requires 0 <= i < |cs| => cs[i].value)
  }

  /** The two library calls carry this one record through: its colours are all
      strings, and parsing the text written for it gives back the array and the
      numbers. JSON does so for every record whose numbers are finite doubles
      (`NaN` and the infinities are written as `null`). */
  ghost predicate JsonRestores(stringify: UrlState -> string, parse: string -> Parsed, u: UrlState) {
    AllPresent(u.c) && parse(stringify(u)) == Props(Some(Present(u.c)), u.s, u.x, u.z)
  }

  /** The hypothesis can be met for every record with four colour strings, so the
      lemmas that assume it are not vacuous. */
  lemma {:induction false} JsonRestoresSatisfiable(u: UrlState)
    requires AllPresent(u.c)
    ensures exists stringify: UrlState -> string, parse: string -> Parsed :: JsonRestores(stringify, parse, u)
  {
    var parsed := Props(Some(Present(u.c)), u.s, u.x, u.z);
    var stringify := (v: UrlState) => "";
    var parse := (t: string) => parsed;
    assert JsonRestores(stringify, parse, u);
  }

  function FourColors(cs: seq<string>): (r: Colors)
    requires |cs| == 4
    ensures r.Keys == ColorKeySet && forall i :: 0 <= i < 4 ==> r[ColorKeys[i]] == cs[i]
  {
    map["color1" := cs[0], "color2" := cs[1], "color3" := cs[2], "color4" := cs[3]]
  }

  function SetIfNumber(a: Animation, k: string, v: Option<real>): Animation {
    if v.Some? then a[k := v.value] else a
  }

  /** The animation fields a parsed share link supplies: each of `speed`,
      `complexity` and `scale` for which a number was found. */
  function NumberFields(sp: Option<real>, cx: Option<real>, sc: Option<real>): (m: Animation)
    ensures m.Keys <= AnimationKeySet
    ensures ("speed" in m <==> sp.Some?) && ("complexity" in m <==> cx.Some?) && ("scale" in m <==> sc.Some?)
    ensures sp.Some? ==> m["speed"] == sp.value
    ensures cx.Some? ==> m["complexity"] == cx.value
    ensures sc.Some? ==> m["scale"] == sc.value
  {
    (if sp.Some? then map["speed" := sp.value] else map[])
    + (if cx.Some? then map["complexity" := cx.value] else map[])
    + (if sc.Some? then map["scale" := sc.value] else map[])
  }

  /** The three `typeof ... === 'number'` assignments of the decoder are one
      spread of the fields found. */
  lemma {:induction false} ScalarsSpread(a: Animation, sp: Option<real>, cx: Option<real>, sc: Option<real>)
    ensures SetIfNumber(SetIfNumber(SetIfNumber(a, "speed", sp), "complexity", cx), "scale", sc)
         == Spread(a, NumberFields(sp, cx, sc))
  {
  }

  /** The part of an animation record the share link carries. */
  function SharedAnimation(a: Animation): (r: Animation)
    ensures r.Keys == a.Keys * AnimationKeySet && forall k :: k in r ==> r[k] == a[k]
  {
    map k | k in a && k in AnimationKeySet :: a[k]
  }

  /** The settings after `decodeFromURL(encoded)` succeeds, or `None` when one of
      its steps throws. The colours are replaced all or nothing, each scalar on its
      own, and the current preset is cleared even when nothing else was applied. */
  function DecodeSettings(s: Settings, encoded: string, parse: string -> Parsed): (r: Option<Settings>)
    ensures AtobText(ToBase64(encoded)).None? ==> r.None?
    ensures AtobText(ToBase64(encoded)).Some? ==>
      var p := parse(AtobText(ToBase64(encoded)).value);
      && (r.Some? <==> p.Props?)
      && (p.Props? && p.c.Some? && |p.c.value| == 4 ==> r.value.colors == FourColors(p.c.value))
      && (p.Props? && (p.c.None? || |p.c.value| != 4) ==> r.value.colors == s.colors)
      && (p.Props? ==> r.value.animation == Spread(s.animation, NumberFields(p.s, p.x, p.z)))
    ensures r.Some? ==> r.value.currentPreset.None?
  {
    match AtobText(ToBase64(encoded))
    case None => None
    case Some(text) =>
      match parse(text)
      case Malformed => None
      case NullValue => None
      case Props(c, sp, cx, sc) =>
        var colors := if c.Some? && |c.value| == 4 then FourColors(c.value) else s.colors;
        var animation := SetIfNumber(SetIfNumber(SetIfNumber(s.animation, "speed", sp), "complexity", cx), "scale", sc);
        ScalarsSpread(s.animation, sp, cx, sc);
        Some(Settings(colors, animation, None))
  }

  /** The text the decoder hands to `JSON.parse` is the text the encoder serialised. */
  lemma {:induction false} TokenCarriesText(text: string, token: string)
    requires Btoa(text).Some? && token == ToUrlSafe(Btoa(text).value)
    ensures AtobText(ToBase64(token)) == Some(text)
  {
    var b := Encode(ToBytes(text));
    EncodeIsPadded(ToBytes(text));
    UrlSafeRoundTrip(b);
    AtobBtoa(text);
  }

  /** The numbers a share link carries are the shared part of the animation. */
  lemma {:induction false} SharedScalars(a: Animation)
    ensures NumberFields(Lookup(a, "speed"), Lookup(a, "complexity"), Lookup(a, "scale")) == SharedAnimation(a)
  {
  }

  /** Decoding a share link restores the shared colours and animation fields on
      top of whatever store decodes it, and clears the current preset. */
  lemma {:induction false} ShareLinkRoundTrip(s: Settings, s0: Settings, stringify: UrlState -> string, parse: string -> Parsed, token: string)
    requires JsonRestores(stringify, parse, ShareState(s))
    requires EncodeSettings(s, stringify) == Some(token)
    ensures DecodeSettings(s0, token, parse)
         == Some(Settings(FourColors(Present(ShareState(s).c)), Spread(s0.animation, SharedAnimation(s.animation)), None))
  {
    var u := ShareState(s);
    var text := stringify(u);
    TokenCarriesText(text, token);
    SharedScalars(s.animation);
  }

  /** For settings with exactly the four colour slots and the three animation
      fields, a share link reproduces them exactly on any store whose animation
      record has the same three fields. */
  lemma {:induction false} ShareLinkRestoresSettings(s: Settings, s0: Settings, stringify: UrlState -> string, parse: string -> Parsed, token: string)
    requires JsonRestores(stringify, parse, ShareState(s))
    requires EncodeSettings(s, stringify) == Some(token)
    requires s.colors.Keys == ColorKeySet && s.animation.Keys == AnimationKeySet && s0.animation.Keys == AnimationKeySet
    ensures DecodeSettings(s0, token, parse) == Some(s.(currentPreset := None))
  {
    ShareLinkRoundTrip(s, s0, stringify, parse, token);
    var cs := Present(ShareState(s).c);
    assert FourColors(cs) == s.colors;
    assert SharedAnimation(s.animation) == s.animation;
    assert Spread(s0.animation, s.animation) == s.animation;
  }

  /** The example of a fresh store: encoding the default settings and decoding
      the link on another fresh store gives the defaults again. */
  lemma {:induction false} DefaultShareLink(stringify: UrlState -> string, parse: string -> Parsed, token: string)
    requires JsonRestores(stringify, parse, ShareState(DefaultSettings))
    requires EncodeSettings(DefaultSettings, stringify) == Some(token)
    ensures DecodeSettings(DefaultSettings, token, parse) == Some(DefaultSettings)
  {
    ShareLinkRestoresSettings(DefaultSettings, DefaultSettings, stringify, parse, token);
  }

  lemma {:induction false} FromUrlSafeNoWhitespace(e: string)
    requires forall i :: 0 <= i < |e| ==> !IsAsciiWhitespace(e[i])
    ensures forall i :: 0 <= i < |ToBase64(e)| ==> !IsAsciiWhitespace(ToBase64(e)[i])
  {
    var b := ToBase64(e);
    forall i | 0 <= i < |b| ensures !IsAsciiWhitespace(b[i]) {
      if i < |e| { assert b[i] == StandardChar(e[i]); }
    }
  }

  /** A token of length 1 modulo 4 (without whitespace) never decodes: it is
      re-padded with `==`, which leaves a length `atob` rejects. */
  lemma {:induction false} DecodeRejectsBadLength(s: Settings, encoded: string, parse: string -> Parsed)
    requires |encoded| % 4 == 1
    requires forall i :: 0 <= i < |encoded| ==> !IsAsciiWhitespace(encoded[i])
    ensures DecodeSettings(s, encoded, parse).None?
  {
    var b := ToBase64(encoded);
    FromUrlSafeNoWhitespace(encoded);
    RemoveWhitespaceOfBase64(b);
    PaddingOfBadLength(encoded);
    assert b[|b| - 1] == '=';
    assert !IsBase64Char(b[|b| - 1]);
    assert Atob(b).None?;
  }

  lemma {:induction false} RemoveWhitespaceKeeps(s: string, i: nat)
    requires i < |s| && !IsAsciiWhitespace(s[i])
    ensures exists j :: 0 <= j < |RemoveWhitespace(s)| && RemoveWhitespace(s)[j] == s[i]
  {
    if i == 0 {
      assert RemoveWhitespace(s)[0] == s[0];
    } else {
      RemoveWhitespaceKeeps(s[1..], i - 1);
      var j :| 0 <= j < |RemoveWhitespace(s[1..])| && RemoveWhitespace(s[1..])[j] == s[1..][i - 1];
      if IsAsciiWhitespace(s[0]) {
        assert RemoveWhitespace(s)[j] == s[i];
      } else {
        assert RemoveWhitespace(s)[j + 1] == s[i];
      }
    }
  }

  /** A character outside both base64 alphabets that is neither whitespace nor
      `=` makes the decoder fail, wherever it stands. */
  lemma {:induction false} DecodeRejectsStrayCharacter(s: Settings, encoded: string, parse: string -> Parsed, i: nat)
    requires i < |encoded|
    requires !IsBase64Char(encoded[i]) && encoded[i] != '-' && encoded[i] != '_'
    requires !IsAsciiWhitespace(encoded[i]) && encoded[i] != '='
    ensures DecodeSettings(s, encoded, parse).None?
  {
    var b := ToBase64(encoded);
    assert b[i] == encoded[i];
    RemoveWhitespaceKeeps(b, i);
    var d := RemoveWhitespace(b);
    var j :| 0 <= j < |d| && d[j] == encoded[i];
    var d' := if |d| % 4 == 0 then StripPadding(d) else d;
    assert j < |d'| && d'[j] == encoded[i];
    assert !AllBase64(d');
  }

  // ----- Observers -----

  /** A registered change callback, identified by its registration handle. */
  type Observer = nat

  /** One callback invocation: the observer and the settings it was given. */
  datatype Delivery = Delivery(observer: Observer, snapshot: Settings)

  /** The invocations of one `notifyChange`: every callback in registration order,
      each given the current settings. */
  function Fanout(cbs: seq<Observer>, s: Settings): (r: seq<Delivery>)
    ensures |r| == |cbs| && forall i :: 0 <= i < |cbs| ==> r[i] == Delivery(cbs[i], s)
  {
    if cbs == [] then [] else Fanout(cbs[..|cbs| - 1], s) + [Delivery(cbs[|cbs| - 1], s)]
  }

  // ----- Templates of the generators -----

  const CssTemplate: Template := [
    Lit("background: linear-gradient(45deg, "), Color("color1"), Lit(", "), Color("color2"), Lit(", "),
    Color("color3"), Lit(", "), Color("color4"), Lit(");\nbackground-size: 400% 400%;\nanimation: gradientShift 8s ease infinite;\n\n@keyframes gradientShift {\n    0% { background-position: 0% 50%; }\n    50% { background-position: 100% 50%; }\n    100% { background-position: 0% 50%; }\n}")
  ]

  /** The opening of the SVG element with its size. */
  const SvgOpen: Template := [Lit("<svg width=\""), Arg("width"), Lit("\" height=\""), Arg("height")]

  /** The rest of the SVG document: the radial gradient with its four stops. */
  const SvgGradient: Template := [
    Lit("\" xmlns=\"http://www.w3.org/2000/svg\">\n    <defs>\n        <radialGradient id=\"grad1\" cx=\"20%\" cy=\"20%\" r=\"80%\">\n            <stop offset=\"0%\" style=\"stop-color:"),
    Color("color1"),
    Lit(";stop-opacity:1\" />\n            <stop offset=\"33%\" style=\"stop-color:"),
    Color("color2"),
    Lit(";stop-opacity:1\" />\n            <stop offset=\"66%\" style=\"stop-color:"),
    Color("color3"),
    Lit(";stop-opacity:1\" />\n            <stop offset=\"100%\" style=\"stop-color:"),
    Color("color4"),
    Lit(";stop-opacity:1\" />\n        </radialGradient>\n    </defs>\n    <rect width=\"100%\" height=\"100%\" fill=\"url(#grad1)\" />\n</svg>")
  ]

  const SvgTemplate: Template := SvgOpen + SvgGradient

  /** The embed snippet's rule for its class. */
  const EmbedRule: Template := [
    Lit("<!-- Gradient Background -->\n<style>\n."), Arg("id"),
    Lit(" {\n    background: linear-gradient(45deg, "), Color("color1"), Lit(", "), Color("color2"), Lit(", "),
    Color("color3"), Lit(", "), Color("color4")
  ]

  /** The rest of the embed snippet: the animation, its keyframes and the element. */
  const EmbedAnimation: Template := [
    Lit(");\n    background-size: 400% 400%;\n    animation: gradientShift-"), Arg("id"),
    Lit(" 8s ease infinite;\n}\n\n@keyframes gradientShift-"), Arg("id"),
    Lit(" {\n    0% { background-position: 0% 50%; }\n    50% { background-position: 100% 50%; }\n    100% { background-position: 0% 50%; }\n}\n</style>\n\n<div class=\""), Arg("id"),
    Lit("\">\n    <!-- Your content here -->\n</div>")
  ]

  const EmbedTemplate: Template := EmbedRule + EmbedAnimation

  /** Each generator places the four colours once each, in slot order. */
  lemma {:induction false} CssColorOrder()
    ensures ColorSlots(CssTemplate) == ColorKeys
  {
  }

  lemma {:induction false} SvgOpenSlots()
    ensures ColorSlots(SvgOpen) == [] && ArgSlots(SvgOpen) == ["width", "height"]
  {
  }

  lemma {:induction false} SvgGradientSlots()
    ensures ColorSlots(SvgGradient) == ColorKeys && ArgSlots(SvgGradient) == []
  {
  }

  lemma {:induction false} SvgSlots()
    ensures ColorSlots(SvgTemplate) == ColorKeys
    ensures ArgSlots(SvgTemplate) == ["width", "height"]
  {
    SvgOpenSlots();
    SvgGradientSlots();
    SlotsAppend(SvgOpen, SvgGradient);
  }

  lemma {:induction false} EmbedRuleSlots()
    ensures ColorSlots(EmbedRule) == ColorKeys && ArgSlots(EmbedRule) == ["id"]
  {
  }

  lemma {:induction false} EmbedAnimationSlots()
    ensures ColorSlots(EmbedAnimation) == [] && ArgSlots(EmbedAnimation) == ["id", "id", "id"]
  {
  }

  /** The embed snippet names its class and its keyframes after one identifier. */
  lemma {:induction false} EmbedSlots()
    ensures ColorSlots(EmbedTemplate) == ColorKeys
    ensures ArgSlots(EmbedTemplate) == ["id", "id", "id", "id"]
  {
    EmbedRuleSlots();
    EmbedAnimationSlots();
    SlotsAppend(EmbedRule, EmbedAnimation);
  }

  /** The width and height `generateSVG` uses when called without arguments. */
  const DefaultSvgWidth: nat := 800
  const DefaultSvgHeight: nat := 600

  class GradientEngine {
    var settings: Settings
    var callbacks: seq<Observer>
    /** Every callback invocation so far, in order. */
    var deliveries: seq<Delivery>
    /** The number of `notifyChange` calls so far. */
    var changes: nat

    constructor ()
      ensures settings == DefaultSettings && callbacks == [] && deliveries == [] && changes == 0
    {
      settings := DefaultSettings;
      callbacks := [];
      deliveries := [];
      changes := 0;
    }

    /** Exactly one notification went out, to every callback, with the current settings. */
    twostate predicate NotifiedOnce()
      reads this
    {
      changes == old(changes) + 1 && deliveries == old(deliveries) + Fanout(callbacks, settings)
    }

    method OnChange(callback: Observer)
      modifies this
      ensures callbacks == old(callbacks) + [callback]
      ensures settings == old(settings) && deliveries == old(deliveries) && changes == old(changes)
    {
      callbacks := callbacks + [callback];
    }

    method NotifyChange()
      modifies this
      ensures settings == old(settings) && callbacks == old(callbacks)
      ensures NotifiedOnce()
    {
      var i := 0;
      while i < |callbacks|
        invariant 0 <= i <= |callbacks|
        invariant settings == old(settings) && callbacks == old(callbacks) && changes == old(changes)
        invariant deliveries == old(deliveries) + Fanout(callbacks[..i], settings)
      {
        assert callbacks[..i + 1][..i] == callbacks[..i];
        deliveries := deliveries + [Delivery(callbacks[i], settings)];
        i := i + 1;
      }
      assert callbacks[..i] == callbacks;
      changes := changes + 1;
    }

    /** `updateColors(colors)`: merge; the animation and the current preset stay. */
    method UpdateColors(patch: Colors)
      modifies this
      ensures settings == Settings(Spread(old(settings).colors, patch), old(settings).animation, old(settings).currentPreset)
      ensures callbacks == old(callbacks) && NotifiedOnce()
    {
      settings := settings.(colors := Spread(settings.colors, patch));
      NotifyChange();
    }

    /** `updateAnimation(animation)`: merge; the colours and the current preset stay. */
    method UpdateAnimation(patch: Animation)
      modifies this
      ensures settings == Settings(old(settings).colors, Spread(old(settings).animation, patch), old(settings).currentPreset)
      ensures callbacks == old(callbacks) && NotifiedOnce()
    {
      settings := settings.(animation := Spread(settings.animation, patch));
      NotifyChange();
    }

    method SetPreset(name: string, preset: Preset)
      modifies this
      ensures settings == SetPresetState(old(settings), name, preset)
      ensures callbacks == old(callbacks) && NotifiedOnce()
    {
      settings := settings.(colors := preset.colors);
      settings := settings.(animation := Spread(settings.animation, preset.animation));
      settings := settings.(currentPreset := Some(name));
      NotifyChange();
    }

    /** `randomize()`, given the rounded channels of the four random colours and
      the three further draws of `Math.random()`. */
    method Randomize(c1: Rgb, c2: Rgb, c3: Rgb, c4: Rgb, speedDraw: real, complexityDraw: real, scaleDraw: real)
      requires 0.0 <= speedDraw < 1.0 && 0.0 <= complexityDraw < 1.0 && 0.0 <= scaleDraw < 1.0
      modifies this
      ensures settings == RandomSettings(c1, c2, c3, c4, speedDraw, complexityDraw, scaleDraw)
      ensures callbacks == old(callbacks) && NotifiedOnce()
    {
      settings := settings.(colors := map["color1" := PackRgb(c1), "color2" := PackRgb(c2), "color3" := PackRgb(c3), "color4" := PackRgb(c4)]);
      settings := settings.(animation := RandomAnimation(speedDraw, complexityDraw, scaleDraw));
      settings := settings.(currentPreset := None);
      NotifyChange();
    }

    function GetSettings(): Settings
      reads this
    {
      settings
    }

    function EncodeToURL(stringify: UrlState -> string): Option<string>
      reads this
    {
      EncodeSettings(settings, stringify)
    }

    /** `decodeFromURL(encoded)`, given `JSON.parse`. On failure nothing changes
        and no callback runs. */
    method DecodeFromURL(encoded: string, parse: string -> Parsed) returns (ok: bool)
      modifies this
      ensures ok == DecodeSettings(old(settings), encoded, parse).Some?
      ensures ok ==> settings == DecodeSettings(old(settings), encoded, parse).value && NotifiedOnce()
      ensures !ok ==> settings == old(settings) && deliveries == old(deliveries) && changes == old(changes)
      ensures callbacks == old(callbacks)
    {
      var base64 := ToBase64(encoded);
      var jsonString := AtobText(base64);
      if jsonString.None? {
        return false;
      }
      var state := parse(jsonString.value);
      if !state.Props? {
        return false;
      }
      if state.c.Some? && |state.c.value| == 4 {
        settings := settings.(colors := FourColors(state.c.value));
      }
      if state.s.Some? {
        settings := settings.(animation := settings.animation["speed" := state.s.value]);
      }
      if state.x.Some? {
        settings := settings.(animation := settings.animation["complexity" := state.x.value]);
      }
      if state.z.Some? {
        settings := settings.(animation := settings.animation["scale" := state.z.value]);
      }
      settings := settings.(currentPreset := None);
      NotifyChange();
      ok := true;
    }

    function GenerateCSS(): string
      reads this
    {
      Render(CssTemplate, settings.colors, map[])
    }

    function GenerateSVG(width: nat, height: nat): string
      reads this
    {
      Render(SvgTemplate, settings.colors, map["width" := NatText(width), "height" := NatText(height)])
    }

    /** `generateEmbedCode()`, given the value of `Date.now()`. */
    function GenerateEmbedCode(now: nat): string
      reads this
    {
      Render(EmbedTemplate, settings.colors, map["id" := "gradient-" + NatText(now)])
    }
  }
}
