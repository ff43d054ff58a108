/** The export manager (public/js/export.js): the vertical flip of the pixels
    read back from WebGL, the full CSS export, and the settings file it writes
    and reads. */
module Export {
  import opened Prelude
  import opened Templates
  import opened Gradients

  // ----- The vertical flip of exportPNGFallback -----

  lemma {:induction false} MulAtLeast(d: nat, t: int)
    requires t >= 1
    ensures d * t >= d
  {
  }

  lemma {:induction false} DivModOf(q: nat, r: nat, d: nat)
    requires r < d
    ensures (q * d + r) / d == q && (q * d + r) % d == r
  {
    var n := q * d + r;
    var t := n / d - q;
    assert d * t == r - n % d;
    if t > 0 {
      MulAtLeast(d, t);
    } else if t < 0 {
      MulAtLeast(d, -t);
    }
  }

  lemma {:induction false} RowBound(i: nat, w: nat, h: nat)
    requires i < w * h * 4
    ensures 0 < w && 0 < h && i / (4 * w) < h
  {
    assert w * h * 4 == h * (4 * w);
  }

  lemma {:induction false} RowStartBound(y: nat, rest: nat, w: nat, h: nat)
    requires y < h && rest < 4 * w
    ensures y * (4 * w) + rest < w * h * 4
  {
    assert y * (4 * w) + rest < (y + 1) * (4 * w);
    assert (y + 1) * (4 * w) <= h * (4 * w);
    assert h * (4 * w) == w * h * 4;
  }

  /** The byte of the read-back buffer that lands at offset `i` of the image:
      the same column and channel, in the mirrored row. */
  function FlipIndex(i: nat, w: nat, h: nat): (j: nat)
    requires i < w * h * 4
    ensures j < w * h * 4
  {
    RowBound(i, w, h);
    var y := i / (4 * w);
    RowStartBound(h - 1 - y, i % (4 * w), w, h);
    (h - 1 - y) * (4 * w) + i % (4 * w)
  }

  /** The vertically mirrored copy of a `w` by `h` RGBA buffer. */
  function Flipped(p: seq<Byte>, w: nat, h: nat): (r: seq<Byte>)
    requires |p| == w * h * 4
    ensures |r| == |p|
  {
    seq(|p|, i requires 0 <= i < |p| => p[FlipIndex(i, w, h)])
  }

  /** Both offsets the loop computes for pixel `(x, y)` and channel `k` lie in
      the buffer, and the source one is where the flip reads that byte. */
  lemma {:induction false} PixelIndex(y: nat, x: nat, k: nat, w: nat, h: nat)
    requires y < h && x < w && k < 4
    ensures (y * w + x) * 4 + k < w * h * 4
    ensures ((h - 1 - y) * w + x) * 4 + k < w * h * 4
    ensures FlipIndex((y * w + x) * 4 + k, w, h) == ((h - 1 - y) * w + x) * 4 + k
  {
    var i := (y * w + x) * 4 + k;
    assert i == y * (4 * w) + (4 * x + k);
    RowStartBound(y, 4 * x + k, w, h);
    DivModOf(y, 4 * x + k, 4 * w);
    assert ((h - 1 - y) * w + x) * 4 + k == (h - 1 - y) * (4 * w) + (4 * x + k);
    RowStartBound(h - 1 - y, 4 * x + k, w, h);
  }

  /** Row `y` of the image is row `h - 1 - y` of the read-back buffer. */
  lemma {:induction false} FlippedPixel(p: seq<Byte>, w: nat, h: nat, y: nat, x: nat, k: nat)
    requires |p| == w * h * 4 && y < h && x < w && k < 4
    ensures (y * w + x) * 4 + k < |p| && ((h - 1 - y) * w + x) * 4 + k < |p|
    ensures (PixelIndex(y, x, k, w, h); Flipped(p, w, h)[(y * w + x) * 4 + k] == p[((h - 1 - y) * w + x) * 4 + k])
  {
    PixelIndex(y, x, k, w, h);
  }

  lemma {:induction false} FlipIndexInvolutive(i: nat, w: nat, h: nat)
    requires i < w * h * 4
    ensures FlipIndex(FlipIndex(i, w, h), w, h) == i
  {
    RowBound(i, w, h);
    var y := i / (4 * w);
    var rest := i % (4 * w);
    DivModOf(h - 1 - y, rest, 4 * w);
  }

  /** Flipping twice gives back the original buffer. */
  lemma {:induction false} FlipInvolutive(p: seq<Byte>, w: nat, h: nat)
    requires |p| == w * h * 4
    ensures Flipped(Flipped(p, w, h), w, h) == p
  {
    var q := Flipped(Flipped(p, w, h), w, h);
    forall i | 0 <= i < |p| ensures q[i] == p[i] {
      FlipIndexInvolutive(i, w, h);
    }
  }

  /** The first `n` bytes of `d` already hold the flipped copy of `p`. */
  ghost predicate FlippedUpTo(d: seq<Byte>, p: seq<Byte>, w: nat, h: nat, n: nat) {
    && |d| == |p| == w * h * 4
    && forall i :: 0 <= i < n && i < |d| ==> d[i] == p[FlipIndex(i, w, h)]
  }

  /** Copying the four bytes of one pixel, from `src` on to `dst` on, extends
      the flipped prefix by that pixel. */
  lemma {:induction false} FlipStep(before: seq<Byte>, after: seq<Byte>, p: seq<Byte>, w: nat, h: nat, dst: nat, src: nat)
    requires FlippedUpTo(before, p, w, h, dst) && |after| == |before|
    requires dst + 3 < |after| && src + 3 < |p|
    requires FlipIndex(dst, w, h) == src && FlipIndex(dst + 1, w, h) == src + 1
    requires FlipIndex(dst + 2, w, h) == src + 2 && FlipIndex(dst + 3, w, h) == src + 3
    requires forall i :: 0 <= i < dst ==> after[i] == before[i]
    requires after[dst] == p[src] && after[dst + 1] == p[src + 1] && after[dst + 2] == p[src + 2] && after[dst + 3] == p[src + 3]
    ensures FlippedUpTo(after, p, w, h, dst + 4)
  {
    forall i | 0 <= i < dst + 4 && i < |after| ensures after[i] == p[FlipIndex(i, w, h)] {
      if i < dst {
        assert after[i] == before[i];
      } else if i == dst {
      } else if i == dst + 1 {
      } else if i == dst + 2 {
      } else {
        assert i == dst + 3;
      }
    }
  }

  /** The nested loop that copies `pixels` into the image data upside down; it
      writes every byte of `data`. */
  method FlipRows(pixels: array<Byte>, data: array<Byte>, width: nat, height: nat)
    requires pixels.Length == width * height * 4 && data.Length == width * height * 4
    requires pixels != data
    modifies data
    ensures data[..] == Flipped(pixels[..], width, height)
  {
    for y := 0 to height
      invariant FlippedUpTo(data[..], pixels[..], width, height, y * width * 4)
    {
      for x := 0 to width
        invariant FlippedUpTo(data[..], pixels[..], width, height, (y * width + x) * 4)
      {
        CopyPixel(pixels, data, width, height, y, x);
      }
      assert (y * width + width) * 4 == (y + 1) * width * 4;
    }
    assert height * width * 4 == data.Length;
  }

  /** The body of the inner loop: the four bytes of pixel `(x, y)` are copied
      from the mirrored row. */
  method CopyPixel(pixels: array<Byte>, data: array<Byte>, width: nat, height: nat, y: nat, x: nat)
    requires pixels.Length == width * height * 4 && data.Length == width * height * 4
    requires pixels != data && y < height && x < width
    requires FlippedUpTo(data[..], pixels[..], width, height, (y * width + x) * 4)
    modifies data
    ensures FlippedUpTo(data[..], pixels[..], width, height, (y * width + x + 1) * 4)
  {
    var srcIndex := ((height - y - 1) * width + x) * 4;
    var dstIndex := (y * width + x) * 4;
    PixelIndex(y, x, 0, width, height);
    PixelIndex(y, x, 1, width, height);
    PixelIndex(y, x, 2, width, height);
    PixelIndex(y, x, 3, width, height);
    ghost var before := data[..];
    data[dstIndex] := pixels[srcIndex];
    data[dstIndex + 1] := pixels[srcIndex + 1];
    data[dstIndex + 2] := pixels[srcIndex + 2];
    data[dstIndex + 3] := pixels[srcIndex + 3];
    FlipStep(before, data[..], pixels[..], width, height, dstIndex, srcIndex);
    assert (y * width + x + 1) * 4 == dstIndex + 4;
  }

  // ----- generateFullCSS -----

  /** A JavaScript number of seconds: finite, or the results of `12 / 0` and of
      `12 / undefined`. */
  datatype Duration = Seconds(value: real) | Infinity | NaN

  /** `Math.max(4, 12 / speed)`, with `None` for a missing speed. */
  function AnimationDuration(speed: Option<real>): (d: Duration)
    ensures speed.None? <==> d.NaN?
    ensures speed == Some(0.0) <==> d.Infinity?
    ensures d.Seconds? ==> d.value >= 4.0
    ensures speed.Some? && speed.value > 0.0 ==> (d == Seconds(12.0 / speed.value) <==> speed.value <= 3.0)
    ensures speed.Some? && speed.value < 0.0 ==> d == Seconds(4.0)
  {
    match speed
    case None => NaN
    case Some(v) =>
      if v == 0.0 then Infinity
      else var q := 12.0 / v; Seconds(if q > 4.0 then q else 4.0)
  }

  /** The text a duration interpolates to; `formatNumber` is JavaScript's
      conversion of a finite number to text. */
  function DurationText(d: Duration, formatNumber: real -> string): string {
    match d
    case Seconds(v) => formatNumber(v)
    case Infinity => "Infinity"
    case NaN => "NaN"
  }

  const FullCssAnimated: Template := [
    Lit("/* Gradient Background Styles */\n.gradient-background {\n    background: linear-gradient(-45deg, "),
    Color("color1"), Lit(", "), Color("color2"), Lit(", "), Color("color3"), Lit(", "), Color("color4"),
    Lit(");\n    background-size: 400% 400%;\n    animation: gradientShift "), Arg("duration"),
    Lit("s ease infinite;\n}\n\n")
  ]

  const FullCssStatic: Template := [
    Lit(".gradient-background-static {\n    background: linear-gradient(-45deg, "),
    Color("color1"), Lit(", "), Color("color2"), Lit(", "), Color("color3"), Lit(", "), Color("color4"),
    Lit(");\n}\n\n")
  ]

  const FullCssRadial: Template := [
    Lit(".gradient-radial {\n    background: radial-gradient(circle at 30% 20%, "),
    Color("color1"), Lit(", "), Color("color2"), Lit(", "), Color("color3"), Lit(", "), Color("color4"),
    Lit(");\n}\n\n")
  ]

  const FullCssConic: Template := [
    Lit(".gradient-conic {\n    background: conic-gradient(from 0deg at 50% 50%, "),
    Color("color1"), Lit(", "), Color("color2"), Lit(", "), Color("color3"), Lit(", "), Color("color4"),
    Lit(", "), Color("color1"), Lit(");\n}\n\n")
  ]

  const FullCssTail: string :=
    "@keyframes gradientShift {\n    0% {\n        background-position: 0% 50%;\n    }\n    50% {\n        background-position: 100% 50%;\n    }\n    100% {\n        background-position: 0% 50%;\n    }\n}\n\n"
    + "/* Usage Examples */\n/*\n    Apply to body for full background:\n    body {\n        min-height: 100vh;\n    }\n    \n"
    + "    Apply to container:\n    .container {\n        padding: 2rem;\n    }\n    \n"
    + "    Use as overlay:\n    .gradient-overlay::before {\n        content: '';\n        position: absolute;\n        top: 0;\n        left: 0;\n        right: 0;\n        bottom: 0;\n        opacity: 0.8;\n        z-index: -1;\n    }\n*/"

  const FullCssKeyframes: Template := [Lit(FullCssTail)]

  const FullCssTemplate: Template := FullCssRules + FullCssKeyframes

  lemma {:induction false} FullCssAnimatedSlots()
    ensures ColorSlots(FullCssAnimated) == ColorKeys && ArgSlots(FullCssAnimated) == ["duration"]
  {
  }

  lemma {:induction false} FullCssStaticSlots()
    ensures ColorSlots(FullCssStatic) == ColorKeys && ArgSlots(FullCssStatic) == []
  {
  }

  lemma {:induction false} FullCssRadialSlots()
    ensures ColorSlots(FullCssRadial) == ColorKeys && ArgSlots(FullCssRadial) == []
  {
  }

  lemma {:induction false} FullCssConicSlots()
    ensures ColorSlots(FullCssConic) == ColorKeys + ["color1"] && ArgSlots(FullCssConic) == []
  {
  }

  const FullCssRules: Template := FullCssAnimated + FullCssStatic + FullCssRadial + FullCssConic

  lemma {:induction false} FullCssRulesSlots()
    ensures ColorSlots(FullCssRules) == ColorKeys + ColorKeys + ColorKeys + ColorKeys + ["color1"]
    ensures ArgSlots(FullCssRules) == ["duration"]
  {
    FullCssAnimatedSlots();
    FullCssStaticSlots();
    FullCssRadialSlots();
    FullCssConicSlots();
    SlotsAppend(FullCssAnimated, FullCssStatic);
    SlotsAppend(FullCssAnimated + FullCssStatic, FullCssRadial);
    SlotsAppend(FullCssAnimated + FullCssStatic + FullCssRadial, FullCssConic);
  }

  /** The linear, static and radial gradients list the colours in slot order;
      the conic one lists them and closes the circle with the first colour
      again. The duration is the only other substitution. */
  lemma {:induction false} FullCssSlots()
    ensures ColorSlots(FullCssTemplate) == ColorKeys + ColorKeys + ColorKeys + ColorKeys + ["color1"]
    ensures ArgSlots(FullCssTemplate) == ["duration"]
  {
    FullCssRulesSlots();
    SlotsAppend(FullCssRules, FullCssKeyframes);
  }

  // ----- The settings file -----

  /** The object `exportSettings` writes as JSON. */
  datatype ExportFile = ExportFile(version: string, timestamp: string, settings: Settings)

  /** What `importSettings` uses of the `settings` property of the file:
      `colors` and `animation`, each absent when missing (spreading `undefined`
      adds nothing). */
  datatype SettingsRecord = SettingsRecord(colors: Option<Colors>, animation: Option<Animation>)

  /** The result of `JSON.parse` on the file's text as `importSettings` reads it:
      `Unparsable` when the parse throws, `NullDocument` for `null` (reading a
      property of it throws), otherwise the `settings` property, absent when it
      is missing or falsy. */
  datatype SettingsDocument = Unparsable | NullDocument | Document(settings: Option<SettingsRecord>)

  datatype ImportError = FileReadError | InvalidSettingsFile | Thrown

  /** How the promise `importSettings` returns settles. */
  datatype ImportOutcome = Resolved(record: SettingsRecord) | Rejected(error: ImportError)

  /** The settings after a successful import: both sub-records merged, the
      current preset kept. */
  function ImportedSettings(s: Settings, rec: SettingsRecord): (r: Settings)
    ensures Overrides(r.colors, s.colors, rec.colors.GetOr(map[]))
    ensures Overrides(r.animation, s.animation, rec.animation.GetOr(map[]))
    ensures r.currentPreset == s.currentPreset
  {
    Settings(Spread(s.colors, rec.colors.GetOr(map[])), Spread(s.animation, rec.animation.GetOr(map[])), s.currentPreset)
  }

  /** The two library calls carry this one file through: parsing the text written
      for it gives back its colours and animation under `settings`. JSON does so
      whenever the animation numbers are finite doubles (`NaN` and the
      infinities are written as `null`). */
  ghost predicate FileRestores(stringify: ExportFile -> string, parse: string -> SettingsDocument, f: ExportFile) {
    parse(stringify(f)) == Document(Some(SettingsRecord(Some(f.settings.colors), Some(f.settings.animation))))
  }

  /** The hypothesis can be met for every file, so the lemma that assumes it is
      not vacuous. */
  lemma {:induction false} FileRestoresSatisfiable(f: ExportFile)
    ensures exists stringify: ExportFile -> string, parse: string -> SettingsDocument :: FileRestores(stringify, parse, f)
  {
    var doc := Document(Some(SettingsRecord(Some(f.settings.colors), Some(f.settings.animation))));
    var stringify := (g: ExportFile) => "";
    var parse := (t: string) => doc;
    assert FileRestores(stringify, parse, f);
  }

  /** Importing a file exported from `s` into any store `s0` spreads the colours
      and the animation of `s` over those of `s0`, and keeps the preset of `s0`. */
  lemma {:induction false} ImportOfExport(s: Settings, s0: Settings, timestamp: string, stringify: ExportFile -> string, parse: string -> SettingsDocument)
    requires FileRestores(stringify, parse, ExportFile("1.0", timestamp, s))
    ensures var doc := parse(stringify(ExportFile("1.0", timestamp, s)));
            && doc.Document? && doc.settings.Some?
            && ImportedSettings(s0, doc.settings.value)
               == Settings(Spread(s0.colors, s.colors), Spread(s0.animation, s.animation), s0.currentPreset)
  {
  }

  /** When the importing store has no colour slot or animation field that the
      exported settings lack, the import restores the exported colours and
      animation exactly; only the current preset stays the importer's. */
  lemma {:induction false} ImportRestoresSettings(s: Settings, s0: Settings, timestamp: string, stringify: ExportFile -> string, parse: string -> SettingsDocument)
    requires FileRestores(stringify, parse, ExportFile("1.0", timestamp, s))
    requires s0.colors.Keys <= s.colors.Keys && s0.animation.Keys <= s.animation.Keys
    ensures var doc := parse(stringify(ExportFile("1.0", timestamp, s)));
            && doc.Document? && doc.settings.Some?
            && ImportedSettings(s0, doc.settings.value) == s.(currentPreset := s0.currentPreset)
  {
    ImportOfExport(s, s0, timestamp, stringify, parse);
    assert Spread(s0.colors, s.colors) == s.colors;
    assert Spread(s0.animation, s.animation) == s.animation;
  }

  class ExportManager {
    const engine: GradientEngine

    constructor (engine: GradientEngine)
      ensures this.engine == engine
    {
      this.engine := engine;
    }

    /** `generateFullCSS()`, given the number-to-text conversion. */
    function GenerateFullCSS(formatNumber: real -> string): string
      reads engine
    {
      var s := engine.GetSettings();
      var duration := AnimationDuration(Lookup(s.animation, "speed"));
      Render(FullCssTemplate, s.colors, map["duration" := DurationText(duration, formatNumber)])
    }

    /** The object `exportSettings` serialises, given the ISO time stamp. */
    function ExportData(timestamp: string): (f: ExportFile)
      reads engine
      ensures f.version == "1.0" && f.timestamp == timestamp && f.settings == engine.settings
    {
      ExportFile("1.0", timestamp, engine.GetSettings())
    }

    /** `importSettings(file)`: `content` is the text the reader delivers, `None`
        when it reports an error. */
    method ImportSettings(content: Option<string>, parse: string -> SettingsDocument) returns (outcome: ImportOutcome)
      modifies engine
      ensures content.None? ==> outcome == Rejected(FileReadError)
      ensures content.Some? && (parse(content.value).Unparsable? || parse(content.value).NullDocument?) ==> outcome == Rejected(Thrown)
      ensures content.Some? && parse(content.value) == Document(None) ==> outcome == Rejected(InvalidSettingsFile)
      ensures content.Some? && parse(content.value).Document? && parse(content.value).settings.Some? ==>
        outcome == Resolved(parse(content.value).settings.value)
      ensures outcome.Rejected? ==> unchanged(engine)
      ensures outcome.Resolved? ==> content.Some? && parse(content.value) == Document(Some(outcome.record))
      ensures outcome.Resolved? ==>
        && engine.settings == ImportedSettings(old(engine.settings), outcome.record)
        && engine.callbacks == old(engine.callbacks)
        && engine.changes == old(engine.changes) + 2
        && engine.deliveries == old(engine.deliveries)
             + Fanout(engine.callbacks, old(engine.settings).(colors := engine.settings.colors))
             + Fanout(engine.callbacks, engine.settings)
    {
      if content.None? {
        return Rejected(FileReadError);
      }
      var data := parse(content.value);
      if !data.Document? {
        return Rejected(Thrown);
      }
      if data.settings.None? {
        return Rejected(InvalidSettingsFile);
      }
      var record := data.settings.value;
      engine.UpdateColors(record.colors.GetOr(map[]));
      engine.UpdateAnimation(record.animation.GetOr(map[]));
      return Resolved(record);
    }
  }
}
