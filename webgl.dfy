/** The render bridge (public/js/webgl.js): the colour conversion for the
    shader, the canvas resize rule, initialisation and the per-frame gate. The
    GL calls themselves are recorded as a log of what was handed to them. */
module WebGL {
  import opened Prelude
  import opened JsStrings
  import opened HexDigits
  import opened Gradients

  // ----- hexToRgb -----

  /** A JavaScript number handed to the shader: finite, or `NaN`. */
  datatype Channel = Num(value: real) | NaN

  /** `parseInt(text, 16) / 255`. */
  function ChannelOf(text: string): Channel {
    match ParseInt16(text)
    case None => NaN
    case Some(n) => Num(n as real / 255.0)
  }

  /** `hexToRgb(hex)`: characters 1-2, 3-4 and 5-6 as bytes over 255, and an
      alpha of 1. */
  function HexToRgb(hex: string): (rgba: seq<Channel>)
    ensures |rgba| == 4 && rgba[3] == Num(1.0)
  {
    [ChannelOf(Slice(hex, 1, 3)), ChannelOf(Slice(hex, 3, 5)), ChannelOf(Slice(hex, 5, 7)), Num(1.0)]
  }

  /** A run of radix-16 digits, in either case, is read as its value over 255. */
  lemma {:induction false} ChannelOfDigits(s: string, n: nat)
    requires s != [] && forall i :: 0 <= i < |s| ==> HexValue(s[i]).Some?
    requires n == HexNumber(s)
    ensures ChannelOf(s) == Num(n as real / 255.0)
  {
    ParseDigitsOnly(s);
    ChannelOfParsed(s, n);
  }

  lemma {:induction false} ChannelOfParsed(text: string, n: int)
    requires ParseInt16(text) == Some(n)
    ensures ChannelOf(text) == Num(n as real / 255.0)
  {
  }

  /** Text with no digit at all is read as `NaN`. */
  lemma {:induction false} ChannelOfEmpty()
    ensures ChannelOf([]) == NaN
  {
    ParseEmpty();
  }

  lemma {:induction false} ChannelOfByte(v: Byte)
    ensures ChannelOf(Digits(v, 2)) == Num(v as real / 255.0)
  {
    ParseByteDigits(v);
    ChannelOfParsed(Digits(v, 2), v);
  }

  /** For `#rrggbb` with radix-16 digits in either case (whatever the first
      character), each colour channel is the value of its pair of digits over
      255; `a`, `b` and `c` are the three pairs. */
  lemma {:induction false} HexToRgbOfHex(hex: string, a: string, b: string, c: string)
    requires |hex| == 7 && Slice(hex, 1, 3) == a && Slice(hex, 3, 5) == b && Slice(hex, 5, 7) == c
    requires forall i :: 0 <= i < |a| ==> HexValue(a[i]).Some?
    requires forall i :: 0 <= i < |b| ==> HexValue(b[i]).Some?
    requires forall i :: 0 <= i < |c| ==> HexValue(c[i]).Some?
    ensures HexToRgb(hex) == [Num(HexNumber(a) as real / 255.0), Num(HexNumber(b) as real / 255.0),
                              Num(HexNumber(c) as real / 255.0), Num(1.0)]
  {
    ChannelOfDigits(a, HexNumber(a));
    ChannelOfDigits(b, HexNumber(b));
    ChannelOfDigits(c, HexNumber(c));
    HexToRgbParts(hex, a, b, c);
  }

  /** ... and so every channel of such a colour is a number in [0, 1]. */
  lemma {:induction false} HexToRgbInUnit(hex: string, a: string, b: string, c: string)
    requires |hex| == 7 && Slice(hex, 1, 3) == a && Slice(hex, 3, 5) == b && Slice(hex, 5, 7) == c
    requires forall i :: 0 <= i < |a| ==> HexValue(a[i]).Some?
    requires forall i :: 0 <= i < |b| ==> HexValue(b[i]).Some?
    requires forall i :: 0 <= i < |c| ==> HexValue(c[i]).Some?
    ensures forall i :: 0 <= i < 4 ==> HexToRgb(hex)[i].Num? && 0.0 <= HexToRgb(hex)[i].value <= 1.0
  {
    HexToRgbOfHex(hex, a, b, c);
    HexNumberPairBound(a);
    HexNumberPairBound(b);
    HexNumberPairBound(c);
    UnitChannels(HexNumber(a) as real / 255.0, HexNumber(b) as real / 255.0, HexNumber(c) as real / 255.0);
  }

  lemma {:induction false} UnitChannels(x: real, y: real, z: real)
    requires 0.0 <= x <= 1.0 && 0.0 <= y <= 1.0 && 0.0 <= z <= 1.0
    ensures var r := [Num(x), Num(y), Num(z), Num(1.0)]; forall i :: 0 <= i < 4 ==> r[i].Num? && 0.0 <= r[i].value <= 1.0
  {
  }

  lemma {:induction false} HexToRgbParts(hex: string, s1: string, s2: string, s3: string)
    requires Slice(hex, 1, 3) == s1 && Slice(hex, 3, 5) == s2 && Slice(hex, 5, 7) == s3
    ensures HexToRgb(hex) == [ChannelOf(s1), ChannelOf(s2), ChannelOf(s3), Num(1.0)]
  {
  }

  lemma {:induction false} PackSlices(c: Rgb)
    ensures Slice(PackRgb(c), 1, 3) == Digits(c.r, 2)
    ensures Slice(PackRgb(c), 3, 5) == Digits(c.g, 2)
    ensures Slice(PackRgb(c), 5, 7) == Digits(c.b, 2)
  {
    var hex := PackRgb(c);
    var d1, d2, d3 := Digits(c.r, 2), Digits(c.g, 2), Digits(c.b, 2);
    assert hex == "#" + d1 + d2 + d3;
    assert hex[1..3] == d1;
    assert hex[3..5] == d2;
    assert hex[5..7] == d3;
  }

  /** Six lower-case digits written by `toString(16)` parse back to their bytes. */
  lemma {:induction false} HexToRgbOfDigits(hex: string, r: Byte, g: Byte, b: Byte)
    requires Slice(hex, 1, 3) == Digits(r, 2) && Slice(hex, 3, 5) == Digits(g, 2) && Slice(hex, 5, 7) == Digits(b, 2)
    ensures HexToRgb(hex) == [Num(r as real / 255.0), Num(g as real / 255.0), Num(b as real / 255.0), Num(1.0)]
  {
    HexToRgbParts(hex, Digits(r, 2), Digits(g, 2), Digits(b, 2));
    ChannelOfByte(r);
    ChannelOfByte(g);
    ChannelOfByte(b);
  }

  /** The packed colour of `hslToHex` parses back to its channels. */
  lemma {:induction false} PackThenParse(c: Rgb)
    ensures HexToRgb(PackRgb(c)) == [Num(c.r as real / 255.0), Num(c.g as real / 255.0), Num(c.b as real / 255.0), Num(1.0)]
  {
    PackSlices(c);
    HexToRgbOfDigits(PackRgb(c), c.r, c.g, c.b);
  }

  /** A three-digit colour `#xyz` is read as the pair `xy` (here `a`), the
      single digit `z` (here `d`) and nothing: its blue channel is `NaN`. */
  lemma {:induction false} ShortHexChannels(hex: string, a: string, d: string)
    requires |hex| == 4 && Slice(hex, 1, 3) == a && Slice(hex, 3, 5) == d
    requires forall i :: 0 <= i < |a| ==> HexValue(a[i]).Some?
    requires forall i :: 0 <= i < |d| ==> HexValue(d[i]).Some?
    ensures d == [hex[3]]
    ensures HexToRgb(hex) == [Num(HexNumber(a) as real / 255.0), Num(HexNumber(d) as real / 255.0), NaN, Num(1.0)]
  {
    ShortSlices(hex);
    ChannelOfDigits(a, HexNumber(a));
    ChannelOfDigits(d, HexNumber(d));
    ChannelOfEmpty();
    HexToRgbParts(hex, a, d, []);
  }

  lemma {:induction false} ShortSlices(hex: string)
    requires |hex| == 4
    ensures Slice(hex, 3, 5) == [hex[3]] && Slice(hex, 5, 7) == []
  {
  }

  // ----- The resize rule -----

  /** What the canvas stores when a non-negative number is assigned to its
      integer `width` or `height`: the number with its fraction cut off. */
  function CanvasDimension(d: real): (n: nat)
    requires d >= 0.0
    ensures n as real <= d < n as real + 1.0
  {
    d.Floor
  }

  /** The test of `resize` as written: the canvas differs from the display size. */
  predicate ResizeNeeded(width: nat, height: nat, displayWidth: real, displayHeight: real) {
    width as real != displayWidth || height as real != displayHeight
  }

  /** For a whole display size, one resize is enough: the canvas then has the
      display size and the next check finds nothing to do. */
  lemma {:induction false} ResizeSettles(displayWidth: real, displayHeight: real)
    requires displayWidth >= 0.0 && displayHeight >= 0.0
    requires displayWidth == displayWidth.Floor as real && displayHeight == displayHeight.Floor as real
    ensures CanvasDimension(displayWidth) as real == displayWidth && CanvasDimension(displayHeight) as real == displayHeight
    ensures !ResizeNeeded(CanvasDimension(displayWidth), CanvasDimension(displayHeight), displayWidth, displayHeight)
  {
  }

  /** For a fractional display size (a device pixel ratio of 1.5 on an odd CSS
      width), the check as written never settles: right after a resize it asks
      for another one. */
  lemma {:induction false} ResizeNeverSettles(displayWidth: real, displayHeight: real)
    requires displayWidth >= 0.0 && displayHeight >= 0.0
    requires displayWidth != displayWidth.Floor as real
    ensures ResizeNeeded(CanvasDimension(displayWidth), CanvasDimension(displayHeight), displayWidth, displayHeight)
  {
  }

  lemma {:induction false} ResizeExample()
    ensures ResizeNeeded(CanvasDimension(301.5), CanvasDimension(600.0), 301.5, 600.0)
  {
    ResizeNeverSettles(301.5, 600.0);
  }

  /** The check compared with what the canvas can hold. */
  predicate ResizeNeededFloored(width: nat, height: nat, displayWidth: real, displayHeight: real)
    requires displayWidth >= 0.0 && displayHeight >= 0.0
  {
    width != CanvasDimension(displayWidth) || height != CanvasDimension(displayHeight)
  }

  /** With the floored check, one resize is always enough, and a canvas that
      differs from the floored display size is always resized. */
  lemma {:induction false} FlooredResizeSettles(width: nat, height: nat, displayWidth: real, displayHeight: real)
    requires displayWidth >= 0.0 && displayHeight >= 0.0
    ensures !ResizeNeededFloored(CanvasDimension(displayWidth), CanvasDimension(displayHeight), displayWidth, displayHeight)
    ensures ResizeNeededFloored(width, height, displayWidth, displayHeight)
        <==> (width, height) != (CanvasDimension(displayWidth), CanvasDimension(displayHeight))
  {
  }

  // ----- The uniforms of one frame -----

  /** One value handed to a uniform: the elapsed seconds, the resolution, a
      colour slot (1 to 4) with the colour text whose `HexToRgb` channels are
      uploaded, or an animation field (`None` for `undefined`). */
  datatype Upload =
    | Time(seconds: real)
    | Resolution(width: nat, height: nat)
    | ColorUniform(slot: nat, color: string)
    | ScalarUniform(name: string, value: Option<real>)

  /** The uploads of one `updateUniforms` call, and whether it threw: reading
      `slice` of a missing colour throws a `TypeError` after the uploads before it. */
  datatype UniformPass = UniformPass(uploads: seq<Upload>, threw: bool)

  /** The colour uploads for `keys`, numbered from `slot`, up to the first
      missing colour. */
  function ColorUploads(colors: Colors, keys: seq<string>, slot: nat): (r: UniformPass)
    ensures |r.uploads| <= |keys|
    ensures forall i :: 0 <= i < |r.uploads| ==> r.uploads[i].ColorUniform?
  {
    if keys == [] then UniformPass([], false)
    else if keys[0] !in colors then UniformPass([], true)
    else
      var rest := ColorUploads(colors, keys[1..], slot + 1);
      UniformPass([ColorUniform(slot, colors[keys[0]])] + rest.uploads, rest.threw)
  }

  /** The uploads are the listed slots in order, each with its parsed colour,
      and the pass throws exactly when a listed slot is missing, after
      uploading the slots before it. */
  lemma {:induction false} ColorUploadsSpec(colors: Colors, keys: seq<string>, slot: nat)
    ensures var r := ColorUploads(colors, keys, slot);
      && (forall i :: 0 <= i < |r.uploads| ==> keys[i] in colors && r.uploads[i] == ColorUniform(slot + i, colors[keys[i]]))
      && (r.threw <==> exists k :: k in keys && k !in colors)
      && (!r.threw ==> |r.uploads| == |keys|)
      && (r.threw ==> |r.uploads| < |keys| && keys[|r.uploads|] !in colors)
  {
    if keys == [] {
    } else if keys[0] !in colors {
      assert keys[0] in keys;
    } else {
      ColorUploadsSpec(colors, keys[1..], slot + 1);
      var rest := ColorUploads(colors, keys[1..], slot + 1);
      var r := ColorUploads(colors, keys, slot);
      assert r.uploads == [ColorUniform(slot, colors[keys[0]])] + rest.uploads;
      if r.threw {
        assert keys[|r.uploads|] == keys[1..][|rest.uploads|];
      }
      forall i | 0 <= i < |r.uploads|
        ensures keys[i] in colors && r.uploads[i] == ColorUniform(slot + i, colors[keys[i]])
      {
        if i > 0 {
          assert r.uploads[i] == rest.uploads[i - 1];
          assert keys[i] == keys[1..][i - 1];
        }
      }
      assert forall k :: k in keys <==> k == keys[0] || k in keys[1..];
    }
  }

  /** The colour pass of a frame throws exactly when one of the four slots is missing. */
  lemma {:induction false} ColorKeysListed(colors: Option<Colors>)
    ensures colors.Some? ==> (ColorUploads(colors.value, ColorKeys, 1).threw <==> !(ColorKeySet <= colors.value.Keys))
  {
    if colors.Some? {
      ColorUploadsSpec(colors.value, ColorKeys, 1);
      assert forall k :: k in ColorKeys <==> k in ColorKeySet;
    }
  }

  /** `updateUniforms`, with `None` for a falsy `colors` or `animation`. */
  function UniformUploads(seconds: real, width: nat, height: nat, colors: Option<Colors>, animation: Option<Animation>): (r: UniformPass)
    ensures |r.uploads| >= 2 && r.uploads[0] == Time(seconds) && r.uploads[1] == Resolution(width, height)
    ensures colors.None? ==> forall i :: 0 <= i < |r.uploads| ==> !r.uploads[i].ColorUniform?
    ensures animation.None? ==> forall i :: 0 <= i < |r.uploads| ==> !r.uploads[i].ScalarUniform?
    ensures r.threw <==> colors.Some? && !(ColorKeySet <= colors.value.Keys)
    ensures !r.threw ==> |r.uploads| == 2 + (if colors.Some? then 4 else 0) + (if animation.Some? then 3 else 0)
    ensures colors.Some? && !r.threw ==>
      forall i :: 0 <= i < 4 ==> ColorKeys[i] in colors.value && r.uploads[2 + i] == ColorUniform(1 + i, colors.value[ColorKeys[i]])
    ensures animation.Some? && !r.threw ==>
      r.uploads[|r.uploads| - 3..] == [ScalarUniform("speed", Lookup(animation.value, "speed")),
                                       ScalarUniform("complexity", Lookup(animation.value, "complexity")),
                                       ScalarUniform("scale", Lookup(animation.value, "scale"))]
    ensures r.threw ==> colors.Some? && 2 <= |r.uploads| < 6 && ColorKeys[|r.uploads| - 2] !in colors.value
    ensures r.threw ==>
      && colors.Some?
      && forall i :: 0 <= i < |r.uploads| - 2 ==> ColorKeys[i] in colors.value && r.uploads[2 + i] == ColorUniform(1 + i, colors.value[ColorKeys[i]])
  {
    var c := if colors.Some? then ColorUploads(colors.value, ColorKeys, 1) else UniformPass([], false);
    ColorKeysListed(colors);
    ColorUploadsSpec(colors.GetOr(map[]), ColorKeys, 1);
    var scalars := if animation.Some? && !c.threw then
      [ScalarUniform("speed", Lookup(animation.value, "speed")),
       ScalarUniform("complexity", Lookup(animation.value, "complexity")),
       ScalarUniform("scale", Lookup(animation.value, "scale"))]
      else [];
    UniformPass([Time(seconds), Resolution(width, height)] + c.uploads + scalars, c.threw)
  }

  class WebGLRenderer {
    /** `canvas.width` and `canvas.height`. */
    var width: nat
    var height: nat
    /** `this.gl` and `this.program` are not null. */
    var hasContext: bool
    var hasProgram: bool
    var initialized: bool
    const startTime: int
    /** The sizes handed to `gl.viewport`, in order. */
    var viewports: seq<(real, real)>
    /** Every uniform upload so far. */
    var uploads: seq<Upload>
    /** The number of `drawArrays` calls so far. */
    var draws: nat

    /** `new WebGLRenderer(canvas)`, given the canvas size and `Date.now()`. */
    constructor (canvasWidth: nat, canvasHeight: nat, now: int)
      ensures width == canvasWidth && height == canvasHeight && startTime == now
      ensures !hasContext && !hasProgram && !initialized
      ensures viewports == [] && uploads == [] && draws == 0
    {
      width := canvasWidth;
      height := canvasHeight;
      startTime := now;
      hasContext := false;
      hasProgram := false;
      initialized := false;
      viewports := [];
      uploads := [];
      draws := 0;
    }

    /** The canvas size and the viewports after `resize()` as written: when the
        canvas differs from the display size, it takes the floored display size
        and, with a context, the raw display size goes to `gl.viewport`;
        otherwise nothing changes. */
    twostate predicate ResizedTo(displayWidth: real, displayHeight: real)
      requires displayWidth >= 0.0 && displayHeight >= 0.0
      reads this
    {
      if ResizeNeeded(old(width), old(height), displayWidth, displayHeight) then
        && width == CanvasDimension(displayWidth) && height == CanvasDimension(displayHeight)
        && viewports == old(viewports) + (if hasContext then [(displayWidth, displayHeight)] else [])
      else
        width == old(width) && height == old(height) && viewports == old(viewports)
    }

    /** `resize()` as written, given `clientWidth * dpr` and `clientHeight * dpr`. */
    method Resize(displayWidth: real, displayHeight: real)
      requires displayWidth >= 0.0 && displayHeight >= 0.0
      modifies this
      ensures ResizedTo(displayWidth, displayHeight)
      ensures hasContext == old(hasContext) && hasProgram == old(hasProgram) && initialized == old(initialized)
      ensures uploads == old(uploads) && draws == old(draws)
    {
      if width as real != displayWidth || height as real != displayHeight {
        width := CanvasDimension(displayWidth);
        height := CanvasDimension(displayHeight);
        if hasContext {
          viewports := viewports + [(displayWidth, displayHeight)];
        }
      }
    }

    /** `resize()` comparing against the floored display size. */
    method ResizeFloored(displayWidth: real, displayHeight: real)
      requires displayWidth >= 0.0 && displayHeight >= 0.0
      modifies this
      ensures width == CanvasDimension(displayWidth) && height == CanvasDimension(displayHeight)
      ensures viewports == old(viewports)
        + (if ResizeNeededFloored(old(width), old(height), displayWidth, displayHeight) && hasContext
           then [(width as real, height as real)] else [])
      ensures hasContext == old(hasContext) && hasProgram == old(hasProgram) && initialized == old(initialized)
      ensures uploads == old(uploads) && draws == old(draws)
    {
      var w := CanvasDimension(displayWidth);
      var h := CanvasDimension(displayHeight);
      if width != w || height != h {
        width := w;
        height := h;
        if hasContext {
          viewports := viewports + [(w as real, h as real)];
        }
      }
    }

    /** `init()`: `contextObtained` says whether a GL context was obtained and
        `shadersLinked` whether both shader sources were fetched, compiled and
        linked. Without a program the attribute lookup of `createGeometry`
        throws, so the renderer is left uninitialised. */
    method Init(contextObtained: bool, shadersLinked: bool, displayWidth: real, displayHeight: real)
      requires displayWidth >= 0.0 && displayHeight >= 0.0
      modifies this
      ensures hasContext == contextObtained
      ensures !contextObtained ==> initialized == old(initialized) && hasProgram == old(hasProgram)
      ensures !contextObtained ==> width == old(width) && height == old(height) && viewports == old(viewports)
      ensures contextObtained ==> ResizedTo(displayWidth, displayHeight)
      ensures contextObtained ==> hasProgram == shadersLinked && initialized == (shadersLinked || old(initialized))
      ensures uploads == old(uploads) && draws == old(draws)
    {
      hasContext := contextObtained;
      if !hasContext {
        return;
      }
      Resize(displayWidth, displayHeight);
      hasProgram := shadersLinked;
      if !hasProgram {
        return;
      }
      initialized := true;
    }

    /** `updateUniforms(settings)` at time `now`; `threw` when it throws. */
    method UpdateUniforms(colors: Option<Colors>, animation: Option<Animation>, now: int) returns (threw: bool)
      modifies this
      ensures var pass := UniformUploads((now - startTime) as real / 1000.0, old(width), old(height), colors, animation);
              uploads == old(uploads) + pass.uploads && threw == pass.threw
      ensures width == old(width) && height == old(height) && viewports == old(viewports) && draws == old(draws)
      ensures hasContext == old(hasContext) && hasProgram == old(hasProgram) && initialized == old(initialized)
    {
      var pass := UniformUploads((now - startTime) as real / 1000.0, width, height, colors, animation);
      uploads := uploads + pass.uploads;
      threw := pass.threw;
    }

    /** `render(settings)`: nothing at all happens before initialisation or
        without a program; otherwise `resize()` as written, the uniforms of the
        frame at the new canvas size, and one draw unless the upload throws.
        With a fractional display size every frame resizes the canvas again and
        issues another `gl.viewport` (see `ResizeNeverSettles`). */
    method Render(colors: Option<Colors>, animation: Option<Animation>, now: int, displayWidth: real, displayHeight: real)
      returns (threw: bool)
      requires displayWidth >= 0.0 && displayHeight >= 0.0
      modifies this
      ensures !(old(initialized) && old(hasProgram)) ==> !threw && unchanged(this)
      ensures old(initialized) && old(hasProgram) ==>
        && ResizedTo(displayWidth, displayHeight)
        && (var pass := UniformUploads((now - startTime) as real / 1000.0, width, height, colors, animation);
            uploads == old(uploads) + pass.uploads && threw == pass.threw)
        && draws == old(draws) + (if threw then 0 else 1)
      ensures hasContext == old(hasContext) && hasProgram == old(hasProgram) && initialized == old(initialized)
    {
      if !initialized || !hasProgram {
        return false;
      }
      Resize(displayWidth, displayHeight);
      threw := UpdateUniforms(colors, animation, now);
      if !threw {
        draws := draws + 1;
      }
    }
  }
}
