# Gradients, modelled in Dafny

Gradients is a browser gradient generator. WebGL draws an animated gradient
from four colour slots and three animation parameters: speed, complexity and
scale. This project models its core:

- **Settings store.** The `GradientEngine` holds the settings. It merges partial
  updates, applies named presets, randomises, and notifies its observers once
  per change.
- **Share-link codec.** The settings are written as JSON, then base64 in the
  URL-safe alphabet without padding. The decoder reverses these steps.
- **Text generators.** The CSS rule, the SVG document, the HTML embed snippet
  and the full CSS export are modelled as templates.
- **Preset manager.** It holds the built-in table of 24 presets and the
  add/remove of custom ones.
- **Export manager.** It flips the PNG fallback's pixel buffer row by row,
  computes the animation duration, and exports and imports the settings file.
- **WebGL renderer.** The model covers its lifecycle and resize rule,
  `hexToRgb`, and the uniforms each frame uploads.
- **Analytics token.** The setup script checks the beacon token and writes it
  into the configuration. The Cloudflare Worker injects the token into served
  HTML.

Object-valued dictionaries are Dafny maps. JavaScript's object spread is map
union. Classes whose fields the source updates in place are Dafny classes:
`GradientEngine`, `PresetManager` with its `PresetTable`, `ExportManager`,
`WebGLRenderer`, and the Worker's `AnalyticsRewriter` with the `Element` it
edits. The engine records every callback invocation in `deliveries`, so
"notified once, with the new settings" is part of each mutator's contract.

Some things are parameters of the model rather than parts of it:

- the values of `Math.random()` and `Date.now()`;
- the rounded HSL channels;
- `JSON.stringify` and `JSON.parse`;
- the WebGL context outcome;
- the text of files and prompts.

The round-trip lemmas about the JSON functions assume that they carry the one
record being encoded through unchanged (`JsonRestores`, `FileRestores`). JSON
does so whenever the record's numbers are finite doubles. The hypotheses are
about that single record, and lemmas show that they can be met.

The JavaScript built-ins the code depends on are modelled from their
definitions in ECMAScript and the WHATWG HTML standard:

- `String.prototype.replace` with a string pattern: first occurrence only, with
  `$`-pattern expansion;
- `indexOf`, `includes`, `trim` and `slice`;
- `toLowerCase` on ASCII letters only, which is all the confirmation check can
  tell apart;
- `Number.prototype.toString(16)` and `parseInt(s, 16)`;
- `btoa` and the forgiving-base64 `atob`. Their alphabet and padding follow
  sections 3.2, 4 and 5 of RFC 4648.

Main results:

- The share-link round trip: when JSON carries the record through, decoding
  the link restores the shared settings. Malformed tokens are rejected.
- When JSON carries the file through, importing an exported file into any
  store spreads the exported colours and animation over the store's. For a
  store with no extra fields (the app's own, with its four slots and three
  fields) this restores them exactly.
- Packing a colour to `#rrggbb` and parsing it back gives the original
  channels divided by 255.
- The row flip is an involution, and the imperative loop computes it.
- `setPreset` is idempotent.
- The preset table holds 24 well-formed presets.
- The behaviour of the token validator, the confirmation check and the
  placeholder substitution.

## Model

| member | source | states |
|---|---|---|
| JsStrings.IndexOf | src/index.js:37 | the result is the first index at which the pattern occurs; `None` exactly when it occurs nowhere |
| JsStrings.Includes | src/index.js:37 | true exactly when the substring occurs at some index |
| JsStrings.ReplaceFirst | scripts/setup-analytics.js:17-20 | text in which the pattern occurs nowhere is returned unchanged. Otherwise the occurrence with no earlier one is replaced by the `$`-expanded replacement, and the text before and after it is kept |
| JsStrings.ReplaceFirstLiteral | scripts/setup-analytics.js:27-30 | a replacement without `$` is inserted literally in place of the first occurrence, and everything after it is kept, later occurrences included |
| JsStrings.TrimStartSpec | scripts/setup-analytics.js:56 | what `trimStart` drops is whitespace, and what it keeps is a suffix that starts with something else |
| JsStrings.TrimEndSpec | scripts/setup-analytics.js:56 | what `trimEnd` drops is whitespace, and what it keeps is a prefix that ends with something else |
| JsStrings.TrimSpec | scripts/setup-analytics.js:56 | `trim` leaves the text between leading and trailing whitespace, and gives the empty string exactly when the input is all whitespace |
| JsStrings.TrimAround | scripts/setup-analytics.js:56 | any whitespace before and after a text that starts and ends with something else is removed, and the text is kept |
| JsStrings.Slice | public/js/webgl.js:124-126 | `slice` with in-range integer indices is the substring between them, and no result is longer than the string |
| JsStrings.LowerAscii | scripts/setup-analytics.js:74 | ASCII lower-casing keeps the length and maps each character on its own, `A`-`Z` to `a`-`z` |
| HexDigits.HexDigitRoundTrip | public/js/gradients.js:91 | each radix-16 digit `toString(16)` writes is lower case and parses back to its value |
| HexDigits.HexRunSpec | public/js/webgl.js:124-126 | the longest prefix of radix-16 digits `parseInt` reads: all digits, followed by a non-digit or the end |
| HexDigits.ParseDigitsOnly | public/js/webgl.js:124-126 | `parseInt(s, 16)` of a non-empty run of radix-16 digits, in either case, is the value of the run |
| HexDigits.ParseTwoDigits | public/js/webgl.js:124-126 | `parseInt` of two radix-16 digits, in either case, is 16·first + second |
| HexDigits.ParseOneDigit | public/js/webgl.js:125 | `parseInt` of a single radix-16 digit is its value |
| HexDigits.ParseEmpty | public/js/webgl.js:126 | `parseInt` of the empty string is `NaN` |
| HexDigits.HexNumberPairBound | public/js/webgl.js:124-126 | two radix-16 digits are worth less than 256 |
| HexDigits.ParseByteDigits | public/js/webgl.js:124-126 | the two lower-case digits of a byte parse back to the byte |
| Base64.CharIndexRoundTrip | public/js/gradients.js:122 | alphabet position and character are inverse (RFC 4648 section 4) |
| Base64.EncodeIsPadded | public/js/gradients.js:122 | `btoa` output is valid padded base64: alphabet characters, then at most two `=`, length a multiple of 4 |
| Base64.Latin1RoundTrip | public/js/gradients.js:122 | a Latin-1 string turned into bytes and back is unchanged |
| Base64.Btoa | public/js/gradients.js:122 | `btoa` succeeds exactly on Latin-1 text |
| Base64.RemoveWhitespace | public/js/gradients.js:129 | forgiving base64 leaves no ASCII whitespace in the text it decodes |
| Base64.RemoveWhitespaceAppend | public/js/gradients.js:129 | the removal works character by character: a concatenation gives the results for its parts in order, and one character is dropped exactly when it is ASCII whitespace |
| Base64.DecodeDigits64 | public/js/gradients.js:122-129 | decoding the unpadded digits of any byte string gives back those bytes |
| Base64.AtobEncode | public/js/gradients.js:129 | `atob` of the encoding of any byte string gives back those bytes |
| Base64.AtobBtoa | public/js/gradients.js:122-129 | `atob(btoa(s))` is `s` for every Latin-1 `s` |
| UrlToken.ToUrlSafe | public/js/gradients.js:122 | the encoder's output has no `+`, `/` or `=` and is no longer than its input |
| UrlToken.ToUrlSafeAppend | public/js/gradients.js:122 | the replacement works character by character, so it distributes over concatenation |
| UrlToken.FromUrlSafe | public/js/gradients.js:128 | the decoder keeps the length and maps `-` to `+`, `_` to `/` and every other character to itself |
| UrlToken.RestoredPadding | public/js/gradients.js:128 | the re-padding has 0, 2 or `4 - n mod 4` characters, all `=` |
| UrlToken.UrlSafeRoundTrip | public/js/gradients.js:122-128 | the decoder's preparation of the encoder's output restores every padded base64 string exactly |
| UrlToken.PaddingOfBadLength | public/js/gradients.js:128 | a token of length 1 mod 4 gets `==`, which leaves a length no base64 text has |
| Templates.SlotsAppend | public/js/gradients.js:154-206 | the substitutions of a concatenated template are those of its parts, in order |
| Templates.RenderAppend | public/js/gradients.js:154-206 | rendering distributes over template concatenation |
| Templates.RenderColorAt | public/js/gradients.js:154-166 | a colour slot renders as the slot's value between the text before and after it |
| Templates.RenderReadsOnlySlots | public/js/gradients.js:154-206 | the generated text depends on the colours only through the slots the template names |
| Templates.NatText | public/js/gradients.js:186 | the decimal text of `Date.now()` is a non-empty run of digits |
| Gradients.Spread | public/js/gradients.js:22 | `{...base, ...patch}` has the keys of both, the patch's values where it has the key, and the base's values elsewhere |
| Gradients.SpreadIdempotent | public/js/gradients.js:22 | merging the same patch twice is merging it once |
| Gradients.SpreadCompose | public/js/gradients.js:22-27 | two merges in a row are one merge with the combined patch |
| Gradients.SetPresetState | public/js/gradients.js:31-36 | after `setPreset` the colours are exactly the preset's, the animation is overridden by the preset's fields, and the preset name is current |
| Gradients.SetPresetIdempotent | public/js/gradients.js:31-36 | applying the same preset twice gives the settings of applying it once |
| Gradients.PackDigits | public/js/gradients.js:91 | `((1<<24)+(r<<16)+(g<<8)+b).toString(16)` is `1` followed by the three two-digit channels |
| Gradients.PackRgb | public/js/gradients.js:91 | the packed colour is `#` plus two lower-case digits per channel, seven characters in all |
| Gradients.RandomAnimation | public/js/gradients.js:54-58 | a random animation has exactly the three fields, speed in [0.5, 2), scale in [0.5, 3), and an integral complexity in 1..5 |
| Gradients.RandomSettings | public/js/gradients.js:47-60 | randomised settings have the four colour slots, each a 7-character `#` colour, the three animation fields and no current preset |
| Gradients.EncodeSettings | public/js/gradients.js:107-123 | the link exists exactly when the JSON text is Latin-1, and it contains no `+`, `/` or `=` |
| Gradients.FourColors | public/js/gradients.js:133-138 | four decoded colours fill `color1`..`color4` in order and nothing else |
| Gradients.SharedAnimation | public/js/gradients.js:114-116 | the link carries exactly the speed, complexity and scale the settings have |
| Gradients.NumberFields | public/js/gradients.js:141-143 | the fields a parsed link supplies: each of `speed`, `complexity` and `scale` is present exactly when a number was found, with that number |
| Gradients.ScalarsSpread | public/js/gradients.js:141-143 | the three `typeof === 'number'` assignments equal spreading `NumberFields` over the store's animation |
| Gradients.DecodeSettings | public/js/gradients.js:125-152 | decoding fails when `atob` throws or the parse gives no object (a throw or `null`), and succeeds for every parsed object. The colours become the array's four items exactly when it has length 4 and are kept otherwise. The animation is the old one with each number found spread over it, and the preset is cleared |
| Gradients.TokenCarriesText | public/js/gradients.js:121-129 | the text the decoder hands to `JSON.parse` is exactly the text the encoder serialised |
| Gradients.SharedScalars | public/js/gradients.js:108-115 | the numbers a link carries are exactly the shared part of the animation |
| Gradients.JsonRestoresSatisfiable | public/js/gradients.js:120-130 | for every record with four colour strings, some pair of JSON functions carries it through, so the round-trip hypothesis is not vacuous |
| Gradients.ShareLinkRoundTrip | public/js/gradients.js:107-152 | when JSON carries the encoded record through, decoding a link restores the four shared colours and spreads the shared animation fields over the decoding store's, with no current preset |
| Gradients.ShareLinkRestoresSettings | public/js/gradients.js:107-152 | for settings with exactly the seven fields, the decoded settings equal the encoded ones with the current preset cleared |
| Gradients.DefaultShareLink | public/js/gradients.js:2-19 | the default settings survive a share link to another fresh store |
| Gradients.DecodeRejectsBadLength | public/js/gradients.js:126-151 | a token of length 1 mod 4 without whitespace makes `decodeFromURL` fail |
| Gradients.DecodeRejectsStrayCharacter | public/js/gradients.js:126-151 | a character outside both alphabets, other than whitespace or `=`, makes `decodeFromURL` fail wherever it stands |
| Gradients.Fanout | public/js/gradients.js:98-100 | one notification invokes every callback once, in registration order, each with the current settings |
| Gradients.CssColorOrder | public/js/gradients.js:154-166 | the CSS rule names the four colours once each, in slot order |
| Gradients.SvgSlots | public/js/gradients.js:168-182 | the SVG names the four colours in order and substitutes width then height |
| Gradients.EmbedSlots | public/js/gradients.js:184-206 | the embed snippet names the colours in order, and its class, keyframes and element all use the one generated identifier |
| Gradients.GradientEngine.constructor | public/js/gradients.js:2-19 | a new engine holds the default settings, no callbacks and no notifications |
| Gradients.GradientEngine.OnChange | public/js/gradients.js:94-96 | the callback is appended; nothing else changes |
| Gradients.GradientEngine.NotifyChange | public/js/gradients.js:98-100 | exactly one fan-out to all callbacks with the unchanged settings |
| Gradients.GradientEngine.UpdateColors | public/js/gradients.js:21-24 | the colours become the merge, the animation and preset stay, and one notification is sent |
| Gradients.GradientEngine.UpdateAnimation | public/js/gradients.js:26-29 | the animation becomes the merge, the colours and preset stay, and one notification is sent |
| Gradients.GradientEngine.SetPreset | public/js/gradients.js:31-36 | the settings become `SetPresetState`, and one notification is sent |
| Gradients.GradientEngine.Randomize | public/js/gradients.js:38-61 | the settings become `RandomSettings` of the draws, and one notification is sent |
| Gradients.GradientEngine.DecodeFromURL | public/js/gradients.js:125-152 | returns true exactly when `DecodeSettings` succeeds. Then the settings are its result and one notification goes out; otherwise nothing changes and no callback runs |
| Presets.RowPreset | public/js/presets.js:1-337 | each table row becomes a preset with the four colour slots and the three animation fields holding the row's values |
| Presets.BuiltinCount | public/js/presets.js:1-337 | the built-in table has exactly the 24 listed names |
| Presets.BuiltinWellFormed | public/js/presets.js:1-337 | every built-in preset has the four colour slots, the three animation fields, and an integral complexity between 2 and 5 |
| Presets.DefaultPresetIsDefault | public/js/presets.js:2-14 | the `default` preset equals the engine's initial colours and animation |
| Presets.PresetManager.constructor | public/js/presets.js:340-343 | as written, the manager's table is the global built-in table itself |
| Presets.PresetManager.Isolated | public/js/presets.js:340-343 | corrected: the manager gets a fresh copy of the built-in table |
| Presets.PresetManager.GetPreset | public/js/presets.js:345-347 | a preset is found exactly when its name is in the table |
| Presets.PresetManager.GetAllPresets | public/js/presets.js:349-351 | returns the manager's table itself |
| Presets.PresetManager.GetCurrentPreset | public/js/presets.js:362-364 | returns the engine's current preset |
| Presets.PresetManager.ApplyPreset | public/js/presets.js:353-360 | applied exactly for a known name. Then the engine's settings become `SetPresetState` with one notification; otherwise the engine is untouched |
| Presets.PresetManager.AddCustomPreset | public/js/presets.js:366-368 | the name is bound to the preset, overwriting any entry of that name |
| Presets.PresetManager.RemoveCustomPreset | public/js/presets.js:370-376 | removes exactly names that are present and not built in. When the table is the built-in table, nothing is ever removed |
| Presets.AddThenRemove | public/js/presets.js:342-376 | as written, a custom preset just added cannot be removed, and adding it wrote it into the global table |
| Presets.AddThenRemoveIsolated | public/js/presets.js:366-376 | corrected: a custom preset just added is removed, and the global table is untouched |
| Presets.RemoveBuiltinIsolated | public/js/presets.js:370-376 | a built-in preset is never removed |
| Export.FlipIndex | public/js/export.js:63-64 | the mirrored index stays inside the buffer |
| Export.PixelIndex | public/js/export.js:61-69 | for each pixel channel, `dstIndex + k` and `srcIndex + k` are in the buffer and related by the flip |
| Export.FlippedPixel | public/js/export.js:61-69 | the flipped buffer holds at row `y` the pixels of row `height - 1 - y` |
| Export.FlipIndexInvolutive | public/js/export.js:63-64 | mirroring an index twice gives the index |
| Export.FlipInvolutive | public/js/export.js:61-70 | flipping the buffer twice gives the original buffer |
| Export.FlipStep | public/js/export.js:65-68 | copying the four channels of one pixel extends the flipped prefix by four |
| Export.CopyPixel | public/js/export.js:63-68 | one pass of the inner loop extends the flipped prefix by pixel `(x, y)` |
| Export.FlipRows | public/js/export.js:61-70 | the nested loops leave the destination equal to the vertically flipped source |
| Export.AnimationDuration | public/js/export.js:131 | `Math.max(4, 12 / speed)`: NaN for a missing speed and Infinity for zero. Otherwise at least 4, exactly 12/speed for 0 < speed ≤ 3, and 4 for a negative speed |
| Export.FullCssSlots | public/js/export.js:133-187 | the full CSS names the four colours in order in each of its four rules, then `color1` once more, and substitutes only the duration |
| Export.ImportedSettings | public/js/export.js:218-220 | an import merges the file's colours and animation into the settings and keeps the current preset |
| Export.FileRestoresSatisfiable | public/js/export.js:190-220 | for every file, some pair of JSON functions carries it through, so the round-trip hypothesis is not vacuous |
| Export.ImportOfExport | public/js/export.js:190-220 | when JSON carries the exported file through, importing it into any store spreads the exported colours and animation over the store's and keeps the store's current preset |
| Export.ImportRestoresSettings | public/js/export.js:190-220 | when the importing store has no colour slot or animation field beyond the exported ones, the import gives exactly the exported colours and animation, with the importer's current preset |
| Export.ExportManager.constructor | public/js/export.js:2-7 | the manager works on the given engine |
| Export.ExportManager.ExportData | public/js/export.js:192-196 | the file records version `1.0`, the time stamp and the current settings |
| Export.ExportManager.ImportSettings | public/js/export.js:210-232 | rejects a read error, a parse failure or `null`, and a file without `settings`, leaving the engine untouched. A file whose `settings` is present always resolves with that record, and the settings become `ImportedSettings` after two notifications |
| WebGL.HexToRgb | public/js/webgl.js:123-128 | four channels, the last of them 1.0 |
| WebGL.ChannelOfDigits | public/js/webgl.js:124-126 | a run of radix-16 digits becomes its value divided by 255 |
| WebGL.ChannelOfEmpty | public/js/webgl.js:126 | an empty slice becomes `NaN` |
| WebGL.HexToRgbOfHex | public/js/webgl.js:123-128 | for `#rrggbb` with radix-16 digits in either case, each channel is its pair's value divided by 255, then alpha 1 |
| WebGL.HexToRgbInUnit | public/js/webgl.js:123-128 | every channel of such a colour is a number in [0, 1] |
| WebGL.PackThenParse | public/js/webgl.js:123-128 | parsing a packed colour gives its channels divided by 255, then alpha 1 |
| WebGL.ShortHexChannels | public/js/webgl.js:123-128 | a three-digit colour `#xyz` is read as the pair `xy`, the lone digit `z` and an empty slice: the blue channel is `NaN` |
| WebGL.CanvasDimension | public/js/webgl.js:36-37 | storing a size in `canvas.width` keeps its integer part |
| WebGL.ResizeSettles | public/js/webgl.js:30-43 | with whole display sizes, a resize is not needed again right after one |
| WebGL.ResizeNeverSettles | public/js/webgl.js:35-37 | as written, a fractional display width makes every later check ask for a resize |
| WebGL.ResizeExample | public/js/webgl.js:35-37 | example, the input of the resize finding: a display width of 301.5 still needs a resize after the canvas was set to it |
| WebGL.FlooredResizeSettles | public/js/webgl.js:30-43 | corrected: once the canvas has the floored size, no further resize is needed |
| WebGL.ColorUploadsSpec | public/js/webgl.js:136-141 | colours are uploaded slot by slot, numbered in order, until a missing colour throws; the pass throws exactly when a listed slot is missing, right after the slots before the first missing one, and otherwise uploads every slot |
| WebGL.ColorKeysListed | public/js/webgl.js:136-141 | a frame's colour pass throws exactly when one of `color1` to `color4` is missing |
| WebGL.UniformUploads | public/js/webgl.js:130-148 | time and resolution come first. With colours, slots 1 to 4 follow in order with `color1` to `color4`; with an animation, the last three uploads are speed, complexity and scale with their values; nothing else is uploaded. There are no colour uploads without colours and no scalar uploads without an animation. The pass throws exactly when a colour slot is missing, and then only the slots before the first missing one follow the prefix and no scalar is uploaded |
| WebGL.WebGLRenderer.constructor | public/js/webgl.js:2-11 | a new renderer has no context or program, is uninitialised, and has drawn nothing |
| WebGL.WebGLRenderer.Resize | public/js/webgl.js:30-43 | as written: when the stored size differs from the display size, the canvas takes its integer part and the viewport is set when there is a context |
| WebGL.WebGLRenderer.ResizeFloored | public/js/webgl.js:30-43 | corrected: the canvas ends at the floored display size, with a viewport call only when that size changed |
| WebGL.WebGLRenderer.Init | public/js/webgl.js:13-28 | without a context nothing is initialised and the canvas is untouched. With one, the canvas and viewports are as after `resize()` as written, and the renderer is initialised exactly when the shaders linked |
| WebGL.WebGLRenderer.UpdateUniforms | public/js/webgl.js:130-148 | appends exactly the uploads `UniformUploads` lists for the elapsed seconds |
| WebGL.WebGLRenderer.Render | public/js/webgl.js:150-160 | nothing happens before initialisation. Otherwise the canvas and viewports are as after `resize()` as written, the frame's `UniformUploads` at the new canvas size are appended, and one draw follows unless the upload throws |
| Beacon.InsertToken | scripts/setup-analytics.js:17-20 | text without the placeholder is unchanged. Otherwise the text before and after the first placeholder is kept |
| Beacon.InsertLiteral | src/index.js:13 | a `$`-free token replaces exactly the first placeholder |
| Beacon.SecondPlaceholderKept | scripts/setup-analytics.js:27-30 | of two placeholders only the first is substituted |
| Beacon.DollarTokenKeepsPlaceholder | src/index.js:13 | a configured token `$&` writes the placeholder back in place of itself |
| Analytics.ValidateToken | scripts/setup-analytics.js:46-50 | true exactly for 32 characters that are all radix-16 digits, in either case |
| Analytics.ValidTokenIsLiteral | scripts/setup-analytics.js:17-20 | a valid token contains no `$`, so it is written literally |
| Analytics.PlaceholderIsInvalid | scripts/setup-analytics.js:46-50 | the placeholder itself is not a valid token |
| Analytics.InvalidTokenExamples | scripts/setup-analytics.js:46-50 | examples of the `ValidateToken` equivalence: a non-digit character or a length of 31 is refused |
| Analytics.ConfirmedAnswers | scripts/setup-analytics.js:74 | the confirmation accepts exactly `y` and `yes` in any mix of cases |
| Analytics.UpdateAnalyticsToken | scripts/setup-analytics.js:12-44 | `wrangler.jsonc` is substituted and written before `index.html` is read. A missing first file writes nothing, a missing second file leaves the first one updated, and both end with status 1 |
| Analytics.Setup | scripts/setup-analytics.js:55-81 | an empty trimmed token stops the script, then an invalid one stops it, then an unconfirmed one. Only a valid, confirmed token updates the files |
| Analytics.SetupWritesToken | scripts/setup-analytics.js:17-30 | a completed setup puts the trimmed token literally in place of each file's first placeholder |
| Analytics.SurroundingSpaceIgnored | scripts/setup-analytics.js:55-56 | any whitespace typed before and after a valid token does not change the run |
| Worker.RewrittenAttributes | src/index.js:9-16 | only a present, non-empty `data-cf-beacon` value is rewritten; every other attribute is kept |
| Worker.RewriteWithoutPlaceholder | src/index.js:13 | a beacon value without the placeholder is left as it is |
| Worker.BeaconJsonRewritten | src/index.js:13 | a `{"token": ...}` beacon value receives a `$`-free token literally |
| Worker.AnalyticsRewriter.constructor | src/index.js:5-7 | the rewriter holds the given token |
| Worker.AnalyticsRewriter.Element | src/index.js:9-16 | the element's attributes become `RewrittenAttributes` of the old ones |
| Worker.RewriteDecisionExamples | src/index.js:37-41 | examples of the rewrite decision: an HTML type with parameters is rewritten. An unset, empty or placeholder token, a non-HTML type or a missing header is not |
| Worker.Fetch | src/index.js:20-54 | a failed asset lookup answers 404 `Not Found`. The asset is rewritten exactly when the rewrite decision holds, and is otherwise served unchanged |
| Worker.RewriteTokenIsConfigured | src/index.js:37-45 | the installed rewriter never substitutes an empty token or the placeholder, and only for an HTML type |

## Left out

- Floating-point arithmetic: numbers are exact reals. `Math.round` of the HSL conversion (gradients.js:63-92) is not modelled. `Randomize` takes the four rounded colours as parameters.
- `Math.random()`, `Date.now()`, `new Date().toISOString()` and the number-to-text conversion are parameters.
- `JSON.stringify` and `JSON.parse` are function parameters. The round trips assume, through `JsonRestores` and `FileRestores`, that JSON carries the one record encoded through; a record holding `NaN` or an infinity, which JSON writes as `null`, is not covered. Decoded colour array items are assumed to be strings, so a share link of settings with a missing colour slot is not covered either.
- Strings are sequences of Unicode scalar values, while JavaScript strings are UTF-16 code units. `length`, `slice` and `btoa` differ for characters outside the Basic Multilingual Plane. Such a character is two code units above `0xFF` in JavaScript and one character above `0xFF` here, so `btoa` rejects it either way.
- JsStrings.LowerAscii: lowers only `A`-`Z`, while `toLowerCase` maps all of Unicode, with `İ` becoming two code units and `Σ` depending on its context. The model is used only for the confirmation check, and there the answer is the same, as only `Y`, `E` and `S` lower-case to `y`, `e` and `s`.
- Fields inherited from `Object.prototype` are not modelled. For example, `GRADIENT_PRESETS['toString']` is not a preset here.
- Callbacks are observers identified by handles and are assumed not to throw. Each receives a snapshot of the settings; the source passes the live object.
- DOM, download, clipboard, notification and event-binding code are outside the modelled core: `exportPNG`, `exportSVG`, `exportCSS`, `copyCSS`, `fallbackCopy`, the notifications, `bindEvents`, `controls.js` and `main.js`. A file written by `writeFileSync` that fails is not modelled either.
- WebGL API calls (shader compilation, buffers, `clearColor`, `drawArrays`) are recorded only as their effects. `init` takes whether a context was obtained and whether the shaders linked as parameters.
- WebGL.WebGLRenderer.Resize: requires non-negative display sizes, which `clientWidth * devicePixelRatio` always is. `CanvasDimension` is the integer part, which is what `canvas.width` and `canvas.height` hold only up to 2147483647. A larger value sets the attribute back to its default of 300 wide or 150 high, and sizes of 2^32 and more wrap modulo 2^32 first. Neither case is modelled.
- Gradients.DecodeSettings: a truthy non-object value under `c`, and a colour array whose items are not strings, are outside the model.
- Export.ExportManager.ImportSettings: a truthy non-object `settings` value (a number, say) is treated as having no `colors` and no `animation`. A hand-edited file whose `colors` or `animation` is a string or an array, which `updateColors` and `updateAnimation` would spread index by index, cannot be represented either.
- The Worker's HTML parsing and streaming are not modelled. `Fetch` reports whether the rewriter is installed, and `AnalyticsRewriter.Element` models what it does to each matching element.

## Findings

| source | as written | input that shows it | evidently intended | confidence | as-written member | corrected member |
|---|---|---|---|---|---|---|
| public/js/presets.js:342 | `this.presets = GRADIENT_PRESETS` aliases the built-in table, so `removeCustomPreset` tests `!GRADIENT_PRESETS[name]` against the same object it just added to and always returns false. `addCustomPreset` also writes into the global table | `addCustomPreset('my-custom', p)` then `removeCustomPreset('my-custom')` returns false | custom presets live in a copy, so removing one just added succeeds and built-ins stay protected | not executed | Presets.AddThenRemove | Presets.AddThenRemoveIsolated |
| public/js/webgl.js:35-37 | `canvas.width` keeps only the integer part of `clientWidth * dpr`, so the `!==` test stays true for a fractional size. The canvas is then resized and the viewport reset on every frame | `clientWidth * dpr` = 301.5 | resize only when the displayed size changed, comparing against the size the canvas can hold | not executed | WebGL.ResizeNeverSettles | WebGL.FlooredResizeSettles |

`WebGLRenderer.Render` and `WebGLRenderer.Init` run the as-written `Resize`. The corrected `ResizeFloored` is kept beside it and is not used by them.
