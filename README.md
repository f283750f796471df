# hovering-images: the configuration pipeline of `<hovering-images>`

`<hovering-images>` is a custom element that renders a list of images and
floats each one with its own direction, strength, depth, duration and delay.
This project models what its `render()` does with its configuration, and the
entry points that call `render()`.

- **Choosing the source.** A non-empty `images` attribute (a JSON string)
  wins. Otherwise a truthy `images` property wins. Otherwise the element's
  `<img>` children and children carrying `data-src` are used, in document
  order. Sources are never merged.
- **Rejecting a source.** An attribute that is not JSON, or is JSON but not
  an array, or a truthy property that is not an array, logs one message. The
  container is left empty.
- **Defaults.** Each entry of the accepted array is turned into one image.
  A nullish `strength` becomes 12, `z` becomes index·15, `duration` becomes
  6 + index·1.5 and `delay` becomes −index. A falsy `direction` becomes "y".
  The children path applies the same defaults with `||` to attribute strings.
- **Float vector.** "x" gives (s, 0), "xy" gives (0.7s, −0.7s), and "y" or
  anything else gives (0, −s).
- **Entry points.** The `images` setter parses strings and stores null on a
  parse failure. The getter returns what was stored. `attributeChangedCallback`
  re-renders only on a real change of the `images` attribute.

Modules, one file each:

- `Js` (js.dfy): JavaScript values, truthiness, `||`, `??`, property reads, `Number()`.
  `JsValue` holds JSON-like data. `Js.ToNumber` converts a plain data object
  or array through its string form. An array of two or more elements gives
  NaN, because its string form contains a comma.
- `FloatMotion` (motion.dfy): the direction switch.
- `Entry` (entry.dfy): per-entry defaulting and the appended image.
- `Markup` (markup.dfy): the children fallback.
- `Resolution` (resolution.dfy): source precedence and what a render pass produces, as functions.
- `Element` (element.dfy): the class `HoveringImages` with its mutable state
  (`imagesAttr`, `imagesConfig`, `children`, `container`, `diagnostics`). It
  holds `Render`, whose `forEach` loop is the method `AppendImages`, the setter
  and getter, and the callbacks.

`JSON.parse` and `Number()` of a string are calls into the browser. They
enter the model as the two functions of `Resolution.Host`: `parse` (None
when `JSON.parse` throws) and `numeral`.

Notes on how the code behaves:

- The attribute is tried before the property.
- A string given to the setter that is not JSON stores `null`. When no
  non-empty `images` attribute is set, `render()` then falls back to the
  children instead of stopping (`UnparsableStringPropertyFallsBack`).
- A string stored in the property is never parsed by `render()`
  (`StoredStringIsNotReparsed`).
- `Number()` of a string that is not numeric text, or of a plain object,
  gives NaN, and NaN is carried into the image (`NaNStrengthPropagates`). The
  code applies no fallback for it. Null, booleans, `""` and `[]` convert to
  0 or 1, not NaN.
- A `null` or `undefined` entry in an accepted array makes the `forEach`
  throw a TypeError when it reads `config.src`. The images appended before it
  stay in the container (`Outcome.Threw`, `RenderEntries`).

## Model

| member | source | states |
|---|---|---|
| `Js.ToNumberOfNumber` | src/hovering-images.js:182-185 | `Number()` of a number (including NaN) is that number, whatever the host's string conversion is |
| `Js.CoalesceDiffersFromOr` | src/hovering-images.js:181-185 | nullish (`??`) and falsy (or-operator) defaulting differ exactly on falsy non-nullish values (0, NaN, "", false) that differ from the fallback |
| `FloatMotion.FloatVectorCases` | src/hovering-images.js:187-201 | "x" gives (s, 0), "xy" gives (0.7s, −0.7s), every other direction gives (0, −s) |
| `FloatMotion.UnrecognisedDirectionIsY` | src/hovering-images.js:190-201 | any direction other than the strings "x" and "xy" moves exactly like "y" |
| `FloatMotion.MovingAxes` | src/hovering-images.js:187-201 | for a non-zero strength, x moves iff the direction is "x" or "xy", and y moves iff it is not "x" |
| `FloatMotion.FloatVectorIsLinear` | src/hovering-images.js:187-201 | the offset is the strength times the unit offset of the direction, so strength 0 means no motion |
| `FloatMotion.NaNStrengthPropagates` | src/hovering-images.js:182-201 | a NaN strength reaches exactly the axes the direction moves |
| `FloatMotion.StrengthTenExamples` | src/hovering-images.js:187-201 | with strength 10: (10, 0) for "x", (7, −7) for "xy", (0, −10) for "y" and for an unknown direction |
| `Entry.AbsentFieldsTakeDefaults` | src/hovering-images.js:181-185 | a nullish field takes 12, index·15, 6 + index·1.5 or −index; a falsy direction becomes "y" |
| `Entry.GivenFieldsAreKept` | src/hovering-images.js:181-185 | a given number is kept for each of the four numeric fields, and a truthy direction is kept |
| `Entry.ZeroStrengthIsKept` | src/hovering-images.js:182-201 | an explicit strength 0 stays 0 and the image does not move, where falsy defaulting would have made it 12 |
| `Entry.DefaultExamples` | src/hovering-images.js:181-185 | the entry `{}` gets depth 30 at index 2, duration 7.5 at index 1, delay −3 at index 3, and ("y", 12, 0, 6, 0) at index 0 |
| `Entry.SettingsOf` | src/hovering-images.js:181-185 | the direction is always truthy, and an entry with no keys gets exactly ("y", 12, index·15, 6 + index·1.5, −index); specified further by `AbsentFieldsTakeDefaults`, `GivenFieldsAreKept`, `ZeroStrengthIsKept` |
| `Entry.ImageOf` | src/hovering-images.js:172-210 | the image gets a source only when the entry's `src` is truthy, and then exactly that value; only direction "xy" moves on both axes |
| `FloatMotion.FloatVector` | src/hovering-images.js:187-201 | every direction but "xy" leaves one axis at 0, and strength 0 gives no motion; specified further by `FloatVectorCases` and `MovingAxes` |
| `Js.ToNumber` | src/hovering-images.js:182-185 | numbers and NaN are unchanged, undefined gives NaN, null and false give 0, true gives 1, an array of two or more elements gives NaN |
| `Markup.ChildRecord` | src/hovering-images.js:153-162 | the record has exactly the keys src, direction, strength, z, duration and delay; its direction is truthy and its four numeric fields are already numbers |
| `Markup.ChildRecords` | src/hovering-images.js:153 | one record per qualifying child, the i-th built at index i of the filtered list, not of all children |
| `Markup.ChildAbsentFieldsTakeDefaults` | src/hovering-images.js:155-161 | each absent or empty `data-*` setting on its own gives "y", 12, index·15, 6 + index·1.5 or −index, whatever the other attributes are |
| `Markup.Qualifying` | src/hovering-images.js:147-149 | the kept children are exactly those that are `<img>` or have `data-src`, and never more than the input |
| `Markup.QualifyingAppend` | src/hovering-images.js:147-149 | the filter keeps document order: filtering a concatenation concatenates the filtered parts |
| `Markup.QualifyingKeepsOrDrops` | src/hovering-images.js:147-151 | all children qualifying keeps the list whole; the result is empty iff no child qualifies |
| `Markup.ChildRecordsAreObjects` | src/hovering-images.js:153-162 | one record per qualifying child, each an object, so none makes the `forEach` throw |
| `Markup.ChildImageSource` | src/hovering-images.js:154 | the image source is the non-empty `src`, else the non-empty `data-src`, else none |
| `Markup.ChildAttributesAreRead` | src/hovering-images.js:155-161 | a non-empty `data-*` attribute gives the direction as written, or the number the host reads from it |
| `Markup.BareChildMatchesBareEntry` | src/hovering-images.js:153-162 | a child whose `data-*` settings are all absent or empty renders like an array entry holding only its source, so both paths use the same defaults |
| `Resolution.Resolve` | src/hovering-images.js:112-163 | render() itself never reports the setter's parse message, and the children source gives one object entry per qualifying child; specified further by the precedence and rejection lemmas below |
| `Resolution.Stored` | src/hovering-images.js:71-82 | a non-string is stored as given; a string stores its parse, or null when it is not JSON |
| `Resolution.FirstNullish` | src/hovering-images.js:172-176 | the first index whose entry is null or undefined, or the length; every entry before it can be read |
| `Resolution.RenderEntries` | src/hovering-images.js:172-211 | image i is entry i normalised at index i; the pass completes iff no entry is nullish, and then there are N images; otherwise it throws at the first nullish entry, with exactly the images before it |
| `Resolution.Rendered` | src/hovering-images.js:110-143 | a rejected source leaves the container empty with its one diagnostic; an accepted one never aborts |
| `Resolution.AttributeTakesPrecedence` | src/hovering-images.js:115-132 | with a non-empty attribute, the property and the children have no influence on the outcome |
| `Resolution.PropertyTakesPrecedence` | src/hovering-images.js:133-146 | without an attribute, a truthy property decides alone; an empty array hides the children |
| `Resolution.SourcesAreNotMerged` | src/hovering-images.js:112-163 | the entries are exactly the parsed attribute array, exactly the property array, or exactly the children's records |
| `Resolution.RejectedExactly` | src/hovering-images.js:116-143 | rejection happens iff the set attribute is not JSON for an array, or there is no attribute and the truthy property is not an array |
| `Resolution.CountAndOrder` | src/hovering-images.js:172-211 | with no nullish entry, an accepted array of N entries gives exactly N images, in input order |
| `Resolution.ChildFallback` | src/hovering-images.js:145-163 | with no attribute and a falsy property, one image per qualifying child in document order, or none when no child qualifies |
| `Resolution.UnparsableStringPropertyFallsBack` | src/hovering-images.js:73-79 | a non-JSON string given to the setter is stored as null, and with no non-empty attribute `render()` then uses the children |
| `Resolution.StoredStringIsNotReparsed` | src/hovering-images.js:134-143 | a non-empty string in the property is rejected as not an array, not parsed |
| `Resolution.SetterStorage` | src/hovering-images.js:71-82 | non-strings are stored unchanged; a string stores its parse, and an array parse is used as the property source |
| `Element.HoveringImages.constructor` | src/hovering-images.js:7-10 | the property starts as null and the container starts empty |
| `Element.HoveringImages.Render` | src/hovering-images.js:108-212 | the container becomes exactly the images of the resolved source, the previous contents discarded; a rejection appends one diagnostic |
| `Element.HoveringImages.AppendImages` | src/hovering-images.js:172-211 | the loop appends exactly the images `RenderEntries` gives, after the container's previous contents, and ends as it says |
| `Element.HoveringImages.Images` | src/hovering-images.js:86-88 | the getter returns the stored `_imagesConfig`; with `SetImages` this is what the setter stored |
| `Element.HoveringImages.SetImages` | src/hovering-images.js:71-88 | the getter afterwards returns the stored value; a non-JSON string logs one diagnostic, then the render's own diagnostic follows; the container is re-rendered |
| `Element.HoveringImages.AttributeChangedCallback` | src/hovering-images.js:64-68 | renders iff the name is "images" and the old and new values differ; otherwise nothing changes |
| `Element.HoveringImages.SetImagesAttribute` | src/hovering-images.js:3-5 | setting the attribute to its current value changes neither container nor log; a different value re-renders and logs the render's diagnostic, if any |
| `Element.HoveringImages.Connected` | src/hovering-images.js:53-56 | connecting renders the current inputs and logs the render's diagnostic, if any |
| `Element.HoveringImages.ChildrenMutated` | src/hovering-images.js:90-92 | an observed change of the children re-renders from the new children and logs the render's diagnostic, if any |
| `Element.HoveringImages.RenderAgain` | src/hovering-images.js:108-110 | rendering twice with unchanged inputs gives the same container and the same outcome; a rejected source logs its message once per call |

## Left out

- Shadow DOM, the CSS template and keyframes, and the style strings (`${x}px`, the animation string) are presentation only (src/hovering-images.js:9-49, 204-208). `Entry.Image` records the values written into them.
- The `MutationObserver` is not modelled: its options, the attribute filter and `disconnect` (lines 58-62, 90-106). `ChildrenMutated` stands for one observed change followed by the callback's `render()`.
- The custom-element registration and the `window` check (lines 215-221) are host glue.
- `console.error` is I/O. It is modelled as a `Diagnostic` appended to `diagnostics`, without the message text or the `typeof` it prints.
- `JSON.parse` and `Number()` of a string are foreign calls. They are the `Host` parameters `parse` and `numeral`, and the JSON grammar and numeric-string syntax are not modelled.
- Floating point is not modelled: numbers are exact reals. So 0.7·s and 6 + i·1.5 carry no IEEE rounding, and −0 is not distinguished from 0.
- Sparse arrays, whose holes `forEach` skips, are not modelled: `Arr` is dense. Nor are inherited or getter-defined properties of entries. An entry's keys are its own map.
- `img.src = config.src` converts the value to a string and resolves a URL. `Image.src` keeps the value as given.
- The safety check at lines 165-169 cannot fail, because every branch yields a sequence. The model has no such branch.
- A TypeError thrown by `render()` propagates out of the setter or callback that called it. The model returns it as `Outcome.Threw`, with the state reached at that point.
- Element.HoveringImages.SetImages: aliasing of the stored array is not modelled. JavaScript keeps the caller's array by reference (lines 81, 86-88), so mutating it changes what the next `render()` draws without causing a render. `imagesConfig` is a value and stands for the array's contents at the next render.
- `Js.ToNumber` and `Entry.ImageOf` are total, because `JsValue` holds JSON-like data only: no functions, Symbols, BigInts or ±Infinity, and no objects with their own `valueOf` or `toString` (a `Date`, an object whose `toString` is not a function). On such values, `Number()` (src/hovering-images.js:182-185) and `img.src = config.src` (src/hovering-images.js:177) can throw in JavaScript. The only throw the model has is the one for a null or undefined entry.
