# QR form size controller: a Dafny model

The page script of a browser form that renders text as a QR code keeps a small amount
of state: the size chosen with a range slider or typed into an exact-size box, and a
snapshot of the last generation. It uses that state to decide whether the image on
screen is stale, i.e. whether the inputs differ from what was last rendered. This
project models that controller (`src/main.js`) and proves what its helpers and event
handlers do to the state.

- `text.dfy`, module `JsText`: the JavaScript primitives the controller relies on.
  These are `String.prototype.trim` over the ECMAScript white-space and line-terminator
  characters, `parseInt(s, 10)` (NaN as `None`) and `String(n)` for an integer `n`.
  Proved: `parseInt` reads back what `String` writes, including with leading white
  space and trailing non-digit text ("12abc" gives 12). Trimming is idempotent, it
  strips exactly the surrounding white space, and it gives "" exactly for blank text.
  `parseInt` gives the same answer on the trimmed text as on the raw text.
- `sizing.dfy`, module `Sizing`: the slider-attribute defaults (`parseInt(attr) || d`),
  the clamp into `[min, max]` and JavaScript's truncating `%`. It also holds the
  step-alignment test under which a typed number moves the slider.
- `controller.dfy`, module `QrForm`: class `FormController`.
  - Its fields are the DOM values the script reads and writes: slider, exact-size box,
    size label, badge, main text, dirty mark, error display and advanced panel. There
    are also the closure variables `hasGenerated`, `lastGeneratedSize` and
    `lastGeneratedText`.
  - A ghost log records every renderer call.
  - Each helper (`updateSizeDisplays`, `setDirty`, `markDirtyIfNeeded`,
    `markTextDirtyIfNeeded`, `clampAndSync`) and each event handler is a method.
  - The invariant `Valid` ties the badge to the label. It also ties the snapshot to the
    last renderer call, and says that nothing is dirty before the first generation.
  - Both dirty rules are proved to mean the same thing: the inputs differ from the
    snapshot (`Stale`).
- `scenarios.dfy`, module `Scenarios`: event sequences on a page with slider bounds
  32 and 512 and step 8. They are followed through the contracts above, so they are
  checked by the verifier and not executed.

Event payloads (the new slider position, the typed text, the key pressed) are method
parameters. The slider attributes are constructor parameters, given as the strings the
page holds.

## Model

| member | source | states |
|---|---|---|
| `JsText.Trim` | src/main.js:143 | the trimmed text is no longer than the input and has no white space at either end |
| `JsText.TrimEmptyIffBlank` | src/main.js:143-148 | trimming gives "" exactly when every character is white space (both directions) |
| `JsText.TrimSurrounded` | src/main.js:198 | trimming white space around an unpadded text gives back exactly that text |
| `JsText.TrimIdempotent` | src/main.js:58 | trimming an already trimmed text changes nothing |
| `JsText.IntToString` | src/main.js:31 | `String(n)` is non-empty, has no surrounding white space, and starts with '-' exactly for negative n |
| `JsText.ParseIntPrefix` | src/main.js:74 | `parseInt(s, 10)` is NaN exactly when, after the leading white space, the text starts with neither a digit nor a sign followed by a digit; a negative result comes only after a '-' |
| `JsText.ParseIntPrefixOfDecimal` | src/main.js:150 | `parseInt` of leading white space, then `String(n)`, then text not starting with a digit, is n |
| `JsText.ParseIntRoundTrip` | src/main.js:131-133 | `parseInt(String(n))` is n for every integer n |
| `JsText.ParseIntPrefixOfTrim` | src/main.js:143-152 | `parseInt` of the trimmed text equals `parseInt` of the raw text |
| `JsText.ParseIntPrefixBlank` | src/main.js:172-173 | `parseInt` of blank text is NaN |
| `JsText.ParseIntPrefixTrimmedEmpty` | src/main.js:215-216 | text that trims to "" does not parse |
| `Sizing.AttrOr` | src/main.js:85-86 | the attribute read with `parseInt` and falling back to d is either d or the non-zero number it parses to, and is that number whenever it is non-zero; a missing, unparseable, blank or zero attribute gives d |
| `Sizing.SliderOrDefault` | src/main.js:131 | the slider read with the DEFAULT_SIZE fallback is the slider value unless that is 0, and is never 0 |
| `Sizing.OrDefault` | src/main.js:87 | a parsed number is kept and NaN becomes DEFAULT_SIZE |
| `Sizing.Clamp` | src/main.js:88-89 | the result is at most max, at least min when min <= max, exactly max when min > max, and an in-range value is unchanged |
| `Sizing.ClampIdempotent` | src/main.js:84-89 | clamping a clamped value changes nothing, whatever the bounds |
| `Sizing.JsRemainder` | src/main.js:157 | JavaScript's `%` is smaller in magnitude than the divisor and a non-zero result has the dividend's sign |
| `Sizing.JsRemainderZero` | src/main.js:157 | JavaScript's `%` is zero exactly when the Euclidean remainder is zero |
| `Sizing.SnapsSliderReachable` | src/main.js:157-159 | a typed number moves the slider exactly when it is within bounds and a whole number of steps above min |
| `Sizing.SnapsSlider` | src/main.js:157 | a typed number the slider takes lies within the bounds, is a whole number of steps (Euclidean remainder 0) above min, and is left unchanged by the clamp of a later blur or submit |
| `QrForm.Stale` | src/main.js:54-79 | a size that is NaN always counts as a difference; comparing the size first and then the trimmed text (`markDirtyIfNeeded`) and comparing the text first and then a non-NaN size (`markTextDirtyIfNeeded`) give the same answer |
| `QrForm.ResolvedSize` | src/main.js:74 | a box that parses always decides the size; a blank box gives the slider value; the size is NaN exactly when the box is neither blank nor a number |
| `QrForm.SubmitSize` | src/main.js:213-225 | the submitted size is the clamped box number when the box parses; when that number is in bounds it is the number itself; otherwise it is the slider value, or DEFAULT_SIZE for a zero slider |
| `QrForm.ResolvedAfterSync` | src/main.js:74 | once the box holds `String(v)`, the size that `markTextDirtyIfNeeded` resolves is v, whatever the slider holds |
| `QrForm.RecheckAfterSubmit` | src/main.js:74-80 | re-checking staleness in the state a valid submit leaves finds it clean exactly when the box parsed, or was blank over a non-zero slider |
| `QrForm.FormController.ButtonLabel` | src/main.js:40-49 | the caption is "Re-generate QR Code" exactly when the output is dirty |
| `QrForm.FormController.constructor` | src/main.js:99-101 | on page load the bounds are the attributes with their defaults, and slider, box, label and badge all show the slider value; nothing is generated or dirty |
| `QrForm.FormController.UpdateSizeDisplays` | src/main.js:30-37 | label and badge ("…px") show the value, and the box does too only when asked |
| `QrForm.FormController.SetDirty` | src/main.js:40-50 | the dirty mark is set as asked and the caption follows it |
| `QrForm.FormController.MarkDirtyIfNeeded` | src/main.js:52-64 | before the first generation dirty is untouched; after it, dirty holds exactly when the size or the trimmed main text differs from the snapshot |
| `QrForm.FormController.MarkTextDirtyIfNeeded` | src/main.js:67-81 | before the first generation dirty is untouched; after it, dirty holds exactly when the trimmed text or the resolved size (box if not blank, else slider; NaN differs) differs from the snapshot |
| `QrForm.FormController.ClampAndSync` | src/main.js:84-97 | returns the clamp of the number (NaN as DEFAULT_SIZE), within the bounds as `Clamp` states; slider, box, label and badge all show it; dirty reflects the snapshot comparison at that size |
| `QrForm.FormController.OnTextInput` | src/main.js:104-112 | the error is cleared, and dirty reflects whether the new text or the current size differs from the snapshot |
| `QrForm.FormController.OnToggleAdvanced` | src/main.js:115-127 | opening the panel changes nothing else; closing it resets every size display to the clamped default and re-checks dirty |
| `QrForm.FormController.OnSliderInput` | src/main.js:130-138 | box, label and badge take the slider value (DEFAULT_SIZE for 0), and dirty equals the snapshot comparison at that size |
| `QrForm.FormController.OnSizeFieldInput` | src/main.js:142-168 | a blank box changes neither slider nor dirty; non-numeric text never moves the slider; a number moves it only when step-aligned and in bounds; for a non-blank box, dirty reflects the typed size |
| `QrForm.FormController.OnSizeFieldBlur` | src/main.js:171-181 | every size display shows the clamped box number, or the clamped slider value when the box does not parse; dirty reflects the snapshot comparison |
| `QrForm.FormController.OnSizeFieldKeydown` | src/main.js:182-187 | Enter acts as a blur and any other key changes nothing |
| `QrForm.FormController.OnReset` | src/main.js:190-193 | every size display shows the clamped default and dirty reflects the snapshot comparison at that size |
| `QrForm.FormController.ResolveSubmitSize` | src/main.js:213-225 | the size is `SubmitSize` of the box and slider; a parsing box is synced everywhere, otherwise nothing changes |
| `QrForm.FormController.Commit` | src/main.js:228-241 | exactly one renderer call with (text, size, size) is logged, the snapshot becomes (size, text), and dirty is cleared |
| `QrForm.FormController.OnSubmit` | src/main.js:196-242 | blank main text shows the error and changes nothing else, with no render; otherwise one render of the trimmed text at `SubmitSize`, then the snapshot is committed and dirty is cleared |
| `Scenarios.AttrOfDecimal` | src/main.js:85-86 | a non-zero decimal attribute reads as its own value |
| `Scenarios.LoadPage` | src/main.js:153-155 | attributes "32", "512", "8" give bounds 32 and 512 and step 8 |
| `Scenarios.TypeThenLeave` | src/main.js:142-181 | a typed in-bounds number that is not step-aligned is shown without moving the slider, and leaving the box moves the slider to it |
| `Scenarios.GenerateThenMoveSlider` | src/main.js:130-241 | after generating at slider value v the output is clean; moving to w makes it dirty; moving back to v makes it clean |
| `Scenarios.EditTextThenRevert` | src/main.js:104-112 | after a generation, editing the main text to something that trims differently makes it dirty, and restoring it makes it clean |

## Where the code differs from what one would expect

The model follows the code in both of these places:

- **Staleness right after a submit.** One would expect that right after a successful
  generation, re-checking staleness with no further edit finds the output clean. In
  the code this does not always hold (`QrForm.RecheckAfterSubmit` proves both
  directions). The mismatch needs a submit while the box still holds non-numeric text
  or is blank, with no blur of the box in between. With non-numeric text such as
  "abc", submit renders at the slider value, but `markTextDirtyIfNeeded` counts the
  unparseable box as a difference. With a blank box over a slider holding 0, submit
  renders at 128 (`|| DEFAULT_SIZE`), but the re-check compares against 0. `OnSubmit`
  itself clears the dirty mark, so the mismatch appears only at the next event that
  re-checks, such as an edit of the main text. In a browser this state does not
  arise: the box gets such text only while it has focus, leaving it runs its blur
  handler first (src/main.js:171-181), which writes a number into it, and Enter in
  the box becomes a blur (src/main.js:182-187). The mismatch belongs to the handlers
  taken alone, called in an order the model allows and a browser does not (see
  "Left out").
- **The clamp.** One would expect the clamp to return a value in `[min, max]`. The
  code tests `< min` first and `> max` second, so the result is always at most max,
  but at least min only when min <= max (`Sizing.Clamp`).

## Left out

- The QR renderer (src/main.js:228-235) is an external library. The model logs only
  the text, width and height it is called with; colours and error-correction level
  are left out, and so is the clearing of the output element (src/main.js:211).
- Focus is not modelled, and neither is the blur of the exact-size box that a browser
  runs before any interaction elsewhere on the page. The handlers are methods that may
  be called in any order, so the model admits event sequences a browser never
  produces, such as a submit while the box still holds non-numeric text.
- Left out: DOM lookup, event registration, CSS class changes, `aria-hidden`, the
  toggle's caption, `focus()`, `preventDefault()`, and the `blur()` re-dispatch.
  Enter in the box is a direct call of the blur handler.
- UI strings other than the button caption are left out. The validation error is a
  boolean.
- The null-element guards (`if (slider)`, `?.`, `if (!output) return`) are left out.
  Every element is taken to exist.
- The model reads the slider's `min`, `max` and `step` attributes once, at
  construction. The code re-reads them on every call; nothing in the code changes them.
- The slider is a stored integer. The browser's own sanitisation of a range input's
  value is not in the code and is not modelled.
- Floating point is left out, because every number the controller handles is a
  `parseInt` result.
  - `Math.round` and `Number.isFinite` are modelled for an integer or NaN only.
  - `String(n)` switches to exponent notation for |n| >= 10^21; the model does not.
  - `parseInt` loses precision beyond 2^53; the model's integers are unbounded.
  - `parseInt` of a run of roughly 309 or more digits gives Infinity. In the code,
    `Number.isFinite` then fails and `clampAndSync` uses DEFAULT_SIZE (src/main.js:87,
    reached from the blur at 177 and the submit at 219). The model keeps the huge
    integer, which the clamp lowers to max, so for such input its blur and submit end
    at max where the code ends at the clamped DEFAULT_SIZE.
- The `typeof` tests in `markDirtyIfNeeded` and `markTextDirtyIfNeeded` (src/main.js:54,
  69) are not modelled: every caller passes a number and a string respectively.
- `QrForm.FormController.OnSubmit` does not itself promise the re-check result above.
  It states the new state exactly, and `QrForm.RecheckAfterSubmit` states the re-check
  result for that state.
