/** The size-and-staleness controller of the QR form: the closure state of the page
    script (the generation snapshot) and the DOM fields it reads and writes, with one
    method per helper and per event handler. */
module QrForm {
  import opened JsText
  import opened Sizing

  /** One call of the external QR renderer: the text and the pixel width and height. */
  datatype Render = Render(text: string, width: int, height: int)

  /** The inputs differ from the last committed snapshot. A size that did not parse
      always differs. Both of the code's dirty rules compute it: `markDirtyIfNeeded`
      compares the size first and then the trimmed text, `markTextDirtyIfNeeded` the
      trimmed text first and then a size that must not be NaN. */
  function Stale(size: Option<int>, text: string, committedSize: int, committedText: string): (r: bool)
    ensures size.None? ==> r
    ensures r == if size.Some? && size.value != committedSize then true else Trim(text) != committedText || size.None?
    ensures r == if Trim(text) != committedText then true else !(size.Some? && size.value == committedSize)
  {
    Trim(text) != committedText || size != Some(committedSize)
  }

  /** The size the controller currently holds: the exact-size box when it is not blank,
      else the slider (read with `parseInt`, without the default). */
  function ResolvedSize(sizeField: string, sliderValue: int): (r: Option<int>)
    ensures ParseIntPrefix(sizeField).Some? ==> r == ParseIntPrefix(sizeField)
    ensures Blank(sizeField) ==> r == Some(sliderValue)
    ensures r.None? <==> !Blank(sizeField) && ParseIntPrefix(sizeField).None?
  {
    TrimEmptyIffBlank(sizeField);
    assert Trim(sizeField) == "" ==> ParseIntPrefix(sizeField) == None by {
      if Trim(sizeField) == "" {
        ParseIntPrefixTrimmedEmpty(sizeField);
      }
    }
    if Trim(sizeField) != "" then ParseIntPrefix(sizeField) else Some(sliderValue)
  }

  /** The size a valid submit renders at: the exact-size box clamped into the bounds when
      it parses, else the slider value, or the default for a zero slider. */
  function SubmitSize(sizeField: string, sliderValue: int, lo: int, hi: int): (r: int)
    ensures ParseIntPrefix(sizeField).Some? ==> r <= hi && (lo <= hi ==> lo <= r)
    ensures (ParseIntPrefix(sizeField).Some? && lo <= ParseIntPrefix(sizeField).value <= hi) ==>
      r == ParseIntPrefix(sizeField).value
    ensures ParseIntPrefix(sizeField).Some? ==> r == Clamp(ParseIntPrefix(sizeField).value, lo, hi)
    ensures ParseIntPrefix(sizeField).None? ==> r != 0 && (sliderValue != 0 ==> r == sliderValue)
    ensures ParseIntPrefix(sizeField).None? && sliderValue == 0 ==> r == DEFAULT_SIZE
  {
    assert Trim(sizeField) == "" ==> ParseIntPrefix(sizeField) == None by {
      if Trim(sizeField) == "" {
        ParseIntPrefixTrimmedEmpty(sizeField);
      }
    }
    if Trim(sizeField) != "" && ParseIntPrefix(sizeField).Some? then
      Clamp(ParseIntPrefix(sizeField).value, lo, hi)
    else
      SliderOrDefault(sliderValue)
  }

  /** Once the box holds `String(v)`, the resolved size is `v`, whatever the slider holds. */
  lemma {:induction false} ResolvedAfterSync(v: int, sliderValue: int)
    ensures ResolvedSize(IntToString(v), sliderValue) == Some(v)
  {
    ParseIntRoundTrip(v);
  }

  /** Right after a valid submit of `text`, re-checking staleness finds the inputs equal
      to the snapshot exactly when the box parsed, or was blank over a non-zero slider. */
  lemma {:induction false} RecheckAfterSubmit(sizeField: string, sliderValue: int, lo: int, hi: int, text: string)
    ensures
      var size := SubmitSize(sizeField, sliderValue, lo, hi);
      var parsed := ParseIntPrefix(sizeField).Some?;
      var field := if parsed then IntToString(size) else sizeField;
      var slider := if parsed then size else sliderValue;
      (!Stale(ResolvedSize(field, slider), text, size, Trim(text))) <==>
        (parsed || (Trim(sizeField) == "" && sliderValue != 0))
  {
    var size := SubmitSize(sizeField, sliderValue, lo, hi);
    if ParseIntPrefix(sizeField).Some? {
      ResolvedAfterSync(size, size);
    }
  }

  class FormController {
    /** The slider's `min`, `max` and `step` attributes, with their defaults. */
    const minBound: int
    const maxBound: int
    const step: int

    /** The slider position. */
    var sliderValue: int
    /** The exact-size box, as typed. */
    var sizeField: string
    /** The size label next to the slider and the size badge. */
    var sizeLabel: string
    var badge: string
    /** The main text to encode. */
    var mainText: string
    /** The output is marked stale and the button offers to re-generate. */
    var dirty: bool
    /** The blank-text error is displayed. */
    var errorShown: bool
    /** The size controls are visible. */
    var advancedShown: bool

    /** The snapshot of the last successful generation. */
    var hasGenerated: bool
    var lastGeneratedSize: int
    var lastGeneratedText: string

    /** Every call made to the renderer, oldest first. */
    ghost var renders: seq<Render>

    ghost predicate Valid()
      reads this
    {
      minBound != 0 && maxBound != 0 && step != 0 &&
      badge == sizeLabel + "px" &&
      (!hasGenerated ==>
        !dirty && renders == [] && lastGeneratedSize == DEFAULT_SIZE && lastGeneratedText == "") &&
      (hasGenerated ==>
        renders != [] &&
        renders[|renders| - 1] == Render(lastGeneratedText, lastGeneratedSize, lastGeneratedSize) &&
        lastGeneratedText != "" && Unpadded(lastGeneratedText))
    }

    /** Slider, box, label and badge all show `v`. */
    ghost predicate ShowsSize(v: int)
      reads this
    {
      sliderValue == v && sizeField == IntToString(v) &&
      sizeLabel == IntToString(v) && badge == IntToString(v) + "px"
    }

    /** Once generated, the dirty mark says whether the inputs, at size `size`, differ
        from the snapshot. */
    ghost predicate DirtyReflects(size: Option<int>)
      reads this
    {
      hasGenerated ==> dirty == Stale(size, mainText, lastGeneratedSize, lastGeneratedText)
    }

    /** The generate button's caption. */
    function ButtonLabel(): (caption: string)
      reads this
      ensures dirty <==> caption == "Re-generate QR Code"
    {
      if dirty then "Re-generate QR Code" else "Generate QR Code"
    }

    /** Page load: read the slider attributes and show the slider value everywhere. */
    constructor (minAttr: string, maxAttr: string, stepAttr: string,
                 initialSlider: int, initialText: string, showAdvanced: bool)
      ensures Valid()
      ensures minBound == AttrOr(minAttr, DEFAULT_MIN) && maxBound == AttrOr(maxAttr, DEFAULT_MAX)
      ensures step == AttrOr(stepAttr, DEFAULT_STEP)
      ensures ShowsSize(initialSlider)
      ensures mainText == initialText && advancedShown == showAdvanced
      ensures !dirty && !errorShown
      ensures !hasGenerated && lastGeneratedSize == DEFAULT_SIZE && lastGeneratedText == ""
      ensures renders == []
    {
      minBound := AttrOr(minAttr, DEFAULT_MIN);
      maxBound := AttrOr(maxAttr, DEFAULT_MAX);
      step := AttrOr(stepAttr, DEFAULT_STEP);
      sliderValue := initialSlider;
      sizeLabel := IntToString(initialSlider);
      badge := IntToString(initialSlider) + "px";
      sizeField := IntToString(initialSlider);
      mainText := initialText;
      dirty, errorShown, advancedShown := false, false, showAdvanced;
      hasGenerated, lastGeneratedSize, lastGeneratedText := false, DEFAULT_SIZE, "";
      renders := [];
    }

    /** `updateSizeDisplays`: write `val` into the label and the badge, and into the box
        when asked to. */
    method UpdateSizeDisplays(val: string, updateTextInput: bool)
      requires Valid()
      modifies this`sizeLabel, this`badge, this`sizeField
      ensures Valid()
      ensures sizeLabel == val && badge == val + "px"
      ensures sizeField == if updateTextInput then val else old(sizeField)
    {
      sizeLabel := val;
      badge := val + "px";
      if updateTextInput {
        sizeField := val;
      }
    }

    /** `setDirty`: mark or unmark the output as stale; the caption follows. */
    method SetDirty(isDirty: bool)
      modifies this`dirty
      ensures dirty == isDirty
      ensures ButtonLabel() == if isDirty then "Re-generate QR Code" else "Generate QR Code"
    {
      dirty := isDirty;
    }

    /** `markDirtyIfNeeded`: after the first generation, dirty exactly when `newSize` or
        the trimmed main text differs from the snapshot; before it, nothing. */
    method MarkDirtyIfNeeded(newSize: int)
      requires Valid()
      modifies this`dirty
      ensures Valid()
      ensures !hasGenerated ==> dirty == old(dirty)
      ensures DirtyReflects(Some(newSize))
    {
      if !hasGenerated {
        return;
      }
      if newSize != lastGeneratedSize {
        SetDirty(true);
      } else if Trim(mainText) == lastGeneratedText {
        SetDirty(false);
      } else {
        SetDirty(true);
      }
    }

    /** `markTextDirtyIfNeeded`: after the first generation, dirty exactly when the trimmed
        `newText` or the resolved size differs from the snapshot; before it, nothing. */
    method MarkTextDirtyIfNeeded(newText: string)
      requires Valid()
      modifies this`dirty
      ensures Valid()
      ensures !hasGenerated ==> dirty == old(dirty)
      ensures hasGenerated ==>
        dirty == Stale(ResolvedSize(sizeField, sliderValue), newText, lastGeneratedSize, lastGeneratedText)
    {
      if !hasGenerated {
        return;
      }
      if Trim(newText) != lastGeneratedText {
        SetDirty(true);
      } else {
        var currentSize := if Trim(sizeField) != "" then ParseIntPrefix(sizeField) else Some(sliderValue);
        if currentSize.Some? && currentSize.value == lastGeneratedSize {
          SetDirty(false);
        } else {
          SetDirty(true);
        }
      }
    }

    /** `clampAndSync`: clamp `n` (the default when it is NaN) into the bounds, show it
        everywhere and re-check staleness against it. */
    method ClampAndSync(n: Option<int>) returns (v: int)
      requires Valid()
      modifies this`sliderValue, this`sizeField, this`sizeLabel, this`badge, this`dirty
      ensures Valid()
      ensures v == Clamp(OrDefault(n), minBound, maxBound)
      ensures v <= maxBound && (minBound <= maxBound ==> minBound <= v)
      ensures n.None? ==> v == Clamp(DEFAULT_SIZE, minBound, maxBound)
      ensures n.Some? && minBound <= n.value <= maxBound ==> v == n.value
      ensures ShowsSize(v)
      ensures !hasGenerated ==> dirty == old(dirty)
      ensures DirtyReflects(Some(v))
    {
      v := OrDefault(n);
      if v < minBound {
        v := minBound;
      }
      if v > maxBound {
        v := maxBound;
      }
      sliderValue := v;
      UpdateSizeDisplays(IntToString(v), true);
      MarkDirtyIfNeeded(v);
    }

    /** Main text `input` event: the error is cleared and staleness re-checked. */
    method OnTextInput(typed: string)
      requires Valid()
      modifies this`mainText, this`errorShown, this`dirty
      ensures Valid()
      ensures mainText == typed && !errorShown
      ensures !hasGenerated ==> dirty == old(dirty)
      ensures DirtyReflects(ResolvedSize(sizeField, sliderValue))
    {
      mainText := typed;
      errorShown := false;
      MarkTextDirtyIfNeeded(mainText);
    }

    /** Advanced toggle `click`: show or hide the size controls; hiding them resets the
        size to the default. */
    method OnToggleAdvanced()
      requires Valid()
      modifies this`advancedShown, this`sliderValue, this`sizeField, this`sizeLabel, this`badge, this`dirty
      ensures Valid()
      ensures advancedShown == !old(advancedShown)
      ensures advancedShown ==>
        sliderValue == old(sliderValue) && sizeField == old(sizeField) &&
        sizeLabel == old(sizeLabel) && badge == old(badge) && dirty == old(dirty)
      ensures !advancedShown ==>
        ShowsSize(Clamp(DEFAULT_SIZE, minBound, maxBound)) &&
        DirtyReflects(Some(Clamp(DEFAULT_SIZE, minBound, maxBound)))
      ensures !hasGenerated ==> dirty == old(dirty)
    {
      advancedShown := !advancedShown;
      if !advancedShown {
        var _ := ClampAndSync(Some(DEFAULT_SIZE));
      }
    }

    /** Slider `input` event: the slider moved to `newValue`; the box and the displays
        take `parseInt(value) || DEFAULT_SIZE` and staleness is re-checked against it. */
    method OnSliderInput(newValue: int)
      requires Valid()
      modifies this`sliderValue, this`sizeField, this`sizeLabel, this`badge, this`dirty
      ensures Valid()
      ensures sliderValue == newValue
      ensures sizeField == IntToString(SliderOrDefault(newValue))
      ensures sizeLabel == IntToString(SliderOrDefault(newValue))
      ensures badge == IntToString(SliderOrDefault(newValue)) + "px"
      ensures !hasGenerated ==> dirty == old(dirty)
      ensures DirtyReflects(Some(SliderOrDefault(newValue)))
    {
      sliderValue := newValue;
      var v := SliderOrDefault(sliderValue);
      sizeField := IntToString(v);
      UpdateSizeDisplays(IntToString(v), false);
      MarkDirtyIfNeeded(v);
      ResolvedAfterSync(v, sliderValue);
      MarkTextDirtyIfNeeded(mainText);
    }

    /** Exact-size box `input` event: the box now holds `typed`. A blank box only clears
        the displays. Otherwise the displays show the trimmed text, the slider moves only
        to an in-bounds, step-aligned number, and staleness is re-checked. */
    method OnSizeFieldInput(typed: string)
      requires Valid()
      modifies this`sizeField, this`sliderValue, this`sizeLabel, this`badge, this`dirty
      ensures Valid()
      ensures sizeField == typed
      ensures sizeLabel == Trim(typed) && badge == Trim(typed) + "px"
      ensures Trim(typed) == "" ==> sliderValue == old(sliderValue) && dirty == old(dirty)
      ensures Trim(typed) != "" && ParseIntPrefix(typed).None? ==> sliderValue == old(sliderValue)
      ensures Trim(typed) != "" && ParseIntPrefix(typed).Some? ==>
        sliderValue == if SnapsSlider(ParseIntPrefix(typed).value, minBound, maxBound, step)
                       then ParseIntPrefix(typed).value else old(sliderValue)
      ensures !hasGenerated ==> dirty == old(dirty)
      ensures Trim(typed) != "" ==> DirtyReflects(ResolvedSize(sizeField, sliderValue))
    {
      sizeField := typed;
      var raw := Trim(sizeField);
      if raw == "" {
        UpdateSizeDisplays("", false);
        return;
      }
      var maybe := ParseIntPrefix(raw);
      ParseIntPrefixOfTrim(typed);
      if maybe.Some? {
        var p := maybe.value;
        UpdateSizeDisplays(raw, false);
        if SnapsSlider(p, minBound, maxBound, step) {
          sliderValue := p;
        }
        MarkDirtyIfNeeded(p);
      } else {
        UpdateSizeDisplays(raw, false);
      }
      MarkTextDirtyIfNeeded(mainText);
    }

    /** Exact-size box `blur`: clamp the box's number, or the slider value when the box
        does not parse, and show it everywhere; staleness is re-checked against it. */
    method OnSizeFieldBlur()
      requires Valid()
      modifies this`sliderValue, this`sizeField, this`sizeLabel, this`badge, this`dirty
      ensures Valid()
      ensures ParseIntPrefix(old(sizeField)).Some? ==>
        ShowsSize(Clamp(ParseIntPrefix(old(sizeField)).value, minBound, maxBound))
      ensures ParseIntPrefix(old(sizeField)).None? ==>
        ShowsSize(Clamp(old(sliderValue), minBound, maxBound))
      ensures !hasGenerated ==> dirty == old(dirty)
      ensures DirtyReflects(Some(sliderValue))
    {
      var n := ParseIntPrefix(sizeField);
      if n.None? {
        var _ := ClampAndSync(Some(sliderValue));
      } else {
        var clamped := ClampAndSync(n);
        MarkDirtyIfNeeded(clamped);
      }
      ResolvedAfterSync(sliderValue, sliderValue);
      MarkTextDirtyIfNeeded(mainText);
    }

    /** Exact-size box `keydown`: Enter finishes editing as a blur does; any other key
        changes nothing. */
    method OnSizeFieldKeydown(key: string)
      requires Valid()
      modifies this`sliderValue, this`sizeField, this`sizeLabel, this`badge, this`dirty
      ensures Valid()
      ensures key != "Enter" ==> unchanged(this)
      ensures key == "Enter" && ParseIntPrefix(old(sizeField)).Some? ==>
        ShowsSize(Clamp(ParseIntPrefix(old(sizeField)).value, minBound, maxBound))
      ensures key == "Enter" && ParseIntPrefix(old(sizeField)).None? ==>
        ShowsSize(Clamp(old(sliderValue), minBound, maxBound))
      ensures !hasGenerated ==> dirty == old(dirty)
      ensures key == "Enter" ==> DirtyReflects(Some(sliderValue))
    {
      if key == "Enter" {
        OnSizeFieldBlur();
      }
    }

    /** Reset button `click`: back to the default size, clamped; staleness re-checked. */
    method OnReset()
      requires Valid()
      modifies this`sliderValue, this`sizeField, this`sizeLabel, this`badge, this`dirty
      ensures Valid()
      ensures ShowsSize(Clamp(DEFAULT_SIZE, minBound, maxBound))
      ensures !hasGenerated ==> dirty == old(dirty)
      ensures DirtyReflects(Some(Clamp(DEFAULT_SIZE, minBound, maxBound)))
    {
      var v := ClampAndSync(Some(DEFAULT_SIZE));
      ResolvedAfterSync(v, v);
      MarkTextDirtyIfNeeded(mainText);
    }

    /** The size step of `submit`: a box that parses is clamped and synced everywhere,
        otherwise the slider value (or the default for a zero slider) is used as it is. */
    method ResolveSubmitSize() returns (size: int)
      requires Valid()
      modifies this`sliderValue, this`sizeField, this`sizeLabel, this`badge, this`dirty
      ensures Valid()
      ensures size == SubmitSize(old(sizeField), old(sliderValue), minBound, maxBound)
      ensures ParseIntPrefix(old(sizeField)).Some? ==> ShowsSize(size)
      ensures ParseIntPrefix(old(sizeField)).None? ==>
        sliderValue == old(sliderValue) && sizeField == old(sizeField) &&
        sizeLabel == old(sizeLabel) && badge == old(badge) && dirty == old(dirty)
      ensures !hasGenerated ==> dirty == old(dirty)
    {
      if Trim(sizeField) != "" {
        var n := ParseIntPrefix(sizeField);
        if n.Some? {
          size := ClampAndSync(n);
        } else {
          size := SliderOrDefault(sliderValue);
        }
      } else {
        ParseIntPrefixTrimmedEmpty(sizeField);
        size := SliderOrDefault(sliderValue);
      }
    }

    /** The commit step of `submit`: one renderer call with `text` at `size`, the snapshot
        taken and the dirty mark cleared. */
    method Commit(text: string, size: int)
      requires Valid()
      requires text != "" && Unpadded(text)
      modifies this`dirty, this`hasGenerated, this`lastGeneratedSize, this`lastGeneratedText, this`renders
      ensures Valid()
      ensures renders == old(renders) + [Render(text, size, size)]
      ensures hasGenerated && lastGeneratedSize == size && lastGeneratedText == text && !dirty
    {
      renders := renders + [Render(text, size, size)];
      hasGenerated := true;
      lastGeneratedSize := size;
      lastGeneratedText := text;
      SetDirty(false);
    }

    /** Form `submit`. Blank main text: show the error and do nothing else. Otherwise
        resolve the size, call the renderer once with the trimmed text, commit the
        snapshot and clear the dirty mark. The main text itself is not changed, so
        `old(Trim(mainText))` is the trimmed text before and after. What a later
        staleness check finds in this new state is `RecheckAfterSubmit`. */
    method OnSubmit()
      requires Valid()
      modifies this`errorShown, this`sliderValue, this`sizeField, this`sizeLabel, this`badge
      modifies this`dirty, this`hasGenerated, this`lastGeneratedSize, this`lastGeneratedText, this`renders
      ensures Valid()
      ensures old(Trim(mainText)) == "" ==>
        errorShown && renders == old(renders) && hasGenerated == old(hasGenerated) &&
        lastGeneratedSize == old(lastGeneratedSize) && lastGeneratedText == old(lastGeneratedText) &&
        dirty == old(dirty) && sliderValue == old(sliderValue) && sizeField == old(sizeField) &&
        sizeLabel == old(sizeLabel) && badge == old(badge)
      ensures old(Trim(mainText)) != "" ==>
        var size := SubmitSize(old(sizeField), old(sliderValue), minBound, maxBound);
        renders == old(renders) + [Render(old(Trim(mainText)), size, size)] &&
        hasGenerated && lastGeneratedSize == size && lastGeneratedText == old(Trim(mainText)) &&
        !dirty && errorShown == old(errorShown)
      ensures old(Trim(mainText)) != "" && ParseIntPrefix(old(sizeField)).Some? ==> ShowsSize(lastGeneratedSize)
      ensures old(Trim(mainText)) != "" && ParseIntPrefix(old(sizeField)).None? ==>
        sliderValue == old(sliderValue) && sizeField == old(sizeField) &&
        sizeLabel == old(sizeLabel) && badge == old(badge)
    {
      var text := Trim(mainText);
      if text == "" {
        errorShown := true;
        return;
      }
      var size := ResolveSubmitSize();
      Commit(text, size);
    }
  }
}
