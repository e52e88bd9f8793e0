/** Event sequences on a page whose slider has min 32, max 512 and step 8, each followed
    through the controller's contracts. */
module Scenarios {
  import opened JsText
  import opened Sizing
  import opened QrForm

  /** Page load with slider attributes "32", "512" and "8", the slider at the default. */
  method LoadPage(text: string) returns (c: FormController)
    ensures fresh(c) && c.Valid()
    ensures c.minBound == 32 && c.maxBound == 512 && c.step == 8
    ensures c.sliderValue == DEFAULT_SIZE && c.mainText == text && !c.hasGenerated
  {
    AttrOfDecimal(32);
    AttrOfDecimal(512);
    AttrOfDecimal(8);
    c := new FormController(IntToString(32), IntToString(512), IntToString(8), DEFAULT_SIZE, text, true);
  }

  /** A number `p` typed into the box is shown but moves the slider only when it is
      step-aligned; leaving the box clamps `p` (already in bounds) and moves the slider
      to it. With bounds 32 and 512 and step 8, "500" is such a number that does not
      move the slider while typed, since 500 - 32 is not a multiple of 8. */
  method TypeThenLeave(c: FormController, p: int)
    requires c.Valid() && c.minBound <= p <= c.maxBound && !SnapsSlider(p, c.minBound, c.maxBound, c.step)
    modifies c
    ensures c.Valid() && c.sliderValue == p && c.sizeField == IntToString(p)
  {
    var typed := IntToString(p);
    ParseIntRoundTrip(p);
    assert Trim(typed) == typed by {
      assert [] + typed + [] == typed;
      TrimSurrounded([], typed, []);
    }
    ghost var slider0 := c.sliderValue;
    c.OnSizeFieldInput(typed);
    assert c.badge == typed + "px";
    assert c.sliderValue == slider0;

    c.OnSizeFieldBlur();
  }

  /** Slider to `v`, submit a non-blank main text: the snapshot is (`v`, trimmed text) and
      the output is clean. Slider to another size `w`: dirty. Back to `v`: clean again. */
  method GenerateThenMoveSlider(c: FormController, v: int, w: int)
    requires c.Valid() && Trim(c.mainText) != ""
    requires c.minBound <= v <= c.maxBound && v != 0 && w != 0 && w != v
    modifies c
    ensures c.Valid() && c.hasGenerated && c.lastGeneratedSize == v && !c.dirty
    ensures c.lastGeneratedText == Trim(c.mainText) && c.sliderValue == v && c.sizeField == IntToString(v)
  {
    c.OnSliderInput(v);
    ResolvedAfterSync(v, v);
    c.OnSubmit();
    assert c.hasGenerated && c.lastGeneratedSize == v && !c.dirty;

    c.OnSliderInput(w);
    assert c.dirty;
    c.OnSliderInput(v);
  }

  /** After a generation whose size the inputs still hold, editing the main text to
      something that trims differently marks the output dirty, and restoring the
      generated text clears it. */
  method EditTextThenRevert(c: FormController, edited: string)
    requires c.Valid() && c.hasGenerated && Trim(edited) != c.lastGeneratedText
    requires ResolvedSize(c.sizeField, c.sliderValue) == Some(c.lastGeneratedSize)
    modifies c
    ensures c.Valid() && !c.dirty && c.mainText == c.lastGeneratedText
  {
    c.OnTextInput(edited);
    assert c.dirty;
    ghost var committed := c.lastGeneratedText;
    TrimIdempotent(committed);
    c.OnTextInput(c.lastGeneratedText);
  }

  /** The page of the scenarios above: submit "hello" at 256, then 264 and back. */
  method Session() {
    var c := LoadPage("hello");
    GenerateThenMoveSlider(c, 256, 264);
    ResolvedAfterSync(256, 256);
    EditTextThenRevert(c, "");
    assert JsRemainder(500 - 32, 8) == 4;
    TypeThenLeave(c, 500);
  }

  /** A decimal attribute other than "0" reads as its own value. */
  lemma {:induction false} AttrOfDecimal(n: int)
    requires n != 0
    ensures AttrOr(IntToString(n), DEFAULT_MIN) == n
    ensures AttrOr(IntToString(n), DEFAULT_MAX) == n
    ensures AttrOr(IntToString(n), DEFAULT_STEP) == n
  {
    ParseIntRoundTrip(n);
  }
}
