/** The size arithmetic of the controller: slider attribute defaults, the clamp into
    [min, max], JavaScript's remainder and the step-alignment test. */
module Sizing {
  import opened JsText

  const DEFAULT_SIZE: int := 128
  const DEFAULT_MIN: int := 1
  const DEFAULT_MAX: int := 10000
  const DEFAULT_STEP: int := 1

  /** `parseInt(attr, 10) || dflt`: a missing, unparseable or zero attribute gives `dflt`. */
  function AttrOr(attr: string, dflt: int): (r: int)
    ensures r == dflt || (r != 0 && ParseIntPrefix(attr) == Some(r))
    ensures ParseIntPrefix(attr).Some? && ParseIntPrefix(attr).value != 0 ==> r == ParseIntPrefix(attr).value
    ensures ParseIntPrefix(attr) == None || ParseIntPrefix(attr) == Some(0) ==> r == dflt
    ensures Blank(attr) ==> r == dflt
    ensures dflt != 0 ==> r != 0
  {
    assert Blank(attr) ==> ParseIntPrefix(attr) == None by {
      if Blank(attr) {
        ParseIntPrefixBlank(attr);
      }
    }
    match ParseIntPrefix(attr)
    case Some(v) => if v != 0 then v else dflt
    case None => dflt
  }

  /** `parseInt(slider.value, 10) || DEFAULT_SIZE` for a slider holding `value`. */
  function SliderOrDefault(value: int): (r: int)
    ensures r != 0
    ensures value != 0 ==> r == value
  {
    if value != 0 then value else DEFAULT_SIZE
  }

  /** `Number.isFinite(n) ? Math.round(n) : DEFAULT_SIZE` where `n` is a `parseInt`
      result: an integer, or NaN as None. */
  function OrDefault(n: Option<int>): (r: int)
    ensures n.Some? ==> r == n.value
    ensures n.None? ==> r == DEFAULT_SIZE
  {
    match n
    case Some(v) => v
    case None => DEFAULT_SIZE
  }

  /** The clamp of `clampAndSync`: raise below `lo` first, then lower above `hi`. */
  function Clamp(v: int, lo: int, hi: int): (r: int)
    ensures r <= hi
    ensures lo <= hi ==> lo <= r
    ensures lo <= v <= hi ==> r == v
    ensures v > hi ==> r == hi
    ensures lo <= hi && v < lo ==> r == lo
    ensures lo > hi ==> r == hi
  {
    var raised := if v < lo then lo else v;
    if raised > hi then hi else raised
  }

  /** Clamping a clamped value changes nothing, whatever the bounds. */
  lemma {:induction false} ClampIdempotent(v: int, lo: int, hi: int)
    ensures Clamp(Clamp(v, lo, hi), lo, hi) == Clamp(v, lo, hi)
  {
  }

  function Abs(x: int): nat {
    if x < 0 then -x else x
  }

  /** JavaScript's `a % b`: the remainder truncated toward zero, with the sign of `a`. */
  function JsRemainder(a: int, b: int): (r: int)
    requires b != 0
    ensures Abs(r) < Abs(b)
    ensures r != 0 ==> (r < 0 <==> a < 0)
  {
    if a < 0 then -(Abs(a) % Abs(b)) else Abs(a) % Abs(b)
  }

  lemma {:induction false} MulMono(d: int, b: int)
    requires d >= 1 && b >= 1
    ensures d * b >= b
  {
  }

  lemma {:induction false} MulAbs(d: int, b: int)
    ensures Abs(d * b) == Abs(d) * Abs(b)
  {
    if d < 0 && b < 0 { assert d * b == (-d) * (-b); }
    else if d < 0 { assert d * b == -((-d) * b); }
    else if b < 0 { assert d * b == -(d * (-b)); }
  }

  /** Dafny's `%` is Euclidean: any quotient that leaves a remainder in [0, |b|) fixes it. */
  lemma {:induction false} EuclideanRemainder(a: int, b: int, q: int, r: int)
    requires b != 0 && a == q * b + r && 0 <= r < Abs(b)
    ensures a % b == r
  {
    var d := q - a / b;
    assert d * b == a % b - r by {
      assert a == (a / b) * b + a % b;
      assert q * b - (a / b) * b == d * b;
    }
    if d != 0 {
      MulAbs(d, b);
      MulMono(Abs(d), Abs(b));
    }
  }

  lemma {:induction false} DividesAbs(a: int, b: int)
    requires b != 0 && a % b == 0
    ensures Abs(a) % Abs(b) == 0
  {
    var q := a / b;
    assert a == q * b;
    MulAbs(q, b);
    EuclideanRemainder(Abs(a), Abs(b), Abs(q), 0);
  }

  lemma {:induction false} AbsDivides(a: int, b: int)
    requires b != 0 && Abs(a) % Abs(b) == 0
    ensures a % b == 0
  {
    var k := Abs(a) / Abs(b);
    assert Abs(a) == k * Abs(b);
    var s := if (a < 0) == (b < 0) then k else -k;
    assert a == s * b by {
      if a < 0 && b < 0 { assert a == -(k * -b); }
      else if a < 0 { assert a == -(k * b); }
      else if b < 0 { assert a == -k * b; }
    }
    EuclideanRemainder(a, b, s, 0);
  }

  /** The JavaScript remainder is zero exactly when the Euclidean one is, so the
      divisibility test reads the same under either operator. */
  lemma {:induction false} JsRemainderZero(a: int, b: int)
    requires b != 0
    ensures JsRemainder(a, b) == 0 <==> a % b == 0
  {
    if a % b == 0 {
      DividesAbs(a, b);
    }
    if Abs(a) % Abs(b) == 0 {
      AbsDivides(a, b);
    }
  }

  /** The size-field test `p >= min && p <= max && (p - min) % step === 0` under which
      typing moves the slider to `p`. A value it accepts is one the clamp of a later blur
      or submit leaves as it is. */
  function SnapsSlider(p: int, lo: int, hi: int, step: int): (r: bool)
    requires step != 0
    ensures r ==> lo <= p <= hi && Clamp(p, lo, hi) == p
    ensures r ==> (p - lo) % step == 0
  {
    JsRemainderZero(p - lo, step);
    lo <= p && p <= hi && JsRemainder(p - lo, step) == 0
  }

  /** A value the slider snaps to lies within its bounds and is a whole number of steps
      above its minimum; and every such value snaps. */
  lemma {:induction false} SnapsSliderReachable(p: int, lo: int, hi: int, step: int)
    requires step != 0
    ensures SnapsSlider(p, lo, hi, step) <==> lo <= p <= hi && lo + (p - lo) / step * step == p
  {
    JsRemainderZero(p - lo, step);
    var q := (p - lo) / step;
    assert p - lo == q * step + (p - lo) % step;
  }
}
