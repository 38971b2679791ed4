/** The value <-> fraction mapping between an axis and its scrollbar.

    An axis shows the window `min..max` of a wider domain; its scrollbar shows
    the same window as a thumb range `from..to`, a pair of fractions of that
    domain. Rendering maps values to fractions, dragging maps fractions back to
    values. Both directions share one orientation rule: the fractions run with
    the values on a horizontal axis that is not reversed and on a vertical axis
    that is, and against them otherwise.

    JavaScript numbers that may be `undefined` (or NaN) are `Option<real>`:
    `None` stands for both, since every operation here turns an undefined
    operand into NaN. A `null` operand, which `Math.min` and `Math.max` read
    as 0, is outside this model. */
module ScrollbarRange {

  datatype Option<T> = None | Some(value: T)

  /** `pick(a, b)`: the first of the two that is defined. */
  function Pick<T>(a: Option<T>, b: Option<T>): Option<T>
  {
    if a.Some? then a else b
  }

  /** `x || 0` on a number that may be undefined. */
  function OrZero(x: Option<real>): real
  {
    if x.Some? then x.value else 0.0
  }

  /** `Math.min(a, b, c)`: NaN as soon as one operand is undefined. */
  function Min3(a: Option<real>, b: Option<real>, c: Option<real>): (r: Option<real>)
    ensures r.Some? <==> a.Some? && b.Some? && c.Some?
    ensures r.Some? ==> r.value <= a.value && r.value <= b.value && r.value <= c.value
    ensures r.Some? ==> r.value == a.value || r.value == b.value || r.value == c.value
  {
    if a.None? || b.None? || c.None? then None
    else if a.value <= b.value && a.value <= c.value then a
    else if b.value <= c.value then b
    else c
  }

  /** `Math.max(a, b, c)`: NaN as soon as one operand is undefined. */
  function Max3(a: Option<real>, b: Option<real>, c: Option<real>): (r: Option<real>)
    ensures r.Some? <==> a.Some? && b.Some? && c.Some?
    ensures r.Some? ==> r.value >= a.value && r.value >= b.value && r.value >= c.value
    ensures r.Some? ==> r.value == a.value || r.value == b.value || r.value == c.value
  {
    if a.None? || b.None? || c.None? then None
    else if a.value >= b.value && a.value >= c.value then a
    else if b.value >= c.value then b
    else c
  }

  /** The bounds of an axis that the binding reads: the configured bounds
      (`options.min`, `options.max`), the current extremes and the data bounds. */
  datatype Extremes = Extremes(
    userMin: Option<real>,
    userMax: Option<real>,
    min: Option<real>,
    max: Option<real>,
    dataMin: Option<real>,
    dataMax: Option<real>)

  /** The axis keeps its visible window ordered whenever it is defined. */
  predicate Ordered(e: Extremes)
  {
    e.min.Some? && e.max.Some? ==> e.min.value <= e.max.value
  }

  /** Lower end of the domain the thumb is drawn against (render time): an
      undefined data bound falls back to the current extreme. */
  function ScrollMin(e: Extremes): (r: Option<real>)
    ensures r.Some? <==> e.min.Some?
    ensures r.Some? ==> r.value <= e.min.value
    ensures r.Some? && e.userMin.Some? ==> r.value <= e.userMin.value
    ensures r.Some? && e.dataMin.Some? ==> r.value <= e.dataMin.value
    ensures r.Some? ==>
              || r.value == e.min.value
              || (e.userMin.Some? && r.value == e.userMin.value)
              || (e.dataMin.Some? && r.value == e.dataMin.value)
  {
    Min3(Pick(e.userMin, e.min), e.min, Pick(e.dataMin, e.min))
  }

  /** Upper end of the domain the thumb is drawn against (render time). */
  function ScrollMax(e: Extremes): (r: Option<real>)
    ensures r.Some? <==> e.max.Some?
    ensures r.Some? ==> r.value >= e.max.value
    ensures r.Some? && e.userMax.Some? ==> r.value >= e.userMax.value
    ensures r.Some? && e.dataMax.Some? ==> r.value >= e.dataMax.value
    ensures r.Some? ==>
              || r.value == e.max.value
              || (e.userMax.Some? && r.value == e.userMax.value)
              || (e.dataMax.Some? && r.value == e.dataMax.value)
  {
    Max3(Pick(e.userMax, e.max), e.max, Pick(e.dataMax, e.max))
  }

  /** Lower end of the domain a dragged thumb is mapped back onto: here the
      data bound is taken as it is, so an undefined one makes it NaN. */
  function UnitedMin(e: Extremes): (r: Option<real>)
    ensures r.Some? <==> e.min.Some? && e.dataMin.Some?
    ensures r.Some? ==> r.value <= e.min.value && r.value <= e.dataMin.value
    ensures r.Some? && e.userMin.Some? ==> r.value <= e.userMin.value
    ensures r.Some? ==>
              || r.value == e.min.value
              || r.value == e.dataMin.value
              || (e.userMin.Some? && r.value == e.userMin.value)
  {
    Min3(Pick(e.userMin, e.min), e.min, e.dataMin)
  }

  /** Upper end of the domain a dragged thumb is mapped back onto. */
  function UnitedMax(e: Extremes): (r: Option<real>)
    ensures r.Some? <==> e.max.Some? && e.dataMax.Some?
    ensures r.Some? ==> r.value >= e.max.value && r.value >= e.dataMax.value
    ensures r.Some? && e.userMax.Some? ==> r.value >= e.userMax.value
    ensures r.Some? ==>
              || r.value == e.max.value
              || r.value == e.dataMax.value
              || (e.userMax.Some? && r.value == e.userMax.value)
  {
    Max3(Pick(e.userMax, e.max), e.max, e.dataMax)
  }

  /** The cases in which the scrollbar is shown at full size: no domain, no
      window, or a window of zero width. */
  predicate Degenerate(e: Extremes)
  {
    ScrollMin(e).None? || ScrollMax(e).None? || e.min.None? || e.max.None? ||
    e.min.value == e.max.value
  }

  /** Whether the fractions run with the values (horizontal and not reversed,
      or vertical and reversed); screen y and reversal both flip them. */
  predicate Direct(horiz: bool, reversed: bool)
  {
    (horiz && !reversed) || (!horiz && reversed)
  }

  /** A thumb range: two fractions of the domain. */
  datatype Fractions = Fractions(from: real, to: real)

  /** An axis window: two values. */
  datatype Window = Window(min: real, max: real)

  /** The value at fraction `x` of the domain `lo..hi`: `lo + range * x`. */
  function Interpolate(lo: real, hi: real, x: real): real
  {
    lo + (hi - lo) * x
  }

  /** The fraction of the domain `lo..hi` at which `v` lies. */
  function Proportion(lo: real, hi: real, v: real): real
    requires lo < hi
  {
    (v - lo) / (hi - lo)
  }

  lemma InterpolateOrder(lo: real, hi: real, a: real, b: real)
    ensures lo <= hi && a <= b ==> Interpolate(lo, hi, a) <= Interpolate(lo, hi, b)
    ensures lo < hi && a < b ==> Interpolate(lo, hi, a) < Interpolate(lo, hi, b)
    ensures Interpolate(lo, hi, 0.0) == lo && Interpolate(lo, hi, 1.0) == hi
  {
    assert Interpolate(lo, hi, b) - Interpolate(lo, hi, a) == (hi - lo) * (b - a);
  }

  lemma ProportionOrder(lo: real, hi: real, a: real, b: real)
    requires lo < hi
    ensures Proportion(lo, hi, a) <= Proportion(lo, hi, b) <==> a <= b
    ensures Proportion(lo, hi, a) < Proportion(lo, hi, b) <==> a < b
    ensures Proportion(lo, hi, lo) == 0.0 && Proportion(lo, hi, hi) == 1.0
  {
    var d := hi - lo;
    assert Proportion(lo, hi, b) - Proportion(lo, hi, a) == (b - a) / d;
    assert Proportion(lo, hi, hi) == d / d == 1.0;
  }

  /** Proportion undoes Interpolate on a non-empty domain. */
  lemma ProportionOfInterpolate(lo: real, hi: real, x: real)
    requires lo < hi
    ensures Proportion(lo, hi, Interpolate(lo, hi, x)) == x
  {
    assert Interpolate(lo, hi, x) - lo == (hi - lo) * x;
  }

  /** Interpolate undoes Proportion on a non-empty domain. */
  lemma InterpolateOfProportion(lo: real, hi: real, v: real)
    requires lo < hi
    ensures Interpolate(lo, hi, Proportion(lo, hi, v)) == v
  {
    assert (hi - lo) * Proportion(lo, hi, v) == v - lo;
  }

  /** Values to fractions of the domain `lo..hi`, flipped to `(1 - to, 1 - from)`
      when the fractions run against the values. */
  function ToFractions(direct: bool, lo: real, hi: real, w: Window): (r: Fractions)
    requires lo < hi
    ensures lo <= w.min <= hi && lo <= w.max <= hi ==>
              0.0 <= r.from <= 1.0 && 0.0 <= r.to <= 1.0
    ensures r.from <= r.to <==> w.min <= w.max
    ensures r.from < r.to <==> w.min < w.max
  {
    var from := Proportion(lo, hi, w.min);
    var to := Proportion(lo, hi, w.max);
    ProportionOrder(lo, hi, w.min, w.max);
    ProportionOrder(lo, hi, lo, w.min);
    ProportionOrder(lo, hi, w.min, hi);
    ProportionOrder(lo, hi, lo, w.max);
    ProportionOrder(lo, hi, w.max, hi);
    Aligned(direct, Fractions(from, to))
  }

  /** The fractions as they are laid along the values: unchanged when they run
      with them, `(1 - to, 1 - from)` when they run against them. */
  function Aligned(direct: bool, f: Fractions): (g: Fractions)
    ensures 0.0 <= f.from <= 1.0 && 0.0 <= f.to <= 1.0 ==>
              0.0 <= g.from <= 1.0 && 0.0 <= g.to <= 1.0
    ensures g.from <= g.to <==> f.from <= f.to
    ensures g.from < g.to <==> f.from < f.to
  {
    if direct then f else Fractions(1.0 - f.to, 1.0 - f.from)
  }

  /** Fractions of the domain `lo..hi` back to values; when the fractions run
      against the values, `max` comes from `1 - from` and `min` from `1 - to`. */
  function ToWindow(direct: bool, lo: real, hi: real, f: Fractions): (r: Window)
    ensures lo <= hi && 0.0 <= f.from <= f.to <= 1.0 ==> lo <= r.min <= r.max <= hi
    ensures lo < hi && f.from < f.to ==> r.min < r.max
  {
    var g := Aligned(direct, f);
    InterpolateOrder(lo, hi, g.from, g.to);
    InterpolateOrder(lo, hi, 0.0, g.from);
    InterpolateOrder(lo, hi, g.to, 1.0);
    Window(Interpolate(lo, hi, g.from), Interpolate(lo, hi, g.to))
  }

  /** The thumb range that rendering gives the scrollbar: full size for a
      degenerate domain, otherwise the window as fractions of the render-time
      domain, inside [0, 1] and ordered like the window. */
  function ThumbRange(horiz: bool, reversed: bool, e: Extremes): (r: Fractions)
    requires Ordered(e)
    ensures Degenerate(e) ==> r == Fractions(0.0, 1.0)
    ensures 0.0 <= r.from <= r.to <= 1.0
    ensures !Degenerate(e) ==> r.from < r.to
  {
    if Degenerate(e) then Fractions(0.0, 1.0)
    else
      ToFractions(Direct(horiz, reversed), ScrollMin(e).value, ScrollMax(e).value,
                  Window(e.min.value, e.max.value))
  }

  /** The window that a drag of the thumb to `f` asks the axis for: `None`
      (NaN extremes) unless the current and data bounds are all defined;
      an ordered thumb range inside [0, 1] gives an ordered window inside the
      united domain. */
  function DragWindow(horiz: bool, reversed: bool, e: Extremes, f: Fractions): (r: Option<Window>)
    ensures r.Some? <==> e.min.Some? && e.max.Some? && e.dataMin.Some? && e.dataMax.Some?
    ensures r.Some? && Ordered(e) && 0.0 <= f.from <= f.to <= 1.0 ==>
              UnitedMin(e).value <= r.value.min <= r.value.max <= UnitedMax(e).value
  {
    var lo := UnitedMin(e);
    var hi := UnitedMax(e);
    if lo.Some? && hi.Some? then Some(ToWindow(Direct(horiz, reversed), lo.value, hi.value, f))
    else None
  }

  /** Mapping a window to fractions and back gives the window again. */
  lemma WindowRoundTrip(direct: bool, lo: real, hi: real, w: Window)
    requires lo < hi
    ensures ToWindow(direct, lo, hi, ToFractions(direct, lo, hi, w)) == w
  {
    InterpolateOfProportion(lo, hi, w.min);
    InterpolateOfProportion(lo, hi, w.max);
  }

  /** Mapping fractions to a window and back gives the fractions again. */
  lemma FractionsRoundTrip(direct: bool, lo: real, hi: real, f: Fractions)
    requires lo < hi
    ensures ToFractions(direct, lo, hi, ToWindow(direct, lo, hi, f)) == f
  {
    var g := Aligned(direct, f);
    ProportionOfInterpolate(lo, hi, g.from);
    ProportionOfInterpolate(lo, hi, g.to);
  }

  /** The flipped branch is the direct one with the roles of the fractions
      swapped and mirrored, in both directions. */
  lemma FlippedMirrorsDirect(lo: real, hi: real, f: Fractions, w: Window)
    ensures ToWindow(false, lo, hi, f) == ToWindow(true, lo, hi, Fractions(1.0 - f.to, 1.0 - f.from))
    ensures lo < hi ==>
              var d := ToFractions(true, lo, hi, w);
              ToFractions(false, lo, hi, w) == Fractions(1.0 - d.to, 1.0 - d.from)
  {
  }

  /** With data bounds defined, dragging and rendering use the same domain. */
  lemma UnitedIsScrollDomain(e: Extremes)
    requires e.dataMin.Some? && e.dataMax.Some?
    ensures UnitedMin(e) == ScrollMin(e) && UnitedMax(e) == ScrollMax(e)
  {
  }

  /** Round trip through the scrollbar: rendering the axis window as a thumb
      range and mapping that thumb range back gives the window exactly, for
      every orientation and reversal. */
  lemma RenderThenDragRoundTrip(horiz: bool, reversed: bool, e: Extremes)
    requires e.min.Some? && e.max.Some? && e.dataMin.Some? && e.dataMax.Some?
    requires e.min.value < e.max.value
    ensures DragWindow(horiz, reversed, e, ThumbRange(horiz, reversed, e)) ==
            Some(Window(e.min.value, e.max.value))
  {
    UnitedIsScrollDomain(e);
    WindowRoundTrip(Direct(horiz, reversed), ScrollMin(e).value, ScrollMax(e).value,
                    Window(e.min.value, e.max.value));
  }

  /** A full-size thumb (degenerate domain) maps back to the whole united
      domain, not to the window it was drawn for. */
  lemma FullThumbSelectsUnitedDomain(horiz: bool, reversed: bool, e: Extremes)
    requires Ordered(e) && Degenerate(e)
    requires e.min.Some? && e.max.Some? && e.dataMin.Some? && e.dataMax.Some?
    ensures DragWindow(horiz, reversed, e, ThumbRange(horiz, reversed, e)) ==
            Some(Window(UnitedMin(e).value, UnitedMax(e).value))
  {
    var full := Fractions(0.0, 1.0);
    assert ThumbRange(horiz, reversed, e) == full;
    assert Aligned(Direct(horiz, reversed), full) == full;
    InterpolateOrder(UnitedMin(e).value, UnitedMax(e).value, 0.0, 1.0);
  }

  /** The data bounds enclose everything else the axis knows. */
  predicate DataBoundsWidest(e: Extremes)
  {
    e.min.Some? && e.max.Some? && e.dataMin.Some? && e.dataMax.Some? &&
    e.dataMin.value <= e.min.value <= e.max.value <= e.dataMax.value &&
    e.dataMin.value < e.dataMax.value &&
    (e.userMin.Some? ==> e.dataMin.value <= e.userMin.value) &&
    (e.userMax.Some? ==> e.userMax.value <= e.dataMax.value)
  }

  /** No feedback loop: when the data bounds are the widest, committing a
      dragged thumb range and rendering again puts the thumb exactly where it
      was dragged to. */
  lemma DragThenRenderRoundTrip(horiz: bool, reversed: bool, e: Extremes, f: Fractions)
    requires DataBoundsWidest(e)
    requires 0.0 <= f.from < f.to <= 1.0
    ensures DragWindow(horiz, reversed, e, f).Some?
    ensures var w := DragWindow(horiz, reversed, e, f).value;
            var moved := e.(min := Some(w.min), max := Some(w.max));
            DataBoundsWidest(moved) && ThumbRange(horiz, reversed, moved) == f
  {
    var lo, hi := e.dataMin.value, e.dataMax.value;
    var direct := Direct(horiz, reversed);
    assert UnitedMin(e) == Some(lo) && UnitedMax(e) == Some(hi);
    var w := ToWindow(direct, lo, hi, f);
    var moved := e.(min := Some(w.min), max := Some(w.max));
    assert DragWindow(horiz, reversed, e, f) == Some(w);
    assert lo <= w.min < w.max <= hi;
    assert DataBoundsWidest(moved);
    assert ScrollMin(moved) == Some(lo) && ScrollMax(moved) == Some(hi);
    assert !Degenerate(moved);
    assert ThumbRange(horiz, reversed, moved) == ToFractions(direct, lo, hi, w);
    FractionsRoundTrip(direct, lo, hi, f);
  }

  /** The figures of a worked example: a window 20..50 on data 0..100 gives
      the thumb 0.2..0.5 on a horizontal axis and 0.5..0.8 on a vertical one. */
  lemma WorkedExample()
    ensures var e := Extremes(None, None, Some(20.0), Some(50.0), Some(0.0), Some(100.0));
            ThumbRange(true, false, e) == Fractions(0.2, 0.5) &&
            ThumbRange(false, false, e) == Fractions(0.5, 0.8) &&
            ThumbRange(true, true, e) == Fractions(0.5, 0.8) &&
            ThumbRange(false, true, e) == Fractions(0.2, 0.5)
  {
  }
}
