/** The binding between an axis and its scrollbar: three hooks on the axis
    life cycle (after init, after render, after offsets are computed) and the
    handler of the scrollbar's `changed` event.

    The calls the binding makes on its collaborators (`scrollbar.position`,
    `scrollbar.setRange`, `axis.setExtremes`) are external; they are returned
    as `Call` values in the order they are made. The chart's layout arrays
    (`axisOffset`, `scrollbarsOffsets`) are updated in place. */
module ScrollbarAxis {

  import opened ScrollbarRange

  /** The `scrollbar` entry of an axis's options. `size` is the thickness the
      scrollbar widget derives from its options. */
  datatype ScrollbarOptions = ScrollbarOptions(
    enabled: bool,
    vertical: bool,
    liveRedraw: Option<bool>,
    margin: real,
    size: real)

  /** The axis options the binding reads or forces. */
  datatype AxisOptions = AxisOptions(
    min: Option<real>,
    max: Option<real>,
    margin: Option<real>,
    startOnTick: bool,
    endOnTick: bool,
    scrollbar: Option<ScrollbarOptions>)

  predicate ScrollbarEnabled(o: AxisOptions)
  {
    o.scrollbar.Some? && o.scrollbar.value.enabled
  }

  /** The payload of a `changed` event: the kind of DOM event behind it, if any. */
  datatype ChangedEvent = ChangedEvent(domType: Option<string>)

  /** A call the binding makes on the scrollbar or on the axis. A `None`
      window stands for NaN extremes. */
  datatype Call =
    | Position(x: real, y: real, width: real, height: real)
    | SetRange(from: real, to: real)
    | SetExtremes(window: Option<Window>, redraw: bool, animation: bool, trigger: ChangedEvent)

  /** The chart state the binding shares between axes: the space reserved on
      each side (top, right, bottom, left) and the two-slot accumulator of
      scrollbar offsets (vertical scrollbars in slot 0, horizontal in slot 1). */
  class Chart {
    var axisOffset: array<real>
    var scrollbarsOffsets: array<real>
    var isBoosting: bool

    ghost predicate Valid()
      reads this
    {
      axisOffset.Length == 4 && scrollbarsOffsets.Length == 2 &&
      axisOffset != scrollbarsOffsets
    }

    constructor (isBoosting: bool)
      ensures Valid() && fresh(axisOffset) && fresh(scrollbarsOffsets)
      ensures axisOffset[..] == [0.0, 0.0, 0.0, 0.0] && scrollbarsOffsets[..] == [0.0, 0.0]
      ensures this.isBoosting == isBoosting
    {
      axisOffset := new real[4](_ => 0.0);
      scrollbarsOffsets := new real[2](_ => 0.0);
      this.isBoosting := isBoosting;
    }
  }

  /** The scrollbar widget as far as the binding sees it: its options, its
      thickness and the thumb range its drag handling last set. */
  class Scrollbar {
    const options: ScrollbarOptions
    const chart: Chart
    const size: real
    var from: real
    var to: real

    constructor (options: ScrollbarOptions, chart: Chart)
      ensures this.options == options && this.chart == chart && size == options.size
    {
      this.options := options;
      this.chart := chart;
      size := options.size;
    }
  }

  class Axis {
    const chart: Chart
    const horiz: bool
    const reversed: bool
    const opposite: bool
    var options: AxisOptions
    var min: Option<real>
    var max: Option<real>
    var dataMin: Option<real>
    var dataMax: Option<real>
    var left: real
    var top: real
    var width: real
    var height: real
    var axisTitleMargin: real
    var titleOffset: Option<real>
    var scrollbar: Scrollbar?

    constructor (chart: Chart, horiz: bool, reversed: bool, opposite: bool, options: AxisOptions)
      ensures this.chart == chart && this.horiz == horiz && this.reversed == reversed
      ensures this.opposite == opposite && this.options == options && scrollbar == null
      ensures min.None? && max.None? && dataMin.None? && dataMax.None? && titleOffset.None?
    {
      this.chart := chart;
      this.horiz := horiz;
      this.reversed := reversed;
      this.opposite := opposite;
      this.options := options;
      min, max, dataMin, dataMax := None, None, None, None;
      titleOffset := None;
      scrollbar := null;
    }

    /** The bounds the mapping reads. */
    function Bounds(): Extremes
      reads this
    {
      Extremes(options.min, options.max, min, max, dataMin, dataMax)
    }

    /** Room taken by the axis's labels and title. */
    function LabelOffset(): real
      reads this
    {
      axisTitleMargin + OrZero(titleOffset)
    }

    function AxisMargin(): real
      reads this
    {
      OrZero(options.margin)
    }

    /** After init: with an enabled scrollbar, run it along the axis, let the
        extremes land between ticks and create the scrollbar; otherwise leave
        everything as it was. */
    method AfterInit()
      modifies this`options, this`scrollbar
      ensures ScrollbarEnabled(old(options)) ==>
                && options.scrollbar.Some?
                && options.scrollbar.value.vertical == !horiz
                && !options.startOnTick && !options.endOnTick
                && options == old(options).(startOnTick := false, endOnTick := false,
                                            scrollbar := Some(old(options).scrollbar.value.(vertical := !horiz)))
                && scrollbar != null && fresh(scrollbar)
                && scrollbar.options == options.scrollbar.value && scrollbar.chart == chart
                && scrollbar.size == options.scrollbar.value.size
      ensures !ScrollbarEnabled(old(options)) ==>
                options == old(options) && scrollbar == old(scrollbar)
    {
      if options.scrollbar.Some? && options.scrollbar.value.enabled {
        var forced := options.scrollbar.value.(vertical := !horiz);
        options := options.(scrollbar := Some(forced));
        options := options.(startOnTick := false, endOnTick := false);
        scrollbar := new Scrollbar(options.scrollbar.value, chart);
      }
    }

    /** The `changed` handler subscribed to scrollbar `sb`: map its thumb range
        back to values and either commit them as the axis extremes or, while a
        drag runs without live redraw, only move the thumb. */
    method OnChanged(sb: Scrollbar, e: ChangedEvent, svg: bool, isTouchDevice: bool) returns (call: Call)
      requires sb == scrollbar
      ensures call.SetExtremes? <==>
                || sb.options.liveRedraw == Some(true)
                || (sb.options.liveRedraw.None? && svg && !isTouchDevice && !sb.chart.isBoosting)
                || e.domType == Some("mouseup")
                || e.domType.None?
      ensures call.SetExtremes? ==>
                call == SetExtremes(DragWindow(horiz, reversed, Bounds(), Fractions(sb.from, sb.to)),
                                    true, e.domType != Some("mousemove"), e)
      ensures !call.SetExtremes? ==> call == SetRange(sb.from, sb.to)
    {
      var window := DragWindow(horiz, reversed, Bounds(), Fractions(sb.from, sb.to));
      var live := Pick(sb.options.liveRedraw, Some(svg && !isTouchDevice && !sb.chart.isBoosting));
      if live.value || e.domType == Some("mouseup") || e.domType.None? {
        call := SetExtremes(window, true, e.domType != Some("mousemove"), e);
      } else {
        call := SetRange(sb.from, sb.to);
      }
    }

    /** After render: reserve the labels' room, place the scrollbar past the
        scrollbars already stacked on its side of the plot (below for a
        horizontal axis, to the right for a vertical one, whatever `opposite`
        says), reserve its margin and thickness for the next one, and set its
        thumb range. */
    method AfterRender() returns (calls: seq<Call>)
      requires chart.Valid()
      requires scrollbar != null ==> Ordered(Bounds())
      modifies chart.scrollbarsOffsets
      ensures scrollbar == null ==>
                calls == [] && chart.scrollbarsOffsets[..] == old(chart.scrollbarsOffsets[..])
      ensures scrollbar != null ==>
                |calls| == 2 && calls[0].Position? &&
                calls[1] == SetRange(ThumbRange(horiz, reversed, Bounds()).from,
                                     ThumbRange(horiz, reversed, Bounds()).to)
      ensures scrollbar != null && horiz ==>
                && chart.scrollbarsOffsets[0] == old(chart.scrollbarsOffsets[0])
                && chart.scrollbarsOffsets[1] == old(chart.scrollbarsOffsets[1]) +
                     (if opposite then 0.0 else LabelOffset() + AxisMargin()) +
                     scrollbar.size + scrollbar.options.margin
                && calls[0] == Position(left,
                     top + height + 2.0 + old(chart.scrollbarsOffsets[1]) +
                       (if opposite then 0.0 else LabelOffset()) -
                       (if opposite then AxisMargin() else 0.0),
                     width, height)
      ensures scrollbar != null && !horiz ==>
                && chart.scrollbarsOffsets[1] == old(chart.scrollbarsOffsets[1])
                && chart.scrollbarsOffsets[0] == old(chart.scrollbarsOffsets[0]) +
                     (if opposite then LabelOffset() + AxisMargin() else 0.0) +
                     scrollbar.size + scrollbar.options.margin
                && calls[0] == Position(
                     left + width + 2.0 + old(chart.scrollbarsOffsets[0]) +
                       (if opposite then LabelOffset() else 0.0) -
                       (if opposite then 0.0 else AxisMargin()),
                     top, width, height)
    {
      var offset := LabelOffset();
      var offsets := chart.scrollbarsOffsets;
      var axisMargin := AxisMargin();
      calls := [];
      if scrollbar != null {
        var index: nat;
        if horiz {
          if !opposite {
            offsets[1] := offsets[1] + offset;
          }
          calls := calls + [Position(left, top + height + 2.0 + offsets[1] -
                                     (if opposite then axisMargin else 0.0), width, height)];
          if !opposite {
            offsets[1] := offsets[1] + axisMargin;
          }
          index := 1;
        } else {
          if opposite {
            offsets[0] := offsets[0] + offset;
          }
          calls := calls + [Position(left + width + 2.0 + offsets[0] -
                                     (if opposite then 0.0 else axisMargin), top, width, height)];
          if opposite {
            offsets[0] := offsets[0] + axisMargin;
          }
          index := 0;
        }
        offsets[index] := offsets[index] + scrollbar.size + scrollbar.options.margin;
        var range := ThumbRange(horiz, reversed, Bounds());
        calls := calls + [SetRange(range.from, range.to)];
      }
    }

    /** After the axis offsets are computed: with a scrollbar, start the
        accumulator afresh and reserve the scrollbar's thickness and margin at
        the bottom for a horizontal axis and on the right for a vertical one,
        whatever `opposite` says; without one, change nothing. */
    method AfterGetOffset()
      requires chart.Valid()
      modifies chart`scrollbarsOffsets, chart.axisOffset
      ensures chart.Valid() && chart.axisOffset == old(chart.axisOffset)
      ensures scrollbar == null ==>
                chart.scrollbarsOffsets == old(chart.scrollbarsOffsets) &&
                chart.axisOffset[..] == old(chart.axisOffset[..])
      ensures scrollbar != null ==>
                && fresh(chart.scrollbarsOffsets)
                && chart.scrollbarsOffsets[..] == [0.0, 0.0]
                && var side := if horiz then 2 else 1;
                   chart.axisOffset[..] == old(chart.axisOffset[..])[side :=
                     old(chart.axisOffset[side]) + scrollbar.size + scrollbar.options.margin]
    {
      var index := if horiz then 2 else 1;
      if scrollbar != null {
        chart.scrollbarsOffsets := new real[2](_ => 0.0);
        chart.axisOffset[index] := chart.axisOffset[index] + scrollbar.size + scrollbar.options.margin;
      }
    }
  }
}
