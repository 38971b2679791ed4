/** Two horizontal axes with scrollbars on one chart, driven through the
    hooks in the two orders a render pass can take. */
module ScrollbarScenarios {

  import opened ScrollbarRange
  import opened ScrollbarAxis

  /** A horizontal, non-reversed, non-opposite axis of height 100 at the top of
      the plot, with an enabled scrollbar of thickness 10 and margin 2 and no
      room taken by labels. */
  method NewAxis(chart: Chart) returns (axis: Axis)
    ensures fresh(axis) && axis.chart == chart && axis.horiz && !axis.opposite
    ensures axis.scrollbar != null && fresh(axis.scrollbar)
    ensures axis.scrollbar.size == 10.0 && axis.scrollbar.options.margin == 2.0
    ensures axis.top == 0.0 && axis.height == 100.0 && axis.LabelOffset() == 0.0
    ensures axis.AxisMargin() == 0.0 && axis.Bounds().min.None?
  {
    var options := AxisOptions(None, None, None, true, true,
                               Some(ScrollbarOptions(true, false, None, 2.0, 10.0)));
    axis := new Axis(chart, true, false, false, options);
    axis.top, axis.height, axis.axisTitleMargin := 0.0, 100.0, 0.0;
    axis.AfterInit();
  }

  /** Both offset hooks run before both render hooks: the second scrollbar is
      stacked one reserved span (10 + 2) below the first, and 24 is reserved
      in all, in the accumulator and at the bottom of the chart. */
  method OffsetsThenRenders() returns (first: Call, second: Call, stacked: real, reserved: real)
    ensures first.Position? && second.Position?
    ensures second.y - first.y == 12.0
    ensures stacked == 24.0 && reserved == 24.0
  {
    var chart := new Chart(false);
    var a := NewAxis(chart);
    var b := NewAxis(chart);
    a.AfterGetOffset();
    b.AfterGetOffset();
    var callsA := a.AfterRender();
    var callsB := b.AfterRender();
    first, second := callsA[0], callsB[0];
    stacked, reserved := chart.scrollbarsOffsets[1], chart.axisOffset[2];
  }

  /** Each axis runs its offset hook right before its own render hook: the
      second offset hook zeroes the accumulator again, so the second scrollbar
      is placed exactly where the first one is. */
  method OffsetRenderPerAxis() returns (first: Call, second: Call)
    ensures first.Position? && second.Position?
    ensures second.y == first.y
  {
    var chart := new Chart(false);
    var a := NewAxis(chart);
    var b := NewAxis(chart);
    a.AfterGetOffset();
    var callsA := a.AfterRender();
    b.AfterGetOffset();
    var callsB := b.AfterRender();
    first, second := callsA[0], callsB[0];
  }

  /** Without live redraw, a drag in progress only moves the thumb, and
      releasing the mouse commits the extremes with animation: on data
      0..100, the thumb at 0.25..0.5 selects the window 25..50. */
  method LiveRedrawOff() returns (moving: Call, released: Call)
    ensures moving == SetRange(0.25, 0.5)
    ensures released == SetExtremes(Some(Window(25.0, 50.0)), true, true, ChangedEvent(Some("mouseup")))
  {
    var chart := new Chart(false);
    var options := AxisOptions(None, None, None, true, true,
                               Some(ScrollbarOptions(true, false, Some(false), 2.0, 10.0)));
    var axis := new Axis(chart, true, false, false, options);
    axis.AfterInit();
    axis.min, axis.max, axis.dataMin, axis.dataMax := Some(20.0), Some(50.0), Some(0.0), Some(100.0);
    var sb := axis.scrollbar;
    sb.from, sb.to := 0.25, 0.5;
    moving := axis.OnChanged(sb, ChangedEvent(Some("mousemove")), true, false);
    released := axis.OnChanged(sb, ChangedEvent(Some("mouseup")), true, false);
  }
}
