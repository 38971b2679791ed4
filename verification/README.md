# Scrollbar–axis binding

A Dafny model of the Highcharts binding between an axis and its scrollbar
(`ts/parts/ScrollbarAxis.ts`). The binding does four things:

- it maps the axis window `min..max` to the scrollbar thumb range `from..to`
  when the axis renders, and maps the thumb range back to values when the
  scrollbar fires `changed`;
- it decides whether a `changed` event commits new extremes (`setExtremes`)
  or only moves the thumb (`setRange`);
- it keeps the chart's layout books: the space reserved per side
  (`chart.axisOffset`) and the accumulator that stacks scrollbars on one edge
  (`chart.scrollbarsOffsets`);
- at init time it forces a few axis options when the scrollbar is enabled.

The model has three modules.

- `ScrollbarRange` (`scrollbar_range.dfy`) holds the pure arithmetic as
  functions over `real`. It has the render-time domain (`ScrollMin`,
  `ScrollMax`), the drag-time domain (`UnitedMin`, `UnitedMax`), the forward
  mapping (`ThumbRange`) and the inverse mapping (`DragWindow`). Lemmas prove
  the bounds, the round trips in both directions and a worked example.
- `ScrollbarAxis` (`scrollbar_axis.dfy`) holds classes `Chart`, `Scrollbar` and
  `Axis`. The three hooks and the `changed` handler are methods of `Axis`. The
  chart arrays are updated in place. The calls made on the collaborators are
  returned as `Call` values, in the order they are made.
- `ScrollbarScenarios` (`scrollbar_scenarios.dfy`) drives two axes through the
  hooks on one chart, in both orders a render pass can take. It also drives the
  live-redraw gate through a drag and a release.

A number that may be `undefined` or NaN is an `Option<real>`. `None` stands
for both. `Math.min` and `Math.max` give `None` as soon as one operand is
`None`. `null` is not one of the values a bound can take in this model (see
"Left out"). Within the model, the source's `isNaN(scrollMin)` test is the same
as `!defined(axis.min)`, and the `ScrollMin` contract states this.

## Model

| member | source | states |
|---|---|---|
| ScrollbarRange.Min3 | ts/parts/ScrollbarAxis.ts:61-65 | `Math.min` of three numbers is undefined iff an operand is; otherwise it is one of them and at most each of them |
| ScrollbarRange.Max3 | ts/parts/ScrollbarAxis.ts:66-70 | `Math.max` of three numbers is undefined iff an operand is; otherwise it is one of them and at least each of them |
| ScrollbarRange.ScrollMin | ts/parts/ScrollbarAxis.ts:117-121 | the render-time lower bound is defined iff `axis.min` is. It is at most `axis.min` and at most the configured min and the data min where those are defined, and it equals one of them: it is the least of them |
| ScrollbarRange.ScrollMax | ts/parts/ScrollbarAxis.ts:122-126 | the render-time upper bound is defined iff `axis.max` is. It is at least `axis.max` and at least the configured max and the data max where those are defined, and it equals one of them: it is the greatest of them |
| ScrollbarRange.UnitedMin | ts/parts/ScrollbarAxis.ts:61-65 | the drag-time lower bound is defined iff both `axis.min` and `dataMin` are. It is the least of `axis.min`, `dataMin` and the configured min (where defined): at most each of them and equal to one of them |
| ScrollbarRange.UnitedMax | ts/parts/ScrollbarAxis.ts:66-70 | the drag-time upper bound is defined iff both `axis.max` and `dataMax` are. It is the greatest of `axis.max`, `dataMax` and the configured max (where defined): at least each of them and equal to one of them |
| ScrollbarRange.ToFractions | ts/parts/ScrollbarAxis.ts:196-209 | values inside the domain map to fractions inside [0, 1]; the fractions are ordered (strictly or not) exactly when the values are, in both branches |
| ScrollbarRange.Aligned | ts/parts/ScrollbarAxis.ts:75-86 | mirroring the fractions to `(1 - to, 1 - from)` keeps fractions inside [0, 1], and the result is ordered (strictly or not) exactly when the input is |
| ScrollbarRange.ToWindow | ts/parts/ScrollbarAxis.ts:71-86 | an ordered thumb range inside [0, 1] maps to an ordered window inside the domain; strict order is kept |
| ScrollbarRange.ThumbRange | ts/parts/ScrollbarAxis.ts:184-210 | the thumb is exactly `(0, 1)` for undefined bounds or `min == max`; otherwise `0 <= from < to <= 1`, in every orientation |
| ScrollbarRange.DragWindow | ts/parts/ScrollbarAxis.ts:61-86 | the dragged window is NaN unless `min`, `max`, `dataMin` and `dataMax` are all defined. When it is defined, the axis window is ordered (`min <= max`) and the thumb range is ordered inside [0, 1], the window satisfies `unitedMin <= from <= to <= unitedMax` |
| ScrollbarRange.WindowRoundTrip | ts/parts/ScrollbarAxis.ts:196-209 | on a non-empty domain, values to fractions and back is the identity, in both branches |
| ScrollbarRange.FractionsRoundTrip | ts/parts/ScrollbarAxis.ts:75-86 | on a non-empty domain, fractions to values and back is the identity, in both branches |
| ScrollbarRange.FlippedMirrorsDirect | ts/parts/ScrollbarAxis.ts:81-86 | the flipped branch is the direct one with the fractions swapped and mirrored: `to` comes from `1 - from` and `from` from `1 - to`, in both directions |
| ScrollbarRange.UnitedIsScrollDomain | ts/parts/ScrollbarAxis.ts:117-126 | with data bounds defined, the drag-time domain equals the render-time domain |
| ScrollbarRange.RenderThenDragRoundTrip | ts/parts/ScrollbarAxis.ts:196-209 | with all bounds defined and `min < max`, rendering the window and mapping the thumb back gives exactly `(min, max)`, for all four `horiz`/`reversed` combinations |
| ScrollbarRange.FullThumbSelectsUnitedDomain | ts/parts/ScrollbarAxis.ts:184-194 | a full-size thumb on a degenerate axis maps back to the whole united domain |
| ScrollbarRange.DragThenRenderRoundTrip | ts/parts/ScrollbarAxis.ts:75-86 | when the data bounds are the widest and the thumb range is non-empty inside [0, 1] (`0 <= from < to <= 1`), committing the dragged window and rendering again gives back that thumb range (no feedback drift) |
| ScrollbarRange.WorkedExample | ts/parts/ScrollbarAxis.ts:196-209 | window 20..50 on data 0..100 gives the thumb 0.2..0.5 when the fractions run direct and 0.5..0.8 when they are flipped |
| ScrollbarAxis.Axis.AfterInit | ts/parts/ScrollbarAxis.ts:42-55 | with the scrollbar enabled: `vertical == !horiz`, `startOnTick` and `endOnTick` are false, nothing else in the options changes, and a fresh scrollbar is built on the forced options; otherwise nothing changes |
| ScrollbarAxis.Axis.OnChanged | ts/parts/ScrollbarAxis.ts:57-110 | for the axis's own scrollbar, `setExtremes` is called iff `pick(liveRedraw, svg && !touch && !boosting)` holds, or `DOMType` is `mouseup`, or `DOMType` is absent. It is called with the dragged window, `redraw = true` and `animate = (DOMType != mousemove)`. Otherwise the only call is `setRange(from, to)` |
| ScrollbarAxis.Axis.AfterRender | ts/parts/ScrollbarAxis.ts:115-212 | without a scrollbar: no call and no change. With one: a horizontal axis grows slot 1 by `(opposite ? 0 : offset + axisMargin) + size + margin` and leaves slot 0 alone. It places the scrollbar at `y = top + height + 2 + slot1 - (opposite ? axisMargin : 0)`, reading slot1 after the label reservation. A vertical axis mirrors this on slot 0. The thumb is then set to `ThumbRange` |
| ScrollbarAxis.Axis.AfterGetOffset | ts/parts/ScrollbarAxis.ts:215-225 | with a scrollbar: the accumulator is a fresh `[0, 0]`, and `axisOffset[horiz ? 2 : 1]` grows by `size + margin` while the other sides stay as they were. Without one: nothing changes |
| ScrollbarScenarios.OffsetsThenRenders | ts/parts/ScrollbarAxis.ts:137-182 | two horizontal scrollbars (size 10, margin 2) whose offset hooks both run before their render hooks stack 12 apart, and 24 is reserved in all |
| ScrollbarScenarios.OffsetRenderPerAxis | ts/parts/ScrollbarAxis.ts:215-225 | when each axis runs its offset hook right before its render hook, the second reset discards the first reservation and both scrollbars get the same position |
| ScrollbarScenarios.LiveRedrawOff | ts/parts/ScrollbarAxis.ts:88-109 | with `liveRedraw` false, a `mousemove` only moves the thumb to `(0.25, 0.5)`. A `mouseup` then commits the window 25..50 on data 0..100, with redraw and animation |

## Left out

- The registration of the hooks with `addEvent` is left out. Each hook is a method that its caller invokes.
- The scrollbar widget is left out: its construction, drawing, drag capture and DOM-event translation. `Scrollbar` keeps only its options, thickness, chart and thumb range, and its thickness is taken from `ScrollbarOptions.size`.
- The bodies of `axis.setExtremes`, `scrollbar.position` and `scrollbar.setRange` are left out. Calls to them are returned as `Call` values and do not change the axis or the scrollbar.
- IEEE floating point is left out. Values are exact reals, so the round trips hold exactly, not within rounding.
- `null` bounds are not modelled. The source's `pick` and `defined` treat `null` as absent, but `Math.min` and `Math.max` read it as 0. So a `null` `dataMin` widens the drag-time domain to 0 rather than making it NaN, and a `null` `axis.min` gives a finite `scrollMin` although `defined(axis.min)` is false. The model has only defined numbers and `undefined`.
- An operand that is NaN although defined is not modelled. The same goes for an `axisTitleMargin` that is `undefined`. An `undefined` operand is modelled: it turns `Math.min`/`Math.max` into NaN.
- `H.svg` and `H.isTouchDevice` are plain parameters of `OnChanged`. `chart.isBoosting` is a field of `Chart`.
- ScrollbarRange.ThumbRange: requires `axis.min <= axis.max` when both are defined. The source relies on the axis keeping its window ordered. If the window were inverted, `scrollMax - scrollMin` could be zero and the source would divide by zero.
- ScrollbarAxis.Axis.AfterRender: requires `axis.min <= axis.max` when the axis has a scrollbar and both bounds are defined, because it computes `ThumbRange` in that case. Without a scrollbar there is no requirement.
- The event object handed to `setExtremes` holds only `DOMType`. The rest of the event payload is passed through untouched by the source.
- The order in which axes run their hooks is the caller's. Each scrollbar-bearing axis resets the accumulator in `AfterGetOffset`, as in the source, and `ScrollbarScenarios.OffsetRenderPerAxis` shows what that does when offset and render hooks alternate.
