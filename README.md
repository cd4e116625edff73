# Progress wheel drawable

A Dafny model of `ProgressWheelDrawable`, the Android `Drawable` that draws the
progress wheel. The model covers:

- the spin state machine: `start`, `stop`, the `scheduleSelf` override and the
  updater runnable that advances `progress` once per frame;
- the layout `setupBounds` derives from the drawable's bounds: paddings, the
  outer and circle rectangles, the two contour rings and the two radii;
- the bar arc `draw` asks the canvas for;
- `setText`, which splits the text into lines the way Java's
  `String.split("\n")` does;
- the property setters and getters;
- the builder's defaults and the constructor that copies them.

Files:

- `java.dfy` (module `Java`): Java `int` values (`Int32`) and two's-complement
  `+`/`-` (`Add`, `Sub` through `Wrap`), `Math.min`, and `/ 2` rounding toward
  zero (`Quot2`). A `String` that may be `null` is a `Nullable<string>`.
- `text_split.dfy` (module `TextSplit`): the line split and its properties.
- `spin.dfy` (module `Spin`): one updater step (`NextProgress`), `n` steps
  (`Spun`), and the bar arc (`BarArc`).
- `layout.dfy` (module `Layout`): the `setupBounds` arithmetic as pure
  functions (`SetupGeometry` and its parts).
- `progress_wheel_drawable.dfy` (module `ProgressWheel`): the `Builder`
  datatype and the `ProgressWheelDrawable` class. The class has the Java
  fields. Its methods update the fields in place.

How the host appears in the model:

- The host's scheduler and redraw requests are the fields `updaterScheduled`,
  `updaterDeadline` and `invalidated`.
- The thread clock is the parameter `now` of `Start` and `RunUpdater`.
- The class invariant `Valid()` says two things. The stored lines are the
  split of the stored text. The updater is scheduled exactly while the wheel
  spins.

The getters are plain field reads and carry no contract of their own. The
setters state their effect through them.

Two behaviours of the code are kept as written and stated as lemmas:

- A full circle (360) survives one frame before the progress goes back to 0
  (`Spin.ProgressEdgeCases`).
- `fullRadius` subtracts only the right padding. On a region wider than tall
  by at least twice the bar width, the inner circle is therefore wider than
  the circle bounds it is meant to fill (`Layout.WideInnerCircleOverflows`).
  A region that is only slightly wider than tall need not overflow
  (`Layout.LandscapeInnerCircleOverflows`).

## Model

| member | source | states |
|---|---|---|
| Java.WrapIsModular | src/com/todddavies/components/progressbar/ProgressWheelDrawable.java:72 | an `int` sum or difference differs from the exact one by a multiple of 2^32, and equals it exactly when the exact value is in range |
| Java.Quot2TruncatesTowardZero | src/com/todddavies/components/progressbar/ProgressWheelDrawable.java:156-159 | `x / 2` leaves a remainder with the sign of `x` and commutes with negation, i.e. rounds toward zero |
| TextSplit.SplitOnNewline | src/com/todddavies/components/progressbar/ProgressWheelDrawable.java:265 | Java's `split("\n")`: a string with no separator is its own only line; otherwise the lines contain no newline, the last one is not empty, and joined with newlines they give the string without its trailing newlines |
| TextSplit.SplitText | src/com/todddavies/components/progressbar/ProgressWheelDrawable.java:260-268 | the stored lines contain no newline and the last one is never empty |
| TextSplit.JoinPieces | src/com/todddavies/components/progressbar/ProgressWheelDrawable.java:265 | joining the pieces between separators with newlines gives the string back |
| TextSplit.PiecesJoin | src/com/todddavies/components/progressbar/ProgressWheelDrawable.java:265 | splitting the join of newline-free lines gives those lines back |
| TextSplit.JoinDropPieces | src/com/todddavies/components/progressbar/ProgressWheelDrawable.java:265 | dropping trailing empty pieces is stripping trailing newlines |
| TextSplit.SplitTextJoin | src/com/todddavies/components/progressbar/ProgressWheelDrawable.java:260-268 | null text gives no lines; the lines joined with newlines are the text without its trailing newlines; there are no lines exactly when the text is null or only newlines |
| TextSplit.SplitJoinRoundTrip | src/com/todddavies/components/progressbar/ProgressWheelDrawable.java:260-268 | any newline-free lines whose last line is not empty are recovered from their join |
| TextSplit.SplitTwoLines | src/com/todddavies/components/progressbar/ProgressWheelDrawable.java:265 | `"A\nB"` gives `["A", "B"]` |
| TextSplit.SplitOnlySeparators | src/com/todddavies/components/progressbar/ProgressWheelDrawable.java:265 | a text of separators only gives no lines |
| TextSplit.SplitLeadingSeparator | src/com/todddavies/components/progressbar/ProgressWheelDrawable.java:265 | a leading separator gives an empty first line and a trailing one no line |
| Spin.NextProgress | src/com/todddavies/components/progressbar/ProgressWheelDrawable.java:72-75 | one frame never leaves progress above 360; from [0, 360] with a speed that cannot overflow it gives `progress + spinSpeed` when that is at most 360 and 0 otherwise |
| Spin.Spun | src/com/todddavies/components/progressbar/ProgressWheelDrawable.java:68-79 | the progress after `n` runs of the updater while spinning; after at least one run it is at most 360 whatever the start |
| Spin.SpunLast | src/com/todddavies/components/progressbar/ProgressWheelDrawable.java:68-79 | `n + 1` frames are `n` frames and one more |
| Spin.SpinningStaysOnCircle | src/com/todddavies/components/progressbar/ProgressWheelDrawable.java:72-75 | any number of frames keeps progress in [0, 360], 360 included |
| Spin.SpinGrows | src/com/todddavies/components/progressbar/ProgressWheelDrawable.java:72-75 | until it would pass 360, progress after `n` frames is `progress + n * spinSpeed` |
| Spin.SpinWraps | src/com/todddavies/components/progressbar/ProgressWheelDrawable.java:73-75 | the frame that would pass 360 brings progress back to 0 |
| Spin.ProgressEdgeCases | src/com/todddavies/components/progressbar/ProgressWheelDrawable.java:72-75 | 358 + 2 stays at 360 for a frame; 360 + 2 resets to 0; an overflowing speed wraps to a negative progress |
| Spin.BarArc | src/com/todddavies/components/progressbar/ProgressWheelDrawable.java:215-219 | the bar arc `draw` requests: stopped, it starts at twelve o'clock (-90) and sweeps `progress`; spinning, it sweeps `barLength` and starts `progress` degrees past twelve o'clock: always a valid `int` and congruent to `progress - 90` modulo 2^32, and exactly `progress - 90` when that does not underflow |
| Spin.SpinningBarAdvances | src/com/todddavies/components/progressbar/ProgressWheelDrawable.java:215-216 | while spinning the bar starts `progress` degrees past twelve o'clock, keeps its length, and a frame turns it by `spinSpeed` or back to twelve o'clock |
| Spin.StoppedBarIsGauge | src/com/todddavies/components/progressbar/ProgressWheelDrawable.java:217-219 | when stopped the bar starts at twelve o'clock and sweeps `progress` degrees, within one turn |
| Spin.BarArcExamples | src/com/todddavies/components/progressbar/ProgressWheelDrawable.java:215-219 | the two branches on concrete values |
| Layout.SetupGeometry | src/com/todddavies/components/progressbar/ProgressWheelDrawable.java:149-174 | every field `setupBounds` writes, from the bounds, bar width, rim width and contour size; its properties are the lemmas below |
| Layout.AxisPadding | src/com/todddavies/components/progressbar/ProgressWheelDrawable.java:149-159 | the padding of one axis: `(side - min(side, other)) / 2` in `int` arithmetic with truncating division; its properties are in `OuterRectIsCentredSquare` |
| Layout.FullRadius | src/com/todddavies/components/progressbar/ProgressWheelDrawable.java:173 | `(width - paddingRight - barWidth) / 2` in `int` arithmetic with truncating division; see `FullRadiusFromRightEdge`, `SquareRadii` |
| Layout.CircleRadius | src/com/todddavies/components/progressbar/ProgressWheelDrawable.java:174 | `(fullRadius - barWidth) + 1` in `int` arithmetic; see `SquareRadii` |
| Layout.OuterRectIsCentredSquare | src/com/todddavies/components/progressbar/ProgressWheelDrawable.java:149-164 | paddings are `(side - min) / 2` and equal on opposite sides; one axis has none; the outer rectangle is a square of the shorter side, one pixel longer when the excess is odd |
| Layout.BoundsNest | src/com/todddavies/components/progressbar/ProgressWheelDrawable.java:161-169 | the circle bounds are the outer rectangle inset by exactly `barWidth` on every side, and both nest inside the region |
| Layout.ContoursStraddleCircle | src/com/todddavies/components/progressbar/ProgressWheelDrawable.java:170-171 | the inner and outer contour rings lie inside and outside the circle bounds, each side at distance exactly `rimWidth / 2 + contourSize / 2` from it, on all four sides |
| Layout.FullRadiusFromRightEdge | src/com/todddavies/components/progressbar/ProgressWheelDrawable.java:173 | `fullRadius` is half the circle bounds' right edge, measured from the region's left edge |
| Layout.SquareRadii | src/com/todddavies/components/progressbar/ProgressWheelDrawable.java:173-174 | on a square region, twice each radius is the circle width plus or minus the bar width, up to truncation |
| Layout.WideInnerCircleOverflows | src/com/todddavies/components/progressbar/ProgressWheelDrawable.java:149-174 | with a bar of at most half the height, on a region at least twice the bar width wider than tall, the inner circle's diameter exceeds the width of the circle bounds |
| Layout.LandscapeInnerCircleOverflows | src/com/todddavies/components/progressbar/ProgressWheelDrawable.java:173-174 | on 400 x 200 with a bar of 20 the circle bounds are 160 wide but the inner radius is 121; on 220 x 200 they are 160 wide and the radius is 76, so no overflow there |
| ProgressWheel.BuilderDefaults | src/com/todddavies/components/progressbar/ProgressWheelDrawable.java:403-418 | the builder's default text, sizes, colours and speed |
| ProgressWheel.ProgressWheelDrawable.constructor | src/com/todddavies/components/progressbar/ProgressWheelDrawable.java:81-96 | the text goes through `setText`; every other builder value is copied; paddings start at 5, progress at 0, stopped |
| ProgressWheel.ProgressWheelDrawable.RunUpdater | src/com/todddavies/components/progressbar/ProgressWheelDrawable.java:68-79 | while spinning, progress takes one step and the updater is rescheduled one frame later with a redraw; otherwise nothing changes |
| ProgressWheel.ProgressWheelDrawable.Start | src/com/todddavies/components/progressbar/ProgressWheelDrawable.java:98-104 | a no-op when spinning; otherwise the wheel spins, the updater is due one frame later and a redraw is asked for; progress is kept |
| ProgressWheel.ProgressWheelDrawable.DoStart | src/com/todddavies/components/progressbar/ProgressWheelDrawable.java:106-109 | the updater is scheduled `FRAME_DURATION` ahead and a redraw is asked for |
| ProgressWheel.ProgressWheelDrawable.Stop | src/com/todddavies/components/progressbar/ProgressWheelDrawable.java:111-118 | a no-op when stopped; otherwise the wheel stops and the updater is unscheduled; progress is kept |
| ProgressWheel.ProgressWheelDrawable.ScheduleSelf | src/com/todddavies/components/progressbar/ProgressWheelDrawable.java:120-124 | scheduling the updater marks the wheel as spinning |
| ProgressWheel.ProgressWheelDrawable.IsRunning | src/com/todddavies/components/progressbar/ProgressWheelDrawable.java:139-142 | the wheel runs exactly while the updater is scheduled |
| ProgressWheel.ProgressWheelDrawable.OnBoundsChange | src/com/todddavies/components/progressbar/ProgressWheelDrawable.java:126-137 | the bounds are stored, the layout is recomputed from them and a redraw is asked for |
| ProgressWheel.ProgressWheelDrawable.SetupBounds | src/com/todddavies/components/progressbar/ProgressWheelDrawable.java:147-175 | paddings, rectangles, contours and both radii are those derived from the bounds, bar width, rim width and contour size; radii set earlier are overwritten |
| ProgressWheel.ProgressWheelDrawable.Draw | src/com/todddavies/components/progressbar/ProgressWheelDrawable.java:207-233 | the bar arc is chosen from the spin state, and the lines drawn are the split of the text |
| ProgressWheel.ProgressWheelDrawable.SetText | src/com/todddavies/components/progressbar/ProgressWheelDrawable.java:260-268 | the text is stored as given, the lines are its split, and a redraw is asked for |
| ProgressWheel.ProgressWheelDrawable.SetFullRadius | src/com/todddavies/components/progressbar/ProgressWheelDrawable.java:275-278 | the getter returns the new value; no other style property changes; a redraw is asked for; the class invariant is kept |
| ProgressWheel.ProgressWheelDrawable.SetCircleRadius | src/com/todddavies/components/progressbar/ProgressWheelDrawable.java:280-283 | the same, for the circle radius |
| ProgressWheel.ProgressWheelDrawable.SetBarLength | src/com/todddavies/components/progressbar/ProgressWheelDrawable.java:285-288 | the same, for the bar length |
| ProgressWheel.ProgressWheelDrawable.SetBarWidth | src/com/todddavies/components/progressbar/ProgressWheelDrawable.java:290-293 | the same, for the bar width |
| ProgressWheel.ProgressWheelDrawable.SetRimWidth | src/com/todddavies/components/progressbar/ProgressWheelDrawable.java:295-298 | the same, for the rim width |
| ProgressWheel.ProgressWheelDrawable.SetTextSize | src/com/todddavies/components/progressbar/ProgressWheelDrawable.java:300-303 | the same, for the text size |
| ProgressWheel.ProgressWheelDrawable.SetContourSize | src/com/todddavies/components/progressbar/ProgressWheelDrawable.java:305-308 | the same, for the contour size |
| ProgressWheel.ProgressWheelDrawable.SetBarColor | src/com/todddavies/components/progressbar/ProgressWheelDrawable.java:310-313 | the same, for the bar colour (the rim colour, for one, is left alone) |
| ProgressWheel.ProgressWheelDrawable.SetContourColor | src/com/todddavies/components/progressbar/ProgressWheelDrawable.java:315-318 | the same, for the contour colour |
| ProgressWheel.ProgressWheelDrawable.SetCircleColor | src/com/todddavies/components/progressbar/ProgressWheelDrawable.java:320-323 | the same, for the circle colour |
| ProgressWheel.ProgressWheelDrawable.SetRimColor | src/com/todddavies/components/progressbar/ProgressWheelDrawable.java:325-328 | the same, for the rim colour |
| ProgressWheel.ProgressWheelDrawable.SetTextColor | src/com/todddavies/components/progressbar/ProgressWheelDrawable.java:330-333 | the same, for the text colour |
| ProgressWheel.ProgressWheelDrawable.SetSpinSpeed | src/com/todddavies/components/progressbar/ProgressWheelDrawable.java:335-338 | the same, for the spin speed |

## Left out

- `ProgressWheelView.java`: it maps Android style attributes onto the builder and forwards accessors to the drawable. It has no logic of its own.
- `setupPaints`, `setAlpha`, `setColorFilter` and `getOpacity`: they only configure Android `Paint` objects or return a constant.
- The canvas calls in `draw`: the rim and contour arcs, the inner circle and the text placement. Text placement depends on font metrics. `Draw` returns only the bar arc and the lines.
- Real scheduling: the host's queue, the thread clock and `invalidateSelf` are fields recording what was asked. The clock is a parameter. The `long` deadline `now + FRAME_DURATION` is an unbounded integer, so its overflow is not modelled.
- ProgressWheel.ProgressWheelDrawable.ScheduleSelf: the Java override takes any `Runnable` and marks the wheel spinning whichever one it is given. Its only caller passes the updater (ProgressWheelDrawable.java:107), so the model schedules only the updater. `Valid()`'s "scheduled exactly while spinning" relies on this.
- `OnBoundsChange` and `SetupBounds` do not state the class invariant: `Valid()` reads only the text, the lines and the two spin flags, which their frames do not include, so callers keep it.
- `RunUpdater`: models the body of the updater. The host consuming the scheduled runnable before running it is not modelled, so `updaterScheduled` stays set while spinning.
- `getBounds().width()` and `getBounds().height()` in `setupBounds` are taken to be the `layout_width` and `layout_height` just stored from the same bounds.
- Float rounding: `rectBounds` and `circleBounds` keep the exact `int` values their corners are computed from, and the contour rings are over the reals. `drawArc` also takes the arc angles `progress - 90`, `barLength` and `progress` as floats, while `Spin.Arc` keeps them as `int`s; the two differ only for magnitudes above 2^24, where a float cannot hold every integer. Float rounding is not modelled.
- The builder's fluent setters and `build`: the builder is a datatype, and a setter is a datatype update such as `b.(barColor := c)`.
- The getters have no contract of their own: each returns its field.
- Spin.NextProgress: its closed form is stated only for progress in [0, 360] and a speed at most `MAX_INT - 360`. For other inputs it states only that the result is at most 360. The body models the `int` overflow.
