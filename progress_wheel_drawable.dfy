/** The progress-wheel drawable: its style properties, the layout it derives
    from its bounds, the spin state driven by start, stop and the updater,
    and the text lines. The host's scheduler and invalidation are reduced to
    fields recording what was requested of them. */
module ProgressWheel {
  import opened Java
  import opened TextSplit
  import opened Spin
  import opened Layout

  /** ARGB colours as Java `int`s. */
  const BLACK: Int32 := -0x0100_0000          // 0xFF000000
  const RED: Int32 := -0x0001_0000            // 0xFFFF0000
  const TRANSPARENT: Int32 := 0
  const RIM_GREY: Int32 := -0x5522_2223       // 0xAADDDDDD

  /** The drawable's scalar style properties, each with a getter and a
      setter. */
  datatype Style = Style(
    fullRadius: Int32, circleRadius: Int32, barLength: Int32, barWidth: Int32,
    rimWidth: Int32, textSize: Int32, contourSize: real,
    barColor: Int32, contourColor: Int32, circleColor: Int32, rimColor: Int32,
    textColor: Int32, spinSpeed: Int32)

  /** The builder the drawable is constructed from. Its fluent setters are
      datatype updates here: `builder.setBarColor(c)` is `b.(barColor := c)`. */
  datatype Builder = Builder(
    text: Nullable<string>, textSize: Int32, textColor: Int32, circleColor: Int32,
    barLength: Int32, barColor: Int32, barWidth: Int32, rimColor: Int32,
    rimWidth: Int32, spinSpeed: Int32, contourColor: Int32, contourSize: Int32,
    fullRadius: Int32, circleRadius: Int32)

  /** A fresh builder: no text, and the Builder's default for every size,
      colour and speed. */
  const DEFAULT_BUILDER: Builder := Builder(
    Null, 20, BLACK, TRANSPARENT, 20, RED, 20, RIM_GREY, 20, 2, TRANSPARENT, 0, 100, 80)

  /** The style a drawable built from `b` starts with. */
  function BuilderStyle(b: Builder): Style {
    Style(b.fullRadius, b.circleRadius, b.barLength, b.barWidth, b.rimWidth, b.textSize,
          b.contourSize as real, b.barColor, b.contourColor, b.circleColor, b.rimColor,
          b.textColor, b.spinSpeed)
  }

  /** The defaults of the builder. */
  lemma BuilderDefaults()
    ensures var s := BuilderStyle(DEFAULT_BUILDER);
      && DEFAULT_BUILDER.text == Null
      && s.textSize == 20 && s.barLength == 20 && s.barWidth == 20 && s.rimWidth == 20
      && s.spinSpeed == 2 && s.contourSize == 0.0 && s.fullRadius == 100 && s.circleRadius == 80
      && s.textColor == BLACK && s.barColor == RED && s.rimColor == RIM_GREY
      && s.circleColor == TRANSPARENT && s.contourColor == TRANSPARENT
  {
  }

  class ProgressWheelDrawable {
    // Sizes
    var layoutHeight: Int32
    var layoutWidth: Int32
    var fullRadius: Int32
    var circleRadius: Int32
    var barLength: Int32
    var barWidth: Int32
    var rimWidth: Int32
    var textSize: Int32
    var contourSize: real

    // Paddings
    var paddingTop: Int32
    var paddingBottom: Int32
    var paddingLeft: Int32
    var paddingRight: Int32

    // Colours
    var barColor: Int32
    var contourColor: Int32
    var circleColor: Int32
    var rimColor: Int32
    var textColor: Int32

    // Rectangles
    var rectBounds: Rect
    var circleBounds: Rect
    var circleOuterContour: RealRect
    var circleInnerContour: RealRect

    // Animation
    var spinSpeed: Int32
    var progress: Int32
    var isSpinning: bool

    // Text
    var text: Nullable<string>
    var splitText: seq<string>

    // What has been asked of the host
    /** Whether the updater is scheduled with the host. */
    var updaterScheduled: bool
    /** The time, in ms of the thread clock, it was last scheduled for. */
    var updaterDeadline: int
    /** Whether a redraw has been requested. */
    var invalidated: bool

    /** The stored lines are always the split of the stored text, and the
        updater is scheduled exactly while the wheel spins. */
    ghost predicate Valid()
      reads this`splitText, this`text, this`updaterScheduled, this`isSpinning
    {
      && splitText == SplitText(text)
      && updaterScheduled == isSpinning
    }

    function CurrentStyle(): Style
      reads this
    {
      Style(fullRadius, circleRadius, barLength, barWidth, rimWidth, textSize, contourSize,
            barColor, contourColor, circleColor, rimColor, textColor, spinSpeed)
    }

    /** Construction from a builder: the text goes through `SetText`, every
        other builder value is copied, and the rest has its initial value. */
    constructor (b: Builder)
      ensures Valid()
      ensures text == b.text && splitText == SplitText(b.text)
      ensures CurrentStyle() == BuilderStyle(b)
      ensures progress == 0 && !isSpinning && !updaterScheduled
      ensures paddingTop == paddingBottom == paddingLeft == paddingRight == 5
      ensures layoutWidth == 0 && layoutHeight == 0
      ensures rectBounds == circleBounds == Rect(0, 0, 0, 0)
      ensures circleInnerContour == circleOuterContour == RealRect(0.0, 0.0, 0.0, 0.0)
      ensures invalidated
    {
      layoutHeight, layoutWidth := 0, 0;
      paddingTop, paddingBottom, paddingLeft, paddingRight := 5, 5, 5, 5;
      rectBounds, circleBounds := Rect(0, 0, 0, 0), Rect(0, 0, 0, 0);
      circleOuterContour, circleInnerContour := RealRect(0.0, 0.0, 0.0, 0.0), RealRect(0.0, 0.0, 0.0, 0.0);
      progress, isSpinning := 0, false;
      text, splitText := NonNull(""), [];
      updaterScheduled, updaterDeadline, invalidated := false, 0, false;
      // The builder's values; Java copies them after `setText`, which
      // touches none of them.
      textColor, textSize, barColor, rimColor, rimWidth := b.textColor, b.textSize, b.barColor, b.rimColor, b.rimWidth;
      spinSpeed, circleColor, barWidth, barLength := b.spinSpeed, b.circleColor, b.barWidth, b.barLength;
      contourColor, contourSize, circleRadius, fullRadius := b.contourColor, b.contourSize as real, b.circleRadius, b.fullRadius;
      new;
      SetText(b.text);
    }

    /** One run of the updater. While spinning it advances the progress and
        starts over (rescheduling itself and asking for a redraw); a run
        delivered after `Stop` changes nothing. */
    method RunUpdater(now: int)
      requires Valid()
      modifies this`progress, this`isSpinning, this`updaterScheduled, this`updaterDeadline, this`invalidated
      ensures Valid()
      ensures !old(isSpinning) ==> unchanged(this)
      ensures old(isSpinning) ==>
        && progress == NextProgress(old(progress), spinSpeed)
        && isSpinning && updaterDeadline == now + FRAME_DURATION && invalidated
    {
      if isSpinning {
        progress := NextProgress(progress, spinSpeed);
        DoStart(now);
      }
    }

    /** Starting a spinning wheel does nothing; otherwise the updater is
        scheduled one frame ahead, which makes the wheel spin, and a redraw is
        requested. The progress is kept. */
    method Start(now: int)
      requires Valid()
      modifies this`isSpinning, this`updaterScheduled, this`updaterDeadline, this`invalidated
      ensures Valid()
      ensures old(isSpinning) ==> unchanged(this)
      ensures !old(isSpinning) ==> isSpinning && updaterDeadline == now + FRAME_DURATION && invalidated
      ensures progress == old(progress)
    {
      if IsRunning() {
        return;
      }
      DoStart(now);
    }

    /** Schedules the updater one frame ahead and asks for a redraw. */
    method DoStart(now: int)
      modifies this`isSpinning, this`updaterScheduled, this`updaterDeadline, this`invalidated
      ensures isSpinning && updaterScheduled && updaterDeadline == now + FRAME_DURATION && invalidated
    {
      ScheduleSelf(now + FRAME_DURATION);
      InvalidateSelf();
    }

    /** Stopping a stopped wheel does nothing; otherwise the wheel stops and
        the updater is unscheduled. The progress is kept. */
    method Stop()
      requires Valid()
      modifies this`isSpinning, this`updaterScheduled
      ensures Valid()
      ensures !isSpinning
      ensures !old(isSpinning) ==> unchanged(this)
      ensures progress == old(progress)
    {
      if !IsRunning() {
        return;
      }
      isSpinning := false;
      UnscheduleSelf();
    }

    /** The override of `scheduleSelf`: scheduling the updater is what marks
        the wheel as spinning. */
    method ScheduleSelf(when: int)
      modifies this`isSpinning, this`updaterScheduled, this`updaterDeadline
      ensures isSpinning && updaterScheduled && updaterDeadline == when
    {
      isSpinning := true;
      updaterScheduled, updaterDeadline := true, when;
    }

    /** The host forgets the scheduled updater. */
    method UnscheduleSelf()
      modifies this`updaterScheduled
      ensures !updaterScheduled
    {
      updaterScheduled := false;
    }

    /** The host is asked for a redraw. */
    method InvalidateSelf()
      modifies this`invalidated
      ensures invalidated
    {
      invalidated := true;
    }

    /** Whether the wheel spins, which is whether the updater is
        scheduled. */
    function IsRunning(): (running: bool)
      requires Valid()
      reads this
      ensures running <==> updaterScheduled
    {
      isSpinning
    }

    /** New bounds of `width` x `height`: the layout is recomputed and a
        redraw requested. */
    method OnBoundsChange(width: Int32, height: Int32)
      modifies this`layoutWidth, this`layoutHeight, this`invalidated
      modifies this`paddingTop, this`paddingBottom, this`paddingLeft, this`paddingRight
      modifies this`rectBounds, this`circleBounds, this`circleInnerContour, this`circleOuterContour
      modifies this`fullRadius, this`circleRadius
      ensures layoutWidth == width && layoutHeight == height
      ensures LaidOut()
      ensures invalidated
    {
      layoutWidth := width;
      layoutHeight := height;
      SetupBounds();
      InvalidateSelf();
    }

    /** The layout fields, read as one geometry. */
    function CurrentGeometry(): Geometry
      reads this
    {
      Geometry(paddingLeft, paddingTop, rectBounds, circleBounds, circleInnerContour, circleOuterContour,
               fullRadius, circleRadius)
    }

    /** The layout fields are those `setupBounds` derives from the bounds and
        the bar width, rim width and contour size. */
    ghost predicate LaidOut()
      reads this
    {
      && paddingBottom == paddingTop && paddingRight == paddingLeft
      && CurrentGeometry() == SetupGeometry(layoutWidth, layoutHeight, barWidth, rimWidth, contourSize)
    }

    /** Derives paddings, rectangles and radii from the bounds, overwriting
        any radius set before. */
    method SetupBounds()
      modifies this`paddingTop, this`paddingBottom, this`paddingLeft, this`paddingRight
      modifies this`rectBounds, this`circleBounds, this`circleInnerContour, this`circleOuterContour
      modifies this`fullRadius, this`circleRadius
      ensures LaidOut()
    {
      var g := SetupGeometry(layoutWidth, layoutHeight, barWidth, rimWidth, contourSize);
      paddingTop, paddingBottom, paddingLeft, paddingRight := g.yPadding, g.yPadding, g.xPadding, g.xPadding;
      rectBounds, circleBounds := g.rectBounds, g.circleBounds;
      circleInnerContour, circleOuterContour := g.circleInnerContour, g.circleOuterContour;
      fullRadius, circleRadius := g.fullRadius, g.circleRadius;
      assert CurrentGeometry() == g;
      assert layoutWidth == old(layoutWidth) && layoutHeight == old(layoutHeight);
      assert barWidth == old(barWidth) && rimWidth == old(rimWidth) && contourSize == old(contourSize);
    }

    /** What `draw` takes from the state besides the paints: the bar arc and
        the lines of text, in order. */
    method Draw() returns (bar: Arc, lines: seq<string>)
      requires Valid()
      ensures bar == BarArc(isSpinning, progress, barLength)
      ensures lines == SplitText(text)
    {
      bar := BarArc(isSpinning, progress, barLength);
      lines := splitText;
    }

    /** Stores the text as given and the lines it splits into, and asks for a
        redraw. */
    method SetText(text: Nullable<string>)
      requires Valid()
      modifies this`text, this`splitText, this`invalidated
      ensures Valid()
      ensures GetText() == text && splitText == SplitText(text)
      ensures invalidated
    {
      this.text := text;
      splitText := SplitText(text);
      InvalidateSelf();
    }

    // Setters: each assigns its own field and asks for a redraw; nothing
    // else changes.

    method SetFullRadius(fullRadius: Int32)
      requires Valid()
      modifies this`fullRadius, this`invalidated
      ensures GetFullRadius() == fullRadius && invalidated
      ensures CurrentStyle() == old(CurrentStyle()).(fullRadius := fullRadius)
      ensures Valid()
    {
      this.fullRadius := fullRadius;
      InvalidateSelf();
    }

    method SetCircleRadius(circleRadius: Int32)
      requires Valid()
      modifies this`circleRadius, this`invalidated
      ensures GetCircleRadius() == circleRadius && invalidated
      ensures CurrentStyle() == old(CurrentStyle()).(circleRadius := circleRadius)
      ensures Valid()
    {
      this.circleRadius := circleRadius;
      InvalidateSelf();
    }

    method SetBarLength(barLength: Int32)
      requires Valid()
      modifies this`barLength, this`invalidated
      ensures GetBarLength() == barLength && invalidated
      ensures CurrentStyle() == old(CurrentStyle()).(barLength := barLength)
      ensures Valid()
    {
      this.barLength := barLength;
      InvalidateSelf();
    }

    method SetBarWidth(barWidth: Int32)
      requires Valid()
      modifies this`barWidth, this`invalidated
      ensures GetBarWidth() == barWidth && invalidated
      ensures CurrentStyle() == old(CurrentStyle()).(barWidth := barWidth)
      ensures Valid()
    {
      this.barWidth := barWidth;
      InvalidateSelf();
    }

    method SetRimWidth(rimWidth: Int32)
      requires Valid()
      modifies this`rimWidth, this`invalidated
      ensures GetRimWidth() == rimWidth && invalidated
      ensures CurrentStyle() == old(CurrentStyle()).(rimWidth := rimWidth)
      ensures Valid()
    {
      this.rimWidth := rimWidth;
      InvalidateSelf();
    }

    method SetTextSize(textSize: Int32)
      requires Valid()
      modifies this`textSize, this`invalidated
      ensures GetTextSize() == textSize && invalidated
      ensures CurrentStyle() == old(CurrentStyle()).(textSize := textSize)
      ensures Valid()
    {
      this.textSize := textSize;
      InvalidateSelf();
    }

    method SetContourSize(contourSize: real)
      requires Valid()
      modifies this`contourSize, this`invalidated
      ensures GetContourSize() == contourSize && invalidated
      ensures CurrentStyle() == old(CurrentStyle()).(contourSize := contourSize)
      ensures Valid()
    {
      this.contourSize := contourSize;
      InvalidateSelf();
    }

    method SetBarColor(barColor: Int32)
      requires Valid()
      modifies this`barColor, this`invalidated
      ensures GetBarColor() == barColor && invalidated
      ensures CurrentStyle() == old(CurrentStyle()).(barColor := barColor)
      ensures Valid()
    {
      this.barColor := barColor;
      InvalidateSelf();
    }

    method SetContourColor(contourColor: Int32)
      requires Valid()
      modifies this`contourColor, this`invalidated
      ensures GetContourColor() == contourColor && invalidated
      ensures CurrentStyle() == old(CurrentStyle()).(contourColor := contourColor)
      ensures Valid()
    {
      this.contourColor := contourColor;
      InvalidateSelf();
    }

    method SetCircleColor(circleColor: Int32)
      requires Valid()
      modifies this`circleColor, this`invalidated
      ensures GetCircleColor() == circleColor && invalidated
      ensures CurrentStyle() == old(CurrentStyle()).(circleColor := circleColor)
      ensures Valid()
    {
      this.circleColor := circleColor;
      InvalidateSelf();
    }

    method SetRimColor(rimColor: Int32)
      requires Valid()
      modifies this`rimColor, this`invalidated
      ensures GetRimColor() == rimColor && invalidated
      ensures CurrentStyle() == old(CurrentStyle()).(rimColor := rimColor)
      ensures Valid()
    {
      this.rimColor := rimColor;
      InvalidateSelf();
    }

    method SetTextColor(textColor: Int32)
      requires Valid()
      modifies this`textColor, this`invalidated
      ensures GetTextColor() == textColor && invalidated
      ensures CurrentStyle() == old(CurrentStyle()).(textColor := textColor)
      ensures Valid()
    {
      this.textColor := textColor;
      InvalidateSelf();
    }

    method SetSpinSpeed(spinSpeed: Int32)
      requires Valid()
      modifies this`spinSpeed, this`invalidated
      ensures GetSpinSpeed() == spinSpeed && invalidated
      ensures CurrentStyle() == old(CurrentStyle()).(spinSpeed := spinSpeed)
      ensures Valid()
    {
      this.spinSpeed := spinSpeed;
      InvalidateSelf();
    }

    // Getters

    function GetFullRadius(): Int32 reads this { fullRadius }
    function GetCircleRadius(): Int32 reads this { circleRadius }
    function GetBarLength(): Int32 reads this { barLength }
    function GetBarWidth(): Int32 reads this { barWidth }
    function GetRimWidth(): Int32 reads this { rimWidth }
    function GetTextSize(): Int32 reads this { textSize }
    function GetContourSize(): real reads this { contourSize }
    function GetBarColor(): Int32 reads this { barColor }
    function GetContourColor(): Int32 reads this { contourColor }
    function GetCircleColor(): Int32 reads this { circleColor }
    function GetRimColor(): Int32 reads this { rimColor }
    function GetTextColor(): Int32 reads this { textColor }
    function GetSpinSpeed(): Int32 reads this { spinSpeed }
    function IsSpinning(): bool reads this { isSpinning }
    function GetText(): Nullable<string> reads this { text }
  }

  /** Start, a second start, one frame, a stop and a stale frame after it. */
  method SpinScenario() {
    var d := new ProgressWheelDrawable(DEFAULT_BUILDER);
    d.Start(0);
    d.Start(5);
    assert d.updaterDeadline == FRAME_DURATION == 16 && d.progress == 0;
    d.RunUpdater(16);
    assert d.progress == 2 && d.IsSpinning();
    d.Stop();
    d.RunUpdater(32);
    assert d.progress == 2 && !d.updaterScheduled;
    var bar, lines := d.Draw();
    assert bar == Arc(-90, 2) && lines == [];
  }

  /** A radius set by hand is overwritten by the next layout; a colour setter
      leaves the other colours alone. */
  method LayoutScenario() {
    var d := new ProgressWheelDrawable(DEFAULT_BUILDER);
    d.SetFullRadius(5);
    d.SetBarColor(BLACK);
    assert d.GetRimColor() == RIM_GREY;
    d.OnBoundsChange(200, 200);
    assert d.GetFullRadius() == 90 && d.GetCircleRadius() == 71;
    assert d.circleBounds == Rect(20, 20, 180, 180);
  }
}
