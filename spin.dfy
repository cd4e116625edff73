/** The arithmetic of the spin animation: how one run of the updater advances
    the progress angle, and which bar arc `draw` asks the canvas for. Angles
    are in degrees, 0 at three o'clock, growing clockwise. */
module Spin {
  import opened Java

  /** Milliseconds between two runs of the updater: Java's `1000 / 60`. */
  const FRAME_DURATION: int := 1000 / 60
  const FULL_CIRCLE: int := 360
  /** Twelve o'clock. */
  const TOP: int := -90

  /** The progress after one run of the updater while spinning: `progress +=
      spinSpeed` in `int` arithmetic, then back to 0 once past a full circle
      (a full circle itself is kept). */
  function NextProgress(progress: Int32, spinSpeed: Int32): (p: Int32)
    ensures p <= FULL_CIRCLE
    ensures 0 <= progress <= FULL_CIRCLE && 0 <= spinSpeed <= MAX_INT - FULL_CIRCLE ==>
              0 <= p && p == (if progress + spinSpeed <= FULL_CIRCLE then progress + spinSpeed else 0)
  {
    var sum := Add(progress, spinSpeed);
    if sum > FULL_CIRCLE then 0 else sum
  }

  /** The progress after `n` runs of the updater while spinning; once at
      least one has run it is at most a full circle, whatever the start. */
  function Spun(progress: Int32, spinSpeed: Int32, n: nat): (p: Int32)
    ensures n > 0 ==> p <= FULL_CIRCLE
    decreases n
  {
    if n == 0 then progress else Spun(NextProgress(progress, spinSpeed), spinSpeed, n - 1)
  }

  /** Starting on the circle with a non-negative speed, the progress never
      leaves [0, 360], however many frames are run. */
  lemma {:induction false} SpinningStaysOnCircle(progress: Int32, spinSpeed: Int32, n: nat)
    requires 0 <= progress <= FULL_CIRCLE
    requires 0 <= spinSpeed <= MAX_INT - FULL_CIRCLE
    ensures 0 <= Spun(progress, spinSpeed, n) <= FULL_CIRCLE
    decreases n
  {
    if n > 0 {
      SpinningStaysOnCircle(NextProgress(progress, spinSpeed), spinSpeed, n - 1);
    }
  }

  /** Running `n + 1` frames is running `n` frames and then one more. */
  lemma {:induction false} SpunLast(progress: Int32, spinSpeed: Int32, n: nat)
    ensures Spun(progress, spinSpeed, n + 1) == NextProgress(Spun(progress, spinSpeed, n), spinSpeed)
    decreases n
  {
    if n > 0 {
      SpunLast(NextProgress(progress, spinSpeed), spinSpeed, n - 1);
    }
  }

  /** Until it passes a full circle the progress grows by `spinSpeed` per
      frame. */
  lemma {:induction false} SpinGrows(progress: Int32, spinSpeed: Int32, n: nat)
    requires 0 <= progress && 0 <= spinSpeed <= MAX_INT - FULL_CIRCLE
    requires progress + spinSpeed * n <= FULL_CIRCLE
    ensures Spun(progress, spinSpeed, n) == progress + spinSpeed * n
    decreases n
  {
    if n > 0 {
      var rest := spinSpeed * (n - 1);
      assert spinSpeed * n == spinSpeed + rest;
      assert 0 <= rest;
      assert NextProgress(progress, spinSpeed) == progress + spinSpeed;
      SpinGrows(progress + spinSpeed, spinSpeed, n - 1);
    }
  }

  /** The frame after the one that would pass a full circle brings the
      progress back to 0. */
  lemma SpinWraps(progress: Int32, spinSpeed: Int32, n: nat)
    requires 0 <= progress && 0 <= spinSpeed <= MAX_INT - FULL_CIRCLE
    requires progress + spinSpeed * n <= FULL_CIRCLE < progress + spinSpeed * (n + 1)
    ensures Spun(progress, spinSpeed, n + 1) == 0
  {
    SpinGrows(progress, spinSpeed, n);
    SpunLast(progress, spinSpeed, n);
    assert spinSpeed * (n + 1) == spinSpeed * n + spinSpeed;
  }

  /** A full circle is drawn for one frame before the wrap, and a huge speed
      makes the `int` sum overflow to a negative progress. */
  lemma ProgressEdgeCases()
    ensures NextProgress(358, 2) == FULL_CIRCLE
    ensures NextProgress(FULL_CIRCLE, 2) == 0
    ensures NextProgress(FULL_CIRCLE, MAX_INT as Int32) == MIN_INT + 359
  {
  }

  /** An arc the canvas is asked to draw. */
  datatype Arc = Arc(startAngle: int, sweepAngle: int)

  /** The bar arc `draw` requests: while spinning, a bar of `barLength`
      degrees starting `progress` degrees past twelve o'clock (an `int`
      subtraction); when stopped, a gauge from twelve o'clock sweeping
      `progress` degrees. */
  function BarArc(spinning: bool, progress: Int32, barLength: Int32): (arc: Arc)
    ensures !spinning ==> arc.startAngle == TOP && arc.sweepAngle == progress
    ensures spinning ==> arc.sweepAngle == barLength && (arc.startAngle - (TOP + progress)) % TWO_TO_32 == 0
    ensures spinning ==> InRange(arc.startAngle) && (MIN_INT - TOP <= progress ==> arc.startAngle == TOP + progress)
  {
    if spinning then Arc(Sub(progress, 90), barLength) else Arc(TOP, progress)
  }

  /** While spinning on the circle, one frame rotates the bar by `spinSpeed`
      degrees, or brings it back to twelve o'clock when progress wraps; its
      length never changes. */
  lemma SpinningBarAdvances(progress: Int32, spinSpeed: Int32, barLength: Int32)
    requires 0 <= progress <= FULL_CIRCLE && 0 <= spinSpeed <= MAX_INT - FULL_CIRCLE
    ensures var before, after := BarArc(true, progress, barLength), BarArc(true, NextProgress(progress, spinSpeed), barLength);
      && before.startAngle == TOP + progress
      && after.sweepAngle == before.sweepAngle == barLength
      && after.startAngle == (if progress + spinSpeed <= FULL_CIRCLE then before.startAngle + spinSpeed else TOP)
  {
  }

  /** When stopped on the circle, the bar is a gauge from twelve o'clock that
      ends `progress` degrees further, within one turn. */
  lemma StoppedBarIsGauge(progress: Int32, barLength: Int32)
    requires 0 <= progress <= FULL_CIRCLE
    ensures var arc := BarArc(false, progress, barLength);
      && arc.startAngle == TOP
      && TOP <= arc.startAngle + arc.sweepAngle <= TOP + FULL_CIRCLE
      && arc.sweepAngle == progress
  {
  }

  /** A gauge stopped at 90 degrees and a bar of 20 degrees spinning at 45
      degrees. */
  lemma BarArcExamples()
    ensures BarArc(false, 90, 20) == Arc(-90, 90)
    ensures BarArc(true, 45, 20) == Arc(-45, 20)
  {
  }
}
