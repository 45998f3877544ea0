/**
 * The normalised time of day of the day-night cycle and the way one frame moves it
 * (Assets/Script/DayNightCycleController.cs, lines 83-111).
 * A time of 0 is midnight, 0.25 sunrise, 0.5 noon and 0.75 sunset.
 */
module DayNightTime {

  /** The fraction of a day that one frame of `deltaTime` seconds covers (line 88). */
  function FrameStep(deltaTime: real, dayDuration: real, timeScale: real): (d: real)
    requires dayDuration != 0.0
    ensures timeScale == 0.0 || deltaTime == 0.0 ==> d == 0.0
    ensures deltaTime >= 0.0 && dayDuration > 0.0 && timeScale >= 0.0 ==> d >= 0.0
  {
    (deltaTime / dayDuration) * timeScale
  }

  /** The step is the frame's share of the day, scaled: multiplying back by the day length gives frame time × scale. */
  lemma FrameStepScales(deltaTime: real, dayDuration: real, timeScale: real)
    requires dayDuration != 0.0
    ensures FrameStep(deltaTime, dayDuration, timeScale) * dayDuration == deltaTime * timeScale
    ensures deltaTime == dayDuration ==> FrameStep(deltaTime, dayDuration, timeScale) == timeScale
  {
    var q := deltaTime / dayDuration;
    assert q * dayDuration == deltaTime;
    assert (q * timeScale) * dayDuration == (q * dayDuration) * timeScale;
  }

  /**
   * The wrap of lines 100-107: a single correction of one day, downwards when the
   * time reached 1 and upwards when it fell below 0.
   */
  function Wrap(x: real): (r: real)
    ensures r == x || r == x - 1.0 || r == x + 1.0
    ensures -1.0 <= x < 2.0 ==> 0.0 <= r < 1.0
    ensures 0.0 <= x < 1.0 ==> r == x
  {
    if x >= 1.0 then x - 1.0
    else if x < 0.0 then x + 1.0
    else x
  }

  /** The true reduction modulo one day, the reference the wrap is compared with. */
  function Frac(x: real): (r: real)
    ensures 0.0 <= r < 1.0
    ensures (x - r).Floor as real == x - r
  {
    x - x.Floor as real
  }

  /** `Mathf.Clamp01`: the value forced into [0, 1] (line 194). */
  function Clamp01(x: real): (r: real)
    ensures 0.0 <= r <= 1.0
    ensures 0.0 <= x <= 1.0 ==> r == x
    ensures x < 0.0 ==> r == 0.0
    ensures x > 1.0 ==> r == 1.0
  {
    if x < 0.0 then 0.0 else if x > 1.0 then 1.0 else x
  }

  /** `Mathf.Max(0, x)`: the value with negatives raised to 0 (line 175). */
  function AtLeastZero(x: real): (r: real)
    ensures r >= 0.0 && r >= x
    ensures r == x || r == 0.0
  {
    if x > 0.0 then x else 0.0
  }

  /** The time after one frame: move by `d` (backwards when reversed, lines 90-97), then wrap. */
  function Step(t: real, d: real, reversed: bool): real
  {
    Wrap(if reversed then t - d else t + d)
  }

  /** The signed amount a frame adds to the time before wrapping. */
  function Signed(d: real, reversed: bool): real
  {
    if reversed then -d else d
  }

  /** One frame of the clock: its step and the reversal flag in force during it. */
  datatype Frame = Frame(step: real, reversed: bool)

  /** The time after a run of frames, each applied by `Step`. */
  function Run(t: real, frames: seq<Frame>): real
    decreases |frames|
  {
    if frames == [] then t
    else Run(Step(t, frames[0].step, frames[0].reversed), frames[1..])
  }

  /** The signed total the frames add to the time. */
  function Total(frames: seq<Frame>): real
    decreases |frames|
  {
    if frames == [] then 0.0
    else Signed(frames[0].step, frames[0].reversed) + Total(frames[1..])
  }

  /** Every frame moves the time by less than a whole day. */
  predicate SmallSteps(frames: seq<Frame>)
  {
    forall i :: 0 <= i < |frames| ==> -1.0 < frames[i].step < 1.0
  }

  /** The single correction agrees with the true reduction exactly on [-1, 2). */
  lemma WrapIsFracExactlyOn(x: real)
    ensures Wrap(x) == Frac(x) <==> -1.0 <= x < 2.0
  {
    if -1.0 <= x < 0.0 {
      assert x.Floor == -1;
    } else if 0.0 <= x < 1.0 {
      assert x.Floor == 0;
    } else if 1.0 <= x < 2.0 {
      assert x.Floor == 1;
    }
  }

  /** A step of magnitude below one day from a time in [0, 1] lands in [0, 1). */
  lemma StepStaysInDay(t: real, d: real, reversed: bool)
    requires 0.0 <= t <= 1.0
    requires -1.0 < d < 1.0
    ensures 0.0 <= Step(t, d, reversed) < 1.0
    ensures Step(t, d, reversed) == Frac(t + Signed(d, reversed))
  {
    WrapIsFracExactlyOn(if reversed then t - d else t + d);
  }

  /** A larger step is not reduced into the day: one correction is all the wrap does. */
  lemma LargeStepLeavesDay()
    ensures Step(0.9, 1.5, false) == 1.4
    ensures Step(0.2, 1.5, true) == -0.3
  {
  }

  /**
   * A paused clock: with a time scale of 0, a frame of any length in a day of any length keeps
   * a time in [0, 1) and turns 1 into 0.
   */
  lemma PausedClock(t: real, deltaTime: real, dayDuration: real, reversed: bool)
    requires 0.0 <= t <= 1.0 && dayDuration != 0.0
    ensures Step(t, FrameStep(deltaTime, dayDuration, 0.0), reversed) == (if t == 1.0 then 0.0 else t)
  {
  }

  /** Going forward by `d` and then back by `d` returns to the start. */
  lemma ForwardThenBack(t: real, d: real)
    requires 0.0 <= t < 1.0 && 0.0 <= d < 1.0
    ensures Step(Step(t, d, false), d, true) == t
  {
  }

  /** Going back by `d` and then forward by `d` returns to the start. */
  lemma BackThenForward(t: real, d: real)
    requires 0.0 <= t < 1.0 && 0.0 <= d < 1.0
    ensures Step(Step(t, d, true), d, false) == t
  {
  }

  /** Reducing modulo one day ignores whole days added or removed. */
  lemma FracShift(x: real, k: int)
    ensures Frac(x + k as real) == Frac(x)
  {
    assert (x + k as real).Floor == x.Floor + k;
  }

  /** Reduction of a reduced value: adding after reducing equals reducing the sum. */
  lemma FracOfFracPlus(x: real, y: real)
    ensures Frac(Frac(x) + y) == Frac(x + y)
  {
    assert Frac(x) + y == (x + y) + (-x.Floor) as real;
    FracShift(x + y, -x.Floor);
  }

  /**
   * Over any run of frames whose steps stay below one day, the clock keeps the true time of
   * day: the start plus the signed total, reduced modulo one day; the result lies in [0, 1).
   */
  lemma {:induction false} RunIsModular(t: real, frames: seq<Frame>)
    requires 0.0 <= t < 1.0
    requires SmallSteps(frames)
    ensures Run(t, frames) == Frac(t + Total(frames))
    ensures 0.0 <= Run(t, frames) < 1.0
    decreases |frames|
  {
    if frames == [] {
      assert t.Floor == 0;
    } else {
      var f := frames[0];
      var u := Step(t, f.step, f.reversed);
      StepStaysInDay(t, f.step, f.reversed);
      assert SmallSteps(frames[1..]) by {
        forall i | 0 <= i < |frames[1..]| ensures -1.0 < frames[1..][i].step < 1.0 {
          assert frames[1..][i] == frames[i + 1];
        }
      }
      RunIsModular(u, frames[1..]);
      FracOfFracPlus(t + Signed(f.step, f.reversed), Total(frames[1..]));
    }
  }

  /** Two forward frames whose steps sum to less than a day equal one frame of the sum. */
  lemma SplitFrame(t: real, a: real, b: real)
    requires 0.0 <= t < 1.0
    requires 0.0 <= a && 0.0 <= b && a + b < 1.0
    ensures Step(Step(t, a, false), b, false) == Step(t, a + b, false)
  {
    StepStaysInDay(t, a, false);
    StepStaysInDay(Step(t, a, false), b, false);
    StepStaysInDay(t, a + b, false);
    FracOfFracPlus(t + a, b);
  }

  /** Without the bound, splitting a frame changes the result: the two steps wrap twice, the one step once. */
  lemma SplitFrameNeedsSmallTotal()
    ensures Step(Step(0.9, 0.6, false), 0.6, false) == 0.1
    ensures Step(0.9, 1.2, false) == 1.1
  {
  }
}
