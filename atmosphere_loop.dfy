/**
 * Frame timing of the atmospheric scattering demo's main loop
 * (src/apps/atmosphere/main.cpp): a 20-slot window of recent frame durations
 * with a running sum, and a fixed-timestep physics accumulator.
 *
 * Durations are reals: the running sum equals the window's sum and the
 * accumulator's bookkeeping is exact only in that abstraction of `double`.
 */
module AtmosphereLoop {

  import opened Wrappers

  /** Number of frames averaged for the displayed frame time. */
  const FrameCount: nat := 20

  /** Physics timestep, 1/120 s. */
  const Dt: real := 1.0 / 120.0

  /** Longest frame duration fed to the physics, in seconds. */
  const MaxFrameTime: real := 0.2

  /** The accumulator stops once less than a fifth of a timestep remains. */
  const Slack: real := 0.2 * Dt

  function Sum(s: seq<real>): real
  {
    if s == [] then 0.0 else Sum(s[..|s| - 1]) + s[|s| - 1]
  }

  /** Overwriting one slot changes the sum by the difference of the old and new values. */
  lemma {:induction false} SumUpdate(s: seq<real>, i: nat, v: real)
    requires i < |s|
    ensures Sum(s[i := v]) == Sum(s) - s[i] + v
  {
    var n := |s| - 1;
    if i == n {
      assert s[i := v][..n] == s[..n];
    } else {
      assert s[i := v][..n] == s[..n][i := v];
      SumUpdate(s[..n], i, v);
    }
  }

  /** The window of recent frame durations (the `timings` vector and its cursor). */
  class TimingWindow {
    const timings: array<real>
    var current: nat
    var smoothed: real

    ghost predicate Valid()
      reads this, timings
    {
      && timings.Length == FrameCount
      && current < FrameCount
      && smoothed == Sum(timings[..])
    }

    constructor ()
      ensures Valid() && fresh(timings)
      ensures timings[..] == seq(FrameCount, _ => 0.0)
      ensures current == 0 && smoothed == 0.0
    {
      timings := new real[FrameCount](_ => 0.0);
      current := 0;
      smoothed := 0.0;
      new;
      ZeroSum(timings[..]);
    }

    /**
     * Stores one frame duration (converted to milliseconds) at the cursor, keeps the
     * running sum equal to the window's sum, and advances the cursor modulo 20.
     * Returns the smoothed frame time, the mean of the window.
     */
    method Record(frameTime: real) returns (average: real)
      requires Valid()
      modifies this, timings
      ensures Valid()
      ensures timings[..] == old(timings[..])[old(current) := 1000.0 * frameTime]
      ensures current == (old(current) + 1) % FrameCount
      ensures average == Sum(timings[..]) / FrameCount as real
    {
      ghost var before := timings[..];
      smoothed := smoothed - timings[current];
      timings[current] := 1000.0 * frameTime;
      smoothed := smoothed + timings[current];
      SumUpdate(before, current, 1000.0 * frameTime);
      assert timings[..] == before[current := 1000.0 * frameTime];
      current := (current + 1) % FrameCount;
      average := smoothed / FrameCount as real;
    }
  }

  lemma {:induction false} ZeroSum(s: seq<real>)
    requires forall i :: 0 <= i < |s| ==> s[i] == 0.0
    ensures Sum(s) == 0.0
  {
    if s != [] {
      ZeroSum(s[..|s| - 1]);
    }
  }

  /**
   * The physics part of one frame: the frame time is clamped to 0.2 s and added to
   * the remaining time, which is then consumed in steps of min(remaining, dt) while
   * more than 0.2*dt remains. `steps` lists the durations passed to camera.physics.
   */
  method Consume(fullTime: real, remainingTime: real, frameTime: real)
    returns (full: real, remaining: real, steps: seq<real>)
    ensures remaining <= Slack
    ensures 0.0 <= remainingTime + Clamp(frameTime) ==> 0.0 <= remaining
    ensures full + remaining == fullTime + remainingTime + Clamp(frameTime)
    ensures full == fullTime + Sum(steps)
    ensures forall k :: 0 <= k < |steps| ==> Slack < steps[k] <= Dt
    ensures forall k :: 0 <= k < |steps| - 1 ==> steps[k] == Dt
    ensures |steps| > 0 && steps[|steps| - 1] < Dt ==> remaining == 0.0
  {
    var ft := frameTime;
    if ft > MaxFrameTime {
      ft := MaxFrameTime;
    }
    full, remaining, steps := fullTime, remainingTime + ft, [];
    while remaining > Slack
      invariant full + remaining == fullTime + remainingTime + ft
      invariant 0.0 <= remainingTime + ft ==> 0.0 <= remaining
      invariant full == fullTime + Sum(steps)
      invariant forall k :: 0 <= k < |steps| ==> Slack < steps[k] <= Dt
      invariant forall k :: 0 <= k < |steps| - 1 ==> steps[k] == Dt
      invariant |steps| > 0 && steps[|steps| - 1] < Dt ==> remaining == 0.0
      decreases (remaining * 600.0).Floor
    {
      var deltaTime := if remaining < Dt then remaining else Dt;
      full := full + deltaTime;
      remaining := remaining - deltaTime;
      assert (steps + [deltaTime])[..|steps|] == steps;
      steps := steps + [deltaTime];
    }
  }

  /** The clamp applied to a frame duration before it is accumulated. */
  function Clamp(frameTime: real): (r: real)
    ensures r <= MaxFrameTime
    ensures r == frameTime || r == MaxFrameTime
    ensures frameTime <= MaxFrameTime ==> r == frameTime
  {
    if frameTime > MaxFrameTime then MaxFrameTime else frameTime
  }

  datatype Extent = Extent(width: int, height: int)

  /** Everything one frame of the loop reports outward. */
  datatype FrameReport = FrameReport(average: real, steps: seq<real>, resizeTo: Option<Extent>)

  /** The main loop's timing state: the timer, the simulated time and the accumulator. */
  class FrameClock {
    var timer: real
    var fullTime: real
    var remainingTime: real
    const window: TimingWindow

    ghost predicate Valid()
      reads this, window, window.timings
    {
      window.Valid() && 0.0 <= remainingTime <= Slack
    }

    /** The loop's set-up: `timer` reads the clock, both accumulators start at zero. */
    constructor (now: real)
      ensures Valid() && fresh(window) && fresh(window.timings)
      ensures timer == now && fullTime == 0.0 && remainingTime == 0.0
      ensures window.current == 0 && window.smoothed == 0.0
    {
      timer := now;
      fullTime := 0.0;
      remainingTime := 0.0;
      window := new TimingWindow();
    }

    /**
     * One iteration of the display loop, as far as timing goes: the frame time is the
     * clock reading minus the previous one, it is recorded in the window, clamped and
     * consumed by fixed physics steps, and the framebuffer is resized only when the
     * input manager reported a resize this frame.
     */
    method Frame(now: real, resized: bool, screenSize: Extent) returns (report: FrameReport)
      requires Valid()
      requires timer <= now  // glfwGetTime is monotonic
      modifies this, window, window.timings
      ensures Valid()
      ensures timer == now
      ensures window.timings[..] == old(window.timings[..])[old(window.current) := 1000.0 * (now - old(timer))]
      ensures window.current == (old(window.current) + 1) % FrameCount
      ensures fullTime + remainingTime == old(fullTime + remainingTime) + Clamp(now - old(timer))
      ensures fullTime == old(fullTime) + Sum(report.steps)
      ensures report.average == Sum(window.timings[..]) / FrameCount as real
      ensures forall k :: 0 <= k < |report.steps| ==> Slack < report.steps[k] <= Dt
      ensures forall k :: 0 <= k < |report.steps| - 1 ==> report.steps[k] == Dt
      ensures report.resizeTo == if resized then Some(screenSize) else None
    {
      var frameTime := now - timer;
      timer := now;
      var average := window.Record(frameTime);
      var full, remaining, steps := Consume(fullTime, remainingTime, frameTime);
      fullTime, remainingTime := full, remaining;
      report := FrameReport(average, steps, if resized then Some(screenSize) else None);
    }
  }
}
