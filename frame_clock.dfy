/**
 * The fixed-cadence rule of the game loop. On every animation frame the loop
 * compares the frame's timestamp with its own clock `lastTime`; a tick fires
 * when more than one interval has elapsed, and the clock then advances by
 * exactly one interval (never to the frame's timestamp).
 */
module FrameClock {

  /** The tick interval, in milliseconds. */
  const TickInterval: int := 250

  /** What one frame does: whether a tick fired, and the clock afterwards. */
  datatype Frame = Frame(fired: bool, lastTime: int)

  /** What a run of frames does: how many ticks fired, and the final clock. */
  datatype Frames = Frames(ticks: nat, lastTime: int)

  /** One frame with timestamp `timeStamp` against the clock `lastTime`. */
  function FrameStep(lastTime: int, timeStamp: int): (r: Frame)
    ensures r.fired ==> r.lastTime == lastTime + TickInterval && r.lastTime < timeStamp
    ensures !r.fired ==> r.lastTime == lastTime && timeStamp <= lastTime + TickInterval
  {
    var elapsed := timeStamp - lastTime;
    if elapsed > TickInterval then Frame(true, lastTime + TickInterval)
    else Frame(false, lastTime)
  }

  /** The frames with the given timestamps, delivered in order, from clock `lastTime`. */
  function RunFrames(lastTime: int, timeStamps: seq<int>): (r: Frames)
    ensures r.ticks <= |timeStamps|
  {
    if timeStamps == [] then Frames(0, lastTime)
    else
      var before := RunFrames(lastTime, timeStamps[..|timeStamps| - 1]);
      var step := FrameStep(before.lastTime, timeStamps[|timeStamps| - 1]);
      Frames(before.ticks + (if step.fired then 1 else 0), step.lastTime)
  }

  /** The clock only ever moves in whole intervals, one per tick that fired. */
  lemma {:induction false} ClockCountsTicks(lastTime: int, timeStamps: seq<int>)
    ensures RunFrames(lastTime, timeStamps).lastTime
         == lastTime + TickInterval * RunFrames(lastTime, timeStamps).ticks
    decreases |timeStamps|
  {
    if timeStamps != [] {
      ClockCountsTicks(lastTime, timeStamps[..|timeStamps| - 1]);
    }
  }

  /**
   * Once a tick has fired, the clock stays strictly behind the latest frame:
   * if no frame is later than `bound`, neither is the clock.
   */
  lemma {:induction false} ClockStaysBehind(lastTime: int, timeStamps: seq<int>, bound: int)
    requires forall i :: 0 <= i < |timeStamps| ==> timeStamps[i] <= bound
    ensures RunFrames(lastTime, timeStamps).ticks > 0 ==> RunFrames(lastTime, timeStamps).lastTime < bound
    decreases |timeStamps|
  {
    if timeStamps != [] {
      ClockStaysBehind(lastTime, timeStamps[..|timeStamps| - 1], bound);
    }
  }

  /**
   * The tick rate is capped: frames no later than `bound` fire at most one tick
   * for every full interval between the starting clock and `bound`.
   */
  lemma TickRateCapped(lastTime: int, timeStamps: seq<int>, bound: int)
    requires forall i :: 0 <= i < |timeStamps| ==> timeStamps[i] <= bound
    ensures TickInterval * RunFrames(lastTime, timeStamps).ticks
         <= if bound > lastTime then bound - lastTime else 0
  {
    ClockCountsTicks(lastTime, timeStamps);
    ClockStaysBehind(lastTime, timeStamps, bound);
  }

  /**
   * A clock that lags behind catches up one tick per frame: while every frame
   * finds more than an interval elapsed, every frame fires.
   */
  lemma {:induction false} CatchUpOneTickPerFrame(lastTime: int, timeStamps: seq<int>)
    requires forall i :: 0 <= i < |timeStamps| ==> timeStamps[i] - (lastTime + TickInterval * i) > TickInterval
    ensures RunFrames(lastTime, timeStamps).ticks == |timeStamps|
    decreases |timeStamps|
  {
    if timeStamps != [] {
      var n := |timeStamps| - 1;
      CatchUpOneTickPerFrame(lastTime, timeStamps[..n]);
      ClockCountsTicks(lastTime, timeStamps[..n]);
    }
  }

  /** A frame that finds no more than one interval elapsed fires nothing. */
  lemma {:induction false} EarlyFramesNeverFire(lastTime: int, timeStamps: seq<int>)
    requires forall i :: 0 <= i < |timeStamps| ==> timeStamps[i] <= lastTime + TickInterval
    ensures RunFrames(lastTime, timeStamps) == Frames(0, lastTime)
    decreases |timeStamps|
  {
    if timeStamps != [] {
      EarlyFramesNeverFire(lastTime, timeStamps[..|timeStamps| - 1]);
    }
  }
}
