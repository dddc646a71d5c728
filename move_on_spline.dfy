/**
 * An object walking along a spline (MoveOnSpline).
 *
 * Progress runs over [0, 1] in `duration` seconds, the spline's total
 * length divided by the speed. At the end of a looping spline it restarts
 * at 0; otherwise it either turns around (back-and-forth) or stops at 1.
 * The spline is seen through its loop flag, its total length and its
 * point function; the frame time is a parameter.
 */
module SplineWalking {
  import opened Geometry

  /** Progress and direction of travel. */
  datatype Walk = Walk(progress: real, direction: int)

  /** The progress and direction update of Move. */
  function Step(w: Walk, deltaTime: real, duration: real, splineLoops: bool, backAndForth: bool): (r: Walk)
    requires duration != 0.0
    ensures var p := w.progress + (deltaTime / duration) * (w.direction as real);
      && (p > 1.0 && splineLoops ==> r.progress == 0.0)
      && (p > 1.0 && !splineLoops && !backAndForth ==> r.progress == 1.0)
      && (p <= 1.0 || (!splineLoops && backAndForth) ==> r.progress == p)
      && (backAndForth && (p < 0.0 || (p > 1.0 && !splineLoops)) ==> r.direction == -w.direction)
      && (!backAndForth || (0.0 <= p <= 1.0) || (p > 1.0 && splineLoops) ==> r.direction == w.direction)
  {
    var p := w.progress + (deltaTime / duration) * (w.direction as real);
    var d := if p < 0.0 && backAndForth then -w.direction else w.direction;
    if p > 1.0 then
      if splineLoops then Walk(0.0, d)
      else if backAndForth then Walk(p, -d)
      else Walk(1.0, d)
    else Walk(p, d)
  }

  /** The direction only ever flips sign, so it stays 1 or -1. */
  lemma StepKeepsDirectionUnit(w: Walk, deltaTime: real, duration: real, splineLoops: bool, backAndForth: bool)
    requires duration != 0.0 && (w.direction == 1 || w.direction == -1)
    ensures var r := Step(w, deltaTime, duration, splineLoops, backAndForth); r.direction == 1 || r.direction == -1
  {
  }

  /** A run of frames with the given frame times. */
  function Run(w: Walk, deltaTimes: seq<real>, duration: real, splineLoops: bool, backAndForth: bool): Walk
    requires duration != 0.0
    decreases |deltaTimes|
  {
    if deltaTimes == [] then w
    else Run(Step(w, deltaTimes[0], duration, splineLoops, backAndForth), deltaTimes[1..], duration, splineLoops, backAndForth)
  }

  /**
   * Without back-and-forth, a walker starting forward inside [0, 1] stays
   * forward and inside [0, 1] for any run of non-negative frame times.
   */
  lemma {:induction false} ForwardWalkStaysOnSpline(w: Walk, deltaTimes: seq<real>, duration: real, splineLoops: bool)
    requires duration > 0.0 && w.direction == 1 && 0.0 <= w.progress <= 1.0
    requires forall i :: 0 <= i < |deltaTimes| ==> deltaTimes[i] >= 0.0
    ensures var r := Run(w, deltaTimes, duration, splineLoops, false);
      r.direction == 1 && 0.0 <= r.progress <= 1.0
    decreases |deltaTimes|
  {
    if deltaTimes != [] {
      var w1 := Step(w, deltaTimes[0], duration, splineLoops, false);
      assert deltaTimes[0] / duration >= 0.0;
      ForwardWalkStaysOnSpline(w1, deltaTimes[1..], duration, splineLoops);
    }
  }

  /** Without back-and-forth and loop, progress never decreases over a frame with non-negative time. */
  lemma ForwardStepNeverGoesBack(w: Walk, deltaTime: real, duration: real)
    requires duration > 0.0 && w.direction == 1 && 0.0 <= w.progress <= 1.0 && deltaTime >= 0.0
    ensures Step(w, deltaTime, duration, false, false).progress >= w.progress
  {
    assert deltaTime / duration >= 0.0;
  }

  /** On a looping spline progress falls back only through the reset to 0 at the end. */
  lemma LoopResetIsTheOnlyWayBack(w: Walk, deltaTime: real, duration: real)
    requires duration > 0.0 && w.direction == 1 && deltaTime >= 0.0
    ensures var r := Step(w, deltaTime, duration, true, false); r.progress >= w.progress || r.progress == 0.0
  {
    assert deltaTime / duration >= 0.0;
  }

  class MoveOnSpline {
    const useBackAndForth: bool
    var speed: real
    var duration: real
    var progress: real
    var direction: int
    /** The transform position, set from the spline every Move. */
    var position: Vec3

    function State(): Walk
      reads this
    {
      Walk(progress, direction)
    }

    ghost predicate Valid()
      reads this
    {
      direction == 1 || direction == -1
    }

    /** Field initialisers and Start: forward, at the start, with the duration computed. */
    constructor (speed: real, useBackAndForth: bool, totalLength: real)
      requires speed != 0.0
      ensures this.speed == speed && this.useBackAndForth == useBackAndForth
      ensures progress == 0.0 && direction == 1 && duration * speed == totalLength
      ensures Valid()
    {
      this.speed := speed;
      this.useBackAndForth := useBackAndForth;
      progress := 0.0;
      direction := 1;
      position := Zero3;
      duration := (1.0 / speed) * totalLength;
    }

    method Move(deltaTime: real, splineLoops: bool, splinePoint: real -> Vec3)
      requires Valid() && duration != 0.0
      modifies this`progress, this`direction, this`position
      ensures Valid()
      ensures State() == Step(old(State()), deltaTime, duration, splineLoops, useBackAndForth)
      ensures position == splinePoint(progress)
    {
      var step := (deltaTime / duration) * (direction as real);
      progress := progress + step;
      if progress < 0.0 {
        if useBackAndForth {
          direction := -direction;
        }
      }
      if progress > 1.0 {
        if splineLoops {
          progress := 0.0;
        } else if useBackAndForth {
          direction := -direction;
        } else {
          progress := 1.0;
        }
      }
      position := splinePoint(progress);
    }

    method CalculateDuration(totalLength: real)
      requires speed != 0.0
      modifies this`duration
      ensures duration * speed == totalLength
    {
      duration := (1.0 / speed) * totalLength;
    }

    /** The Speed setter stores the speed and recomputes the duration. */
    method SetSpeed(value: real, totalLength: real)
      requires value != 0.0
      modifies this`speed, this`duration
      ensures speed == value && duration * value == totalLength
    {
      speed := value;
      CalculateDuration(totalLength);
    }

    /** OnGameReset: back to the start, keeping the direction. */
    method OnGameReset()
      modifies this`progress
      ensures progress == 0.0 && direction == old(direction)
    {
      progress := 0.0;
    }
  }
}
