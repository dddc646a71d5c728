/**
 * The movement arithmetic both players share (the two Player scripts and
 * their Walk, Jump and Fall states): horizontal acceleration with
 * friction, the speed caps applied before moving, and the fading jump
 * boost.
 */
module PlayerMotion {
  import opened Geometry

  /** MovementProperties, or the same fields on the older player. */
  datatype MovementProperties = MovementProperties(
    gravity: real,
    acceleration: real,
    friction: real,
    maxRunSpeed: real,
    jumpAcceleration: real,
    maxJumpTime: real,
    maxFallSpeed: real)

  /**
   * The frame's answers from the input manager: the horizontal axis and
   * the "Jump" (on press), "JumpPressed" (held) and "Fire" (held) buttons.
   */
  datatype PlayerInput = PlayerInput(horizontal: real, jump: bool, jumpHeld: bool, fire: bool)

  /**
   * The horizontal part every state computes: the velocity plus the input
   * times the acceleration; without input, friction pulls the speed toward
   * 0 and a step that would cross 0 stops at 0.
   */
  function Horizontal(vx: real, horizontal: real, acceleration: real, friction: real): (dx: real)
    ensures horizontal != 0.0 ==> dx == vx + horizontal * acceleration
    ensures horizontal == 0.0 && friction >= 0.0 ==>
      dx == (if Abs(vx) > friction then vx - friction * Sign(vx) else 0.0)
    ensures horizontal == 0.0 && friction >= 0.0 ==>
      Abs(dx) <= Abs(vx) && (dx == 0.0 || (dx > 0.0 <==> vx > 0.0))
  {
    var dx := vx + horizontal * acceleration;
    if horizontal == 0.0 && dx != 0.0 then
      var sign := Sign(vx);
      var slowed := dx - friction * sign;
      if sign != Sign(slowed) then 0.0 else slowed
    else dx
  }

  /**
   * UpdateMovement's speed limits: a horizontal step faster than the run
   * speed is replaced by the run speed in the direction of the PREVIOUS
   * velocity, and the fall is floored at the fall speed.
   */
  function CapDelta(delta: Vec2, previousVx: real, maxRunSpeed: real, maxFallSpeed: real): (r: Vec2)
    ensures Abs(delta.x) <= maxRunSpeed ==> r.x == delta.x
    ensures Abs(delta.x) > maxRunSpeed ==>
      Abs(r.x) == Abs(maxRunSpeed) && (maxRunSpeed != 0.0 ==> (r.x == maxRunSpeed <==> previousVx >= 0.0))
    ensures maxRunSpeed >= 0.0 ==> Abs(r.x) <= maxRunSpeed
    ensures r.y >= -maxFallSpeed && r.y >= delta.y
    ensures delta.y >= -maxFallSpeed ==> r.y == delta.y
  {
    var x := if Abs(delta.x) > maxRunSpeed then maxRunSpeed * Sign(previousVx) else delta.x;
    var y := if delta.y < -maxFallSpeed then -maxFallSpeed else delta.y;
    Vec2(x, y)
  }

  /**
   * A capped step keeps the direction of the step only when the previous
   * velocity pointed the same way: a hard reversal past the run speed
   * keeps moving the old way.
   */
  lemma CapFollowsPreviousDirection(delta: Vec2, previousVx: real, maxRunSpeed: real, maxFallSpeed: real)
    requires maxRunSpeed > 0.0 && Abs(delta.x) > maxRunSpeed
    ensures var r := CapDelta(delta, previousVx, maxRunSpeed, maxFallSpeed);
      (r.x > 0.0) == (previousVx >= 0.0) && r.x != 0.0
  {
  }

  /** The jump boost after `t` seconds of jumping: the full acceleration fading quadratically to 0 at the maximum time. */
  function JumpBoost(jumpAcceleration: real, t: real, maxJumpTime: real): (b: real)
    requires maxJumpTime != 0.0
    ensures t == 0.0 ==> b == jumpAcceleration
    ensures t == maxJumpTime ==> b == 0.0
    ensures jumpAcceleration >= 0.0 ==> b >= 0.0
  {
    var factor := 1.0 - t / maxJumpTime;
    SquareNonNegative(factor);
    MultiplyNonNegative(jumpAcceleration, factor * factor);
    jumpAcceleration * (factor * factor)
  }

  lemma SquareNonNegative(x: real)
    ensures x * x >= 0.0
  {
    if x < 0.0 {
      MultiplyNonNegative(-x, -x);
    } else {
      MultiplyNonNegative(x, x);
    }
  }

  lemma MultiplyNonNegative(a: real, b: real)
    ensures a >= 0.0 && b >= 0.0 ==> a * b >= 0.0
  {
  }

  lemma MultiplyMonotone(a: real, x: real, y: real)
    requires a >= 0.0 && x <= y
    ensures a * x <= a * y
  {
    MultiplyNonNegative(a, y - x);
    assert a * (y - x) == a * y - a * x;
  }

  lemma DivideMonotone(x: real, y: real, m: real)
    requires m > 0.0 && x <= y
    ensures x / m <= y / m
  {
    MultiplyMonotone(1.0 / m, x, y);
    assert x / m == (1.0 / m) * x && y / m == (1.0 / m) * y;
  }

  /** The boost factor 1 - t / M falls from 1 to 0 as t runs over [0, M]. */
  lemma FactorsOrdered(t1: real, t2: real, maxJumpTime: real)
    requires maxJumpTime > 0.0 && 0.0 <= t1 <= t2 <= maxJumpTime
    ensures 0.0 <= 1.0 - t2 / maxJumpTime <= 1.0 - t1 / maxJumpTime <= 1.0
  {
    DivideMonotone(t1, t2, maxJumpTime);
    DivideMonotone(t2, maxJumpTime, maxJumpTime);
    DivideMonotone(0.0, t1, maxJumpTime);
    assert maxJumpTime / maxJumpTime == 1.0;
  }

  lemma SquareMonotone(a: real, b: real)
    requires 0.0 <= a <= b
    ensures a * a <= b * b
  {
    MultiplyMonotone(a, a, b);
    MultiplyMonotone(b, a, b);
    assert a * b == b * a;
  }

  /** The longer the jump has lasted, the weaker the boost, down to 0 at the maximum time. */
  lemma BoostFades(jumpAcceleration: real, t1: real, t2: real, maxJumpTime: real)
    requires jumpAcceleration >= 0.0 && maxJumpTime > 0.0 && 0.0 <= t1 <= t2 <= maxJumpTime
    ensures 0.0 <= JumpBoost(jumpAcceleration, t2, maxJumpTime) <= JumpBoost(jumpAcceleration, t1, maxJumpTime)
    ensures JumpBoost(jumpAcceleration, t1, maxJumpTime) <= jumpAcceleration
  {
    var f1 := 1.0 - t1 / maxJumpTime;
    var f2 := 1.0 - t2 / maxJumpTime;
    FactorsOrdered(t1, t2, maxJumpTime);
    SquareMonotone(f2, f1);
    SquareMonotone(f1, 1.0);
    MultiplyMonotone(jumpAcceleration, f2 * f2, f1 * f1);
    MultiplyMonotone(jumpAcceleration, f1 * f1, 1.0);
  }
}
