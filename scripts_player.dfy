/**
 * The older player (Player under Assets/Scripts, with its own WalkState,
 * JumpState and FallState).
 *
 * The same frame structure as the platformer's player, with the movement
 * properties held on the player itself and two differences: walking off
 * the ground neither zeroes the vertical step nor switches to Fall, and
 * the player turns by flipping its x scale instead of rotating. The
 * controller's Move is the parameter `move` and `grounded` its IsGrounded
 * flag from the previous frame.
 */
module ScriptsPlayers {
  import opened Geometry
  import opened PlayerMotion

  datatype PlayerState = Walk | Jump | Fall

  /** The step the state's Update returns, before the caps. */
  function StateDelta(p: MovementProperties, s: PlayerState, v: Vec2, input: PlayerInput, grounded: bool, jumpTime: real): (d: Vec2)
    requires p.maxJumpTime != 0.0
    ensures d.x == Horizontal(v.x, input.horizontal, p.acceleration, p.friction)
    ensures s == Walk && grounded && !input.jump ==> d.y == v.y - 11.0 * p.gravity
    ensures s == Jump && input.jumpHeld ==> d.y == v.y - p.gravity + JumpBoost(p.jumpAcceleration, jumpTime, p.maxJumpTime)
    ensures (s == Walk && !(grounded && !input.jump)) || (s == Jump && !input.jumpHeld) || s == Fall ==> d.y == v.y - p.gravity
  {
    var dx := Horizontal(v.x, input.horizontal, p.acceleration, p.friction);
    var dy := v.y - p.gravity;
    match s
    case Walk => Vec2(dx, if grounded && !input.jump then dy - p.gravity * 10.0 else dy)
    case Jump => Vec2(dx, if input.jumpHeld then dy + JumpBoost(p.jumpAcceleration, jumpTime, p.maxJumpTime) else dy)
    case Fall => Vec2(dx, dy)
  }

  /** The state after a frame. */
  function NextState(s: PlayerState, input: PlayerInput, grounded: bool, jumpTime: real, deltaTime: real, maxJumpTime: real): (n: PlayerState)
    ensures n == Jump <==>
      (s == Walk && grounded && input.jump) || (s == Jump && input.jumpHeld && jumpTime + deltaTime <= maxJumpTime)
    ensures n == Walk <==> (s == Walk && !(grounded && input.jump)) || (s == Fall && grounded)
    ensures n == Fall <==> (s == Fall && !grounded) || (s == Jump && !(input.jumpHeld && jumpTime + deltaTime <= maxJumpTime))
  {
    match s
    case Walk => if grounded && input.jump then Jump else Walk
    case Jump => if input.jumpHeld && jumpTime + deltaTime <= maxJumpTime then Jump else Fall
    case Fall => if grounded then Walk else Fall
  }

  /** The jump timer after a frame: reset on entering Jump, advanced while the button is held. */
  function NextJumpTime(s: PlayerState, input: PlayerInput, grounded: bool, jumpTime: real, deltaTime: real): (t: real)
    ensures s == Walk && grounded && input.jump ==> t == 0.0
    ensures t != jumpTime ==> (s == Walk && grounded && input.jump) || (s == Jump && input.jumpHeld)
    ensures s == Jump && deltaTime >= 0.0 ==> jumpTime <= t <= jumpTime + deltaTime
  {
    match s
    case Walk => if grounded && input.jump then 0.0 else jumpTime
    case Jump => if input.jumpHeld then jumpTime + deltaTime else jumpTime
    case Fall => jumpTime
  }

  /**
   * The only way into Jump is a press of the jump button while walking on
   * the ground, and it starts the timer at 0; in particular a falling
   * player cannot jump.
   */
  lemma JumpOnlyFromGround(s: PlayerState, input: PlayerInput, grounded: bool, jumpTime: real, deltaTime: real, maxJumpTime: real)
    requires s != Jump && NextState(s, input, grounded, jumpTime, deltaTime, maxJumpTime) == Jump
    ensures s == Walk && grounded && input.jump
    ensures NextJumpTime(s, input, grounded, jumpTime, deltaTime) == 0.0
  {
  }

  /** A jump never outlasts the maximum jump time: the timer stays within [0, MaxJumpTime] while jumping. */
  lemma JumpTimeBounded(s: PlayerState, input: PlayerInput, grounded: bool, jumpTime: real, deltaTime: real, maxJumpTime: real)
    requires maxJumpTime > 0.0 && deltaTime >= 0.0
    requires s == Jump ==> 0.0 <= jumpTime <= maxJumpTime
    ensures NextState(s, input, grounded, jumpTime, deltaTime, maxJumpTime) == Jump ==>
      0.0 <= NextJumpTime(s, input, grounded, jumpTime, deltaTime) <= maxJumpTime
  {
  }

  /**
   * Unlike the platformer's player, this one never falls from Walk: Fall
   * is only entered from Jump, so walking off a ledge stays in Walk.
   */
  lemma FallOnlyFromJump(s: PlayerState, input: PlayerInput, grounded: bool, jumpTime: real, deltaTime: real, maxJumpTime: real)
    requires s != Fall && NextState(s, input, grounded, jumpTime, deltaTime, maxJumpTime) == Fall
    ensures s == Jump && (!input.jumpHeld || jumpTime + deltaTime > maxJumpTime)
  {
  }

  class Player {
    const props: MovementProperties
    var state: PlayerState
    /** JumpState.m_CurrentJumpTime */
    var jumpTime: real
    var velocity: Vec2
    var isFiring: bool
    /** The x component of transform.localScale. */
    var scaleX: real

    ghost predicate Valid()
      reads this
    {
      props.maxJumpTime > 0.0 && (state == Jump ==> 0.0 <= jumpTime <= props.maxJumpTime)
    }

    /** Start: the states are created and the player starts falling. */
    constructor (props: MovementProperties)
      requires props.maxJumpTime > 0.0
      ensures this.props == props && state == Fall && velocity == Zero2 && !isFiring
      ensures Valid()
    {
      this.props := props;
      jumpTime := 0.0;
      velocity := Zero2;
      isFiring := false;
      scaleX := 1.0;
      state := Fall;
    }

    /** SetState: the old state's OnExit (empty for all three), then the new one's OnEnter, which resets the timer for Jump. */
    method SetState(newState: PlayerState)
      modifies this`state, this`jumpTime
      ensures state == newState
      ensures jumpTime == if newState == Jump then 0.0 else old(jumpTime)
    {
      state := newState;
      if newState == Jump {
        jumpTime := 0.0;
      }
    }

    method WalkUpdate(input: PlayerInput, grounded: bool) returns (delta: Vec2)
      requires props.maxJumpTime != 0.0 && state == Walk
      modifies this`state, this`jumpTime, this`isFiring
      ensures delta == StateDelta(props, Walk, velocity, input, grounded, old(jumpTime))
      ensures state == NextState(Walk, input, grounded, old(jumpTime), 0.0, props.maxJumpTime)
      ensures jumpTime == NextJumpTime(Walk, input, grounded, old(jumpTime), 0.0)
      ensures isFiring == input.fire
    {
      var deltaX := Horizontal(velocity.x, input.horizontal, props.acceleration, props.friction);
      var deltaY := velocity.y - props.gravity;
      if grounded {
        if input.jump {
          SetState(Jump);
        } else {
          deltaY := deltaY - props.gravity * 10.0;
        }
      }
      isFiring := input.fire;
      delta := Vec2(deltaX, deltaY);
    }

    method JumpUpdate(input: PlayerInput, deltaTime: real) returns (delta: Vec2)
      requires props.maxJumpTime != 0.0 && state == Jump
      modifies this`state, this`jumpTime, this`isFiring
      ensures delta == StateDelta(props, Jump, velocity, input, false, old(jumpTime))
      ensures state == NextState(Jump, input, false, old(jumpTime), deltaTime, props.maxJumpTime)
      ensures jumpTime == NextJumpTime(Jump, input, false, old(jumpTime), deltaTime)
      ensures isFiring == input.fire
    {
      var deltaX := Horizontal(velocity.x, input.horizontal, props.acceleration, props.friction);
      var deltaY := velocity.y - props.gravity;
      if input.jumpHeld {
        deltaY := deltaY + JumpBoost(props.jumpAcceleration, jumpTime, props.maxJumpTime);
        jumpTime := jumpTime + deltaTime;
        if jumpTime > props.maxJumpTime {
          SetState(Fall);
        }
      } else {
        SetState(Fall);
      }
      isFiring := input.fire;
      delta := Vec2(deltaX, deltaY);
    }

    method FallUpdate(input: PlayerInput, grounded: bool) returns (delta: Vec2)
      requires props.maxJumpTime != 0.0 && state == Fall
      modifies this`state, this`jumpTime, this`isFiring
      ensures delta == StateDelta(props, Fall, velocity, input, grounded, old(jumpTime))
      ensures state == NextState(Fall, input, grounded, old(jumpTime), 0.0, props.maxJumpTime)
      ensures jumpTime == old(jumpTime) && isFiring == input.fire
    {
      var deltaX := Horizontal(velocity.x, input.horizontal, props.acceleration, props.friction);
      var deltaY := velocity.y - props.gravity;
      if grounded {
        SetState(Walk);
      }
      isFiring := input.fire;
      delta := Vec2(deltaX, deltaY);
    }

    /** UpdateMovement: the current state's step, capped, moved through the controller. */
    method UpdateMovement(input: PlayerInput, grounded: bool, deltaTime: real, move: Vec2 -> Vec2) returns (applied: Vec2)
      requires Valid() && deltaTime >= 0.0
      modifies this`state, this`jumpTime, this`isFiring, this`velocity
      ensures Valid()
      ensures applied == CapDelta(StateDelta(props, old(state), old(velocity), input, grounded, old(jumpTime)),
                                  old(velocity).x, props.maxRunSpeed, props.maxFallSpeed)
      ensures velocity == move(applied)
      ensures state == NextState(old(state), input, grounded, old(jumpTime), deltaTime, props.maxJumpTime)
      ensures jumpTime == NextJumpTime(old(state), input, grounded, old(jumpTime), deltaTime)
      ensures isFiring == input.fire
    {
      var newDelta;
      match state {
        case Walk => newDelta := WalkUpdate(input, grounded);
        case Jump => newDelta := JumpUpdate(input, deltaTime);
        case Fall => newDelta := FallUpdate(input, grounded);
      }
      if Abs(newDelta.x) > props.maxRunSpeed {
        newDelta := newDelta.(x := props.maxRunSpeed * Sign(velocity.x));
      }
      if newDelta.y < -props.maxFallSpeed {
        newDelta := newDelta.(y := -props.maxFallSpeed);
      }
      applied := newDelta;
      velocity := move(applied);
    }

    /** UpdateScale: the x scale becomes the direction of motion, and stays when the player is still. */
    method UpdateScale()
      modifies this`scaleX
      ensures velocity.x == 0.0 ==> scaleX == old(scaleX)
      ensures velocity.x < 0.0 ==> scaleX == -1.0
      ensures velocity.x > 0.0 ==> scaleX == 1.0
    {
      if Abs(velocity.x) > 0.0 {
        scaleX := Sign(velocity.x);
      }
    }

    /** Update without its animation part. */
    method Update(input: PlayerInput, grounded: bool, deltaTime: real, move: Vec2 -> Vec2)
      requires Valid() && deltaTime >= 0.0
      modifies this`state, this`jumpTime, this`isFiring, this`velocity, this`scaleX
      ensures Valid()
      ensures state == NextState(old(state), input, grounded, old(jumpTime), deltaTime, props.maxJumpTime)
      ensures velocity == move(CapDelta(StateDelta(props, old(state), old(velocity), input, grounded, old(jumpTime)),
                                        old(velocity).x, props.maxRunSpeed, props.maxFallSpeed))
      ensures jumpTime == NextJumpTime(old(state), input, grounded, old(jumpTime), deltaTime)
      ensures isFiring == input.fire
      ensures velocity.x == 0.0 ==> scaleX == old(scaleX)
      ensures velocity.x < 0.0 ==> scaleX == -1.0
      ensures velocity.x > 0.0 ==> scaleX == 1.0
    {
      var applied := UpdateMovement(input, grounded, deltaTime, move);
      UpdateScale();
    }
  }
}
