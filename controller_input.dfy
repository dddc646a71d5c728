/**
 * Xbox controller input (ControllerInput, XboxController).
 *
 * Each controller keeps the pad state of this frame and of the previous
 * one; a button goes "down" on the frame it becomes pressed and "up" on the
 * frame it is released. A rumble timer counts the vibration down.
 *
 * XInput is outside the model: polling a pad is the parameter `poll`
 * (player index to pad state), Time.deltaTime is `deltaTime`, and the
 * motor speeds last sent to a pad are recorded in the fields `leftMotor`
 * and `rightMotor`. A C# exception (a null controller, an index outside
 * the array) is a `None` result or a `false` success flag.
 */
module ControllerInputs {
  import opened Wrappers

  datatype AxisCode = NoAxis | LeftStickX | LeftStickY | RightStickX | RightStickY | LeftTrigger | RightTrigger

  datatype ButtonCode = NoButton | A | B | X | Y | LeftShoulder | RightShoulder | LeftStick | RightStick
                      | Start | Back | Guide | Up | Down | Left | Right

  /** What XInput reports for one pad: connection, the pressed buttons and the six analogue values. */
  datatype GamePadState = GamePadState(isConnected: bool, pressed: set<ButtonCode>,
                                       leftStickX: real, leftStickY: real,
                                       rightStickX: real, rightStickY: real,
                                       leftTrigger: real, rightTrigger: real)

  /** XboxController.GetButton on a given pad state: `NoButton` is never pressed. */
  function ButtonHeld(s: GamePadState, code: ButtonCode): (held: bool)
    ensures code == NoButton ==> !held
    ensures held ==> code in s.pressed
  {
    code != NoButton && code in s.pressed
  }

  /** XboxController.GetButtonDown: pressed this frame and not the frame before. */
  function ButtonDown(current: GamePadState, previous: GamePadState, code: ButtonCode): (down: bool)
    ensures down <==> ButtonHeld(current, code) && !ButtonHeld(previous, code)
  {
    code != NoButton && code in current.pressed && code !in previous.pressed
  }

  /** XboxController.GetButtonUp: released this frame; never on the same frame as a press. */
  function ButtonUp(current: GamePadState, previous: GamePadState, code: ButtonCode): (up: bool)
    ensures up <==> !ButtonHeld(current, code) && ButtonHeld(previous, code)
    ensures up ==> !ButtonDown(current, previous, code)
  {
    code != NoButton && code !in current.pressed && code in previous.pressed
  }

  /** XboxController.GetAxis: `NoAxis` reads 0. */
  function AxisValue(s: GamePadState, code: AxisCode): (v: real)
    ensures code == NoAxis ==> v == 0.0
    ensures code == LeftTrigger ==> v == s.leftTrigger
    ensures code == RightTrigger ==> v == s.rightTrigger
  {
    match code
    case NoAxis => 0.0
    case LeftStickX => s.leftStickX
    case LeftStickY => s.leftStickY
    case RightStickX => s.rightStickX
    case RightStickY => s.rightStickY
    case LeftTrigger => s.leftTrigger
    case RightTrigger => s.rightTrigger
  }

  function Bit(b: bool): int
  {
    if b then 1 else 0
  }

  /** The number of frames in 1..n of a poll history on which `code` went down. */
  function Downs(states: seq<GamePadState>, code: ButtonCode, n: nat): nat
    requires n < |states|
  {
    if n == 0 then 0 else Downs(states, code, n - 1) + Bit(ButtonDown(states[n], states[n - 1], code))
  }

  /** The number of frames in 1..n of a poll history on which `code` went up. */
  function Ups(states: seq<GamePadState>, code: ButtonCode, n: nat): nat
    requires n < |states|
  {
    if n == 0 then 0 else Ups(states, code, n - 1) + Bit(ButtonUp(states[n], states[n - 1], code))
  }

  /**
   * Presses and releases alternate: over any poll history, the presses seen
   * minus the releases seen is exactly the change in the held state, so the
   * two counts never differ by more than one.
   */
  lemma {:induction false} EdgesBalance(states: seq<GamePadState>, code: ButtonCode, n: nat)
    requires n < |states|
    ensures Downs(states, code, n) - Ups(states, code, n) == Bit(ButtonHeld(states[n], code)) - Bit(ButtonHeld(states[0], code))
    ensures -1 <= Downs(states, code, n) - Ups(states, code, n) <= 1
  {
    if n > 0 {
      EdgesBalance(states, code, n - 1);
    }
  }

  /** The rumble timer and the motor speeds last sent to the pad. */
  datatype Rumble = Rumble(timeLeft: real, left: real, right: real)

  const Stopped := Rumble(0.0, 0.0, 0.0)

  /** The motors only run while the timer does, and the timer is never negative. */
  predicate Quiet(r: Rumble)
  {
    r.timeLeft >= 0.0 && (r.timeLeft > 0.0 || (r.left == 0.0 && r.right == 0.0))
  }

  /** XboxController.SetVibration: a non-positive time is ignored; otherwise the motors start and the timer is set. */
  function Vibrate(r: Rumble, left: real, right: real, time: real): (r': Rumble)
    ensures time <= 0.0 ==> r' == r
    ensures time > 0.0 ==> r'.timeLeft == time && r'.left == left && r'.right == right
    ensures Quiet(r) ==> Quiet(r')
  {
    if time <= 0.0 then r else Rumble(time, left, right)
  }

  /**
   * XboxController.UpdateRumble as written: the timer counts down and is
   * clamped to 0, and the stop request passes time 0, which Vibrate
   * rejects. The motors therefore never change here.
   */
  function RumbleTickAsWritten(r: Rumble, deltaTime: real): (r': Rumble)
    ensures r.timeLeft >= 0.0 ==> r'.timeLeft >= 0.0
    ensures r'.left == r.left && r'.right == r.right
  {
    var t := if r.timeLeft > 0.0 then r.timeLeft - deltaTime else r.timeLeft;
    if t < 0.0 then Vibrate(Rumble(0.0, r.left, r.right), 0.0, 0.0, 0.0)
    else Rumble(t, r.left, r.right)
  }

  /**
   * UpdateRumble as intended: the timer counts down and the motors are
   * stopped once it runs out. Whatever the state before, it is quiet after.
   */
  function RumbleTick(r: Rumble, deltaTime: real): (r': Rumble)
    ensures Quiet(r')
    ensures r.timeLeft > deltaTime && r.timeLeft > 0.0 ==> r' == Rumble(r.timeLeft - deltaTime, r.left, r.right)
    ensures r.timeLeft <= deltaTime || r.timeLeft <= 0.0 ==> r' == Stopped
  {
    var t := if r.timeLeft > 0.0 then r.timeLeft - deltaTime else r.timeLeft;
    if t <= 0.0 then Stopped else Rumble(t, r.left, r.right)
  }

  /** The counterexample: a half-second rumble followed by a one-second frame keeps both motors running. */
  lemma RumbleAsWrittenNeverStops()
    ensures var r1 := Vibrate(Stopped, 1.0, 1.0, 0.5);
      && RumbleTickAsWritten(r1, 1.0) == Rumble(0.0, 1.0, 1.0)
      && !Quiet(RumbleTickAsWritten(r1, 1.0))
      && RumbleTickAsWritten(Rumble(0.0, 1.0, 1.0), 1.0) == Rumble(0.0, 1.0, 1.0)
      && RumbleTick(r1, 1.0) == Stopped
  {
  }

  function RunTicks(r: Rumble, deltaTimes: seq<real>): Rumble
    decreases |deltaTimes|
  {
    if deltaTimes == [] then r else RunTicks(RumbleTick(r, deltaTimes[0]), deltaTimes[1..])
  }

  function Total(deltaTimes: seq<real>): real
    decreases |deltaTimes|
  {
    if deltaTimes == [] then 0.0 else deltaTimes[0] + Total(deltaTimes[1..])
  }

  lemma {:induction false} StoppedStaysStopped(deltaTimes: seq<real>)
    ensures RunTicks(Stopped, deltaTimes) == Stopped
    decreases |deltaTimes|
  {
    if deltaTimes != [] {
      StoppedStaysStopped(deltaTimes[1..]);
    }
  }

  /** Once frames totalling the time left have passed, the motors are stopped. */
  lemma {:induction false} ExpiredRumbleStops(r: Rumble, deltaTimes: seq<real>)
    requires |deltaTimes| > 0 && Total(deltaTimes) >= r.timeLeft
    requires forall i :: 0 <= i < |deltaTimes| ==> deltaTimes[i] >= 0.0
    ensures RunTicks(r, deltaTimes) == Stopped
    decreases |deltaTimes|
  {
    var r1 := RumbleTick(r, deltaTimes[0]);
    var rest := deltaTimes[1..];
    if r1 == Stopped {
      StoppedStaysStopped(rest);
    } else {
      assert r1.timeLeft == r.timeLeft - deltaTimes[0];
      assert Total(deltaTimes) == deltaTimes[0] + Total(rest);
      ExpiredRumbleStops(r1, rest);
    }
  }

  class XboxController {
    /** PlayerIndex One..Four as 0..3. */
    var controllerIndex: int
    var current: GamePadState
    var previous: GamePadState
    var rumbleTimeLeft: real
    var leftMotor: real
    var rightMotor: real

    function RumbleState(): Rumble
      reads this
    {
      Rumble(rumbleTimeLeft, leftMotor, rightMotor)
    }

    ghost predicate Valid()
      reads this
    {
      Quiet(RumbleState())
    }

    /**
     * `new XboxController()` followed by setting ControllerIndex. Both pad
     * states start as `unpolled`, the input library's default struct.
     */
    constructor (index: int, unpolled: GamePadState)
      ensures controllerIndex == index && current == unpolled && previous == unpolled
      ensures RumbleState() == Stopped && Valid()
    {
      controllerIndex := index;
      current := unpolled;
      previous := unpolled;
      rumbleTimeLeft := 0.0;
      leftMotor := 0.0;
      rightMotor := 0.0;
    }

    /** The frame's poll: the current state becomes the previous one, then the rumble timer runs. */
    method UpdateState(polled: GamePadState, deltaTime: real)
      modifies this`previous, this`current, this`rumbleTimeLeft, this`leftMotor, this`rightMotor
      ensures previous == old(current) && current == polled
      ensures RumbleState() == RumbleTick(old(RumbleState()), deltaTime) && Valid()
    {
      previous := current;
      current := polled;
      UpdateRumble(deltaTime);
    }

    /** UpdateRumble as written: the stop request is rejected by SetVibration. */
    method UpdateRumbleAsWritten(deltaTime: real)
      modifies this`rumbleTimeLeft, this`leftMotor, this`rightMotor
      ensures RumbleState() == RumbleTickAsWritten(old(RumbleState()), deltaTime)
    {
      if rumbleTimeLeft > 0.0 {
        rumbleTimeLeft := rumbleTimeLeft - deltaTime;
      }
      if rumbleTimeLeft < 0.0 {
        rumbleTimeLeft := 0.0;
        SetVibration(0.0, 0.0, 0.0);
      }
    }

    /** UpdateRumble as intended: the motors are stopped directly when the timer runs out. */
    method UpdateRumble(deltaTime: real)
      modifies this`rumbleTimeLeft, this`leftMotor, this`rightMotor
      ensures RumbleState() == RumbleTick(old(RumbleState()), deltaTime)
    {
      if rumbleTimeLeft > 0.0 {
        rumbleTimeLeft := rumbleTimeLeft - deltaTime;
      }
      if rumbleTimeLeft <= 0.0 {
        rumbleTimeLeft := 0.0;
        leftMotor := 0.0;
        rightMotor := 0.0;
      }
    }

    method SetVibration(left: real, right: real, time: real)
      modifies this`rumbleTimeLeft, this`leftMotor, this`rightMotor
      ensures RumbleState() == Vibrate(old(RumbleState()), left, right, time)
    {
      if time <= 0.0 {
        return;
      }
      rumbleTimeLeft := time;
      leftMotor := left;
      rightMotor := right;
    }

    function GetAxis(code: AxisCode): (v: real)
      reads this
      ensures v == AxisValue(current, code)
    {
      AxisValue(current, code)
    }

    function GetButton(code: ButtonCode): (held: bool)
      reads this
      ensures held == ButtonHeld(current, code)
    {
      ButtonHeld(current, code)
    }

    function GetButtonDown(code: ButtonCode): (down: bool)
      reads this
      ensures down == ButtonDown(current, previous, code)
    {
      ButtonDown(current, previous, code)
    }

    function GetButtonUp(code: ButtonCode): (up: bool)
      reads this
      ensures up == ButtonUp(current, previous, code)
    {
      ButtonUp(current, previous, code)
    }

    function IsConnected(): (connected: bool)
      reads this
      ensures connected == current.isConnected
    {
      current.isConnected
    }
  }

  /** XInput supports exactly four pads. */
  const NumberOfControllers := 4

  /**
   * The static ControllerInput facade as one object. Its controllers are
   * created lazily by the first poll or query; DeInitialize drops them but
   * leaves the initialised flag set, so every later query fails.
   */
  class ControllerInput {
    var initialized: bool
    const controllers: array<XboxController?>
    /** The input library's default pad state, which a controller holds until its first poll. */
    const unpolled: GamePadState

    function Pads(): set<object>
      reads this, controllers
    {
      set i | 0 <= i < controllers.Length && controllers[i] != null :: controllers[i]
    }

    /** Four distinct controllers, each knowing its own index. */
    ghost predicate Live()
      reads this, controllers, Pads()
    {
      && controllers.Length == NumberOfControllers
      && (forall i :: 0 <= i < NumberOfControllers ==> controllers[i] != null)
      && (forall i :: 0 <= i < NumberOfControllers ==> controllers[i].controllerIndex == i)
      && (forall i, j :: 0 <= i < j < NumberOfControllers ==> controllers[i] != controllers[j])
    }

    predicate AllNull()
      reads this, controllers
    {
      forall i :: 0 <= i < controllers.Length ==> controllers[i] == null
    }

    /** Before initialisation nothing exists; afterwards the controllers are live, or all dropped. */
    ghost predicate Valid()
      reads this, controllers, Pads()
    {
      && controllers.Length == NumberOfControllers
      && (if initialized then Live() || AllNull() else AllNull())
    }

    constructor (unpolled: GamePadState)
      ensures !initialized && controllers.Length == NumberOfControllers && AllNull() && Valid()
      ensures this.unpolled == unpolled
    {
      this.unpolled := unpolled;
      initialized := false;
      controllers := new XboxController?[NumberOfControllers](_ => null);
    }

    /**
     * Initialize: four fresh controllers, then one poll, so each previous
     * state is the library's default and each current state the first poll.
     */
    method Initialize(poll: int -> GamePadState, deltaTime: real)
      requires Valid() && !initialized
      modifies this`initialized, controllers
      ensures Valid() && initialized && Live()
      ensures forall i :: 0 <= i < NumberOfControllers ==>
        && fresh(controllers[i])
        && controllers[i].previous == unpolled && controllers[i].current == poll(i)
        && controllers[i].RumbleState() == Stopped
    {
      for i := 0 to NumberOfControllers
        invariant forall j :: 0 <= j < i ==> controllers[j] != null && fresh(controllers[j])
        invariant forall j :: 0 <= j < i ==> controllers[j].controllerIndex == j
        invariant forall j :: 0 <= j < i ==> controllers[j].current == unpolled && controllers[j].previous == unpolled
        invariant forall j :: 0 <= j < i ==> controllers[j].RumbleState() == Stopped
        invariant forall j, k :: 0 <= j < k < i ==> controllers[j] != controllers[k]
        invariant forall j :: i <= j < NumberOfControllers ==> controllers[j] == null
        invariant i > 0 ==> initialized
      {
        var c := new XboxController(i, unpolled);
        controllers[i] := c;
        initialized := true;
      }
      var ok := PollAll(poll, deltaTime);
    }

    /** The loop of UpdateState: every controller polls its own pad; a dropped controller throws. */
    method PollAll(poll: int -> GamePadState, deltaTime: real) returns (ok: bool)
      requires Valid() && initialized
      modifies Pads()
      ensures Valid() && (ok <==> old(Live()))
      ensures ok ==> forall i :: 0 <= i < NumberOfControllers ==>
        && controllers[i].previous == old(controllers[i].current) && controllers[i].current == poll(i)
        && controllers[i].RumbleState() == RumbleTick(old(controllers[i].RumbleState()), deltaTime)
    {
      if AllNull() {
        assert controllers[0] == null;
        return false;
      }
      for i := 0 to NumberOfControllers
        invariant Live() && Pads() == old(Pads())
        invariant forall j :: 0 <= j < i ==>
          && controllers[j].previous == old(controllers[j].current) && controllers[j].current == poll(j)
          && controllers[j].RumbleState() == RumbleTick(old(controllers[j].RumbleState()), deltaTime)
        invariant forall j :: i <= j < NumberOfControllers ==>
          && controllers[j].current == old(controllers[j].current)
          && controllers[j].RumbleState() == old(controllers[j].RumbleState())
      {
        controllers[i].UpdateState(poll(i), deltaTime);
      }
      return true;
    }

    /**
     * UpdateState: initialises on first use (which polls once), then polls
     * again, so after the first call previous and current both hold this
     * frame's poll.
     */
    method UpdateState(poll: int -> GamePadState, deltaTime: real) returns (ok: bool)
      requires Valid()
      modifies this`initialized, controllers, Pads()
      ensures Valid() && initialized
      ensures ok <==> Live()
      ensures !old(initialized) ==> ok && forall i :: 0 <= i < NumberOfControllers ==>
        controllers[i].previous == poll(i) && controllers[i].current == poll(i)
      ensures old(initialized) ==> (ok <==> old(Live()))
      ensures old(initialized) && ok ==> forall i :: 0 <= i < NumberOfControllers ==>
        controllers[i] == old(controllers[i]) && controllers[i].previous == old(controllers[i].current)
        && controllers[i].current == poll(i)
        && controllers[i].RumbleState() == RumbleTick(old(controllers[i].RumbleState()), deltaTime)
      ensures old(initialized) && !ok ==> AllNull()
    {
      if !initialized {
        Initialize(poll, deltaTime);
      }
      ok := PollAll(poll, deltaTime);
    }

    /** The lazy initialisation every query shares. */
    method EnsureInitialized(poll: int -> GamePadState, deltaTime: real)
      requires Valid()
      modifies this`initialized, controllers
      ensures Valid() && initialized
      ensures old(initialized) ==> controllers[..] == old(controllers[..]) && Live() == old(Live())
      ensures !old(initialized) ==> Live() && forall i :: 0 <= i < NumberOfControllers ==>
        fresh(controllers[i]) && controllers[i].previous == unpolled && controllers[i].current == poll(i)
    {
      if !initialized {
        Initialize(poll, deltaTime);
      }
    }

    /** The controller a query reads: absent for an index outside 0..3 or a dropped controller. */
    function Controller(index: int): (c: Option<XboxController>)
      reads this, controllers
      ensures c.Some? <==> 0 <= index < controllers.Length && controllers[index] != null
    {
      if 0 <= index < controllers.Length && controllers[index] != null then Some(controllers[index]) else None
    }

    method GetAxis(index: int, code: AxisCode, poll: int -> GamePadState, deltaTime: real) returns (v: Option<real>)
      requires Valid()
      modifies this`initialized, controllers
      ensures Valid() && initialized
      ensures old(initialized) ==> controllers[..] == old(controllers[..])
      ensures v.Some? <==> 0 <= index < NumberOfControllers && Live()
      ensures v.Some? ==> v.value == AxisValue(controllers[index].current, code)
    {
      EnsureInitialized(poll, deltaTime);
      var c := Controller(index);
      if c.None? {
        return None;
      }
      v := Some(c.value.GetAxis(code));
    }

    method GetButton(index: int, code: ButtonCode, poll: int -> GamePadState, deltaTime: real) returns (held: Option<bool>)
      requires Valid()
      modifies this`initialized, controllers
      ensures Valid() && initialized
      ensures old(initialized) ==> controllers[..] == old(controllers[..])
      ensures held.Some? <==> 0 <= index < NumberOfControllers && Live()
      ensures held.Some? ==> held.value == ButtonHeld(controllers[index].current, code)
    {
      EnsureInitialized(poll, deltaTime);
      var c := Controller(index);
      if c.None? {
        return None;
      }
      held := Some(c.value.GetButton(code));
    }

    method GetButtonDown(index: int, code: ButtonCode, poll: int -> GamePadState, deltaTime: real) returns (down: Option<bool>)
      requires Valid()
      modifies this`initialized, controllers
      ensures Valid() && initialized
      ensures old(initialized) ==> controllers[..] == old(controllers[..])
      ensures down.Some? <==> 0 <= index < NumberOfControllers && Live()
      ensures down.Some? ==> down.value == ButtonDown(controllers[index].current, controllers[index].previous, code)
      ensures !old(initialized) && down.Some? ==> down.value == ButtonDown(poll(index), unpolled, code)
    {
      EnsureInitialized(poll, deltaTime);
      var c := Controller(index);
      if c.None? {
        return None;
      }
      down := Some(c.value.GetButtonDown(code));
    }

    method GetButtonUp(index: int, code: ButtonCode, poll: int -> GamePadState, deltaTime: real) returns (up: Option<bool>)
      requires Valid()
      modifies this`initialized, controllers
      ensures Valid() && initialized
      ensures old(initialized) ==> controllers[..] == old(controllers[..])
      ensures up.Some? <==> 0 <= index < NumberOfControllers && Live()
      ensures up.Some? ==> up.value == ButtonUp(controllers[index].current, controllers[index].previous, code)
      ensures !old(initialized) && up.Some? ==> up.value == ButtonUp(poll(index), unpolled, code)
    {
      EnsureInitialized(poll, deltaTime);
      var c := Controller(index);
      if c.None? {
        return None;
      }
      up := Some(c.value.GetButtonUp(code));
    }

    /** SetVibration does not initialise: before the first poll, or after DeInitialize, it fails. */
    method SetVibration(index: int, left: real, right: real, time: real) returns (ok: bool)
      requires Valid()
      modifies Pads()
      ensures Valid()
      ensures ok <==> 0 <= index < NumberOfControllers && old(Live())
      ensures ok ==> controllers[index].RumbleState() == Vibrate(old(controllers[index].RumbleState()), left, right, time)
      ensures ok ==> forall i :: 0 <= i < NumberOfControllers && i != index ==>
        controllers[i].RumbleState() == old(controllers[i].RumbleState())
      ensures !ok ==> forall i :: 0 <= i < NumberOfControllers && controllers[i] != null ==>
        controllers[i].RumbleState() == old(controllers[i].RumbleState())
      ensures forall i :: 0 <= i < NumberOfControllers && controllers[i] != null ==>
        && controllers[i].current == old(controllers[i].current)
        && controllers[i].previous == old(controllers[i].previous)
        && controllers[i].controllerIndex == old(controllers[i].controllerIndex)
    {
      var c := Controller(index);
      if c.None? {
        return false;
      }
      c.value.SetVibration(left, right, time);
      return true;
    }

    /** IsConnected does not initialise either. */
    function IsConnected(index: int): (connected: Option<bool>)
      reads this, controllers, Pads()
      requires Valid()
      ensures connected.Some? <==> 0 <= index < NumberOfControllers && Live()
      ensures connected.Some? ==> connected.value == controllers[index].current.isConnected
    {
      var c := Controller(index);
      if c.None? then None else Some(c.value.IsConnected())
    }

    /** DeInitialize drops every controller but leaves the flag set. */
    method DeInitialize()
      requires Valid()
      modifies controllers
      ensures Valid() && AllNull() && initialized == old(initialized)
    {
      for i := 0 to NumberOfControllers
        invariant forall j :: 0 <= j < i ==> controllers[j] == null
        invariant forall j :: i <= j < NumberOfControllers ==> controllers[j] == old(controllers[j])
      {
        controllers[i] := null;
      }
    }
  }
}
