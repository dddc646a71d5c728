/**
 * Named input bindings (InputManager).
 *
 * A button name maps to a keyboard key and/or a pad button together with
 * the edge to report; an axis name maps to a key pair, a pad-button pair
 * and/or an analogue pad axis. Queries resolve a binding against the
 * devices, keyboard first.
 *
 * Unity's Input class and the ControllerInput facade are the oracle
 * `Devices`. A facade query throws for a controller index outside 0..3 or
 * after DeInitialize; the oracle answers `None` there, and the queries
 * pass that failure on. The command objects held in the two dictionaries
 * are never shared, so they are values in two maps that the bind methods
 * reassign.
 */
module InputManagement {
  import opened Wrappers
  import opened ControllerInputs

  /** Unity's KeyCode; `NoKey` is KeyCode.None. */
  datatype KeyCode = NoKey | Key(id: nat)

  datatype ButtonState = NoState | OnPress | OnRelease | Pressed | Released

  datatype ButtonCommand = ButtonCommand(controllerIndex: int, keyCode: KeyCode, buttonCode: ButtonCode,
                                         buttonState: ButtonState)

  datatype AxisCommand = AxisCommand(controllerIndex: int, positiveKeyCode: KeyCode, negativeKeyCode: KeyCode,
                                     axisCode: AxisCode, positiveButtonCode: ButtonCode,
                                     negativeButtonCode: ButtonCode)

  /**
   * What the queries read this frame: Input.GetKey/GetKeyDown/GetKeyUp,
   * which always answer, and ControllerInput.GetButton/GetButtonDown/
   * GetButtonUp/GetAxis, which answer `None` where the facade throws.
   */
  datatype Devices = Devices(
    keyHeld: KeyCode -> bool,
    keyDown: KeyCode -> bool,
    keyUp: KeyCode -> bool,
    padHeld: (int, ButtonCode) -> Option<bool>,
    padDown: (int, ButtonCode) -> Option<bool>,
    padUp: (int, ButtonCode) -> Option<bool>,
    padAxis: (int, AxisCode) -> Option<real>)

  /** The facade's failure rule: every pad query on an index outside 0..3 throws. */
  ghost predicate PadFailsOutOfRange(d: Devices)
  {
    && (forall index: int, code: ButtonCode :: !(0 <= index < NumberOfControllers) ==>
          d.padHeld(index, code).None? && d.padDown(index, code).None? && d.padUp(index, code).None?)
    && (forall index: int, code: AxisCode :: !(0 <= index < NumberOfControllers) ==> d.padAxis(index, code).None?)
  }

  /** The keyboard switch of GetButton: `Released` is the negation of `Pressed`, `NoState` is false. */
  function KeyQuery(d: Devices, state: ButtonState, key: KeyCode): (r: bool)
    ensures state == NoState ==> !r
    ensures state == Released ==> (r <==> !d.keyHeld(key))
    ensures state == Pressed ==> (r <==> d.keyHeld(key))
  {
    match state
    case OnPress => d.keyDown(key)
    case OnRelease => d.keyUp(key)
    case Pressed => d.keyHeld(key)
    case Released => !d.keyHeld(key)
    case NoState => false
  }

  /**
   * The controller switch of GetButton, with the same meaning of the
   * states; `NoState` makes no facade call, so it cannot fail.
   */
  function PadQuery(d: Devices, state: ButtonState, index: int, code: ButtonCode): (r: Option<bool>)
    ensures state == NoState ==> r == Some(false)
    ensures state == Pressed ==> r == d.padHeld(index, code)
    ensures state == Released ==>
      (r.Some? <==> d.padHeld(index, code).Some?) && (r.Some? ==> r.value == !d.padHeld(index, code).value)
    ensures state == OnPress ==> r == d.padDown(index, code)
    ensures state == OnRelease ==> r == d.padUp(index, code)
  {
    match state
    case OnPress => d.padDown(index, code)
    case OnRelease => d.padUp(index, code)
    case Pressed => d.padHeld(index, code)
    case Released => (match d.padHeld(index, code) case None => None case Some(held) => Some(!held))
    case NoState => Some(false)
  }

  /** The keyboard side of a button binding says yes. */
  predicate KeyAnswers(cmd: ButtonCommand, d: Devices)
  {
    cmd.keyCode != NoKey && KeyQuery(d, cmd.buttonState, cmd.keyCode)
  }

  /**
   * GetButton on a bound name: the keyboard answers only when it says yes;
   * otherwise the controller's answer (or its failure) is returned as it
   * is, and with no controller button bound the answer is no.
   */
  function ResolveButton(cmd: ButtonCommand, d: Devices): (pressed: Option<bool>)
    ensures KeyAnswers(cmd, d) ==> pressed == Some(true)
    ensures !KeyAnswers(cmd, d) && cmd.buttonCode != NoButton ==>
      pressed == PadQuery(d, cmd.buttonState, cmd.controllerIndex, cmd.buttonCode)
    ensures !KeyAnswers(cmd, d) && cmd.buttonCode == NoButton ==> pressed == Some(false)
    ensures cmd.buttonState == NoState ==> pressed == Some(false)
    ensures pressed.None? ==> !KeyAnswers(cmd, d) && cmd.buttonCode != NoButton && cmd.buttonState != NoState
  {
    if KeyAnswers(cmd, d) then Some(true)
    else if cmd.buttonCode != NoButton then PadQuery(d, cmd.buttonState, cmd.controllerIndex, cmd.buttonCode)
    else Some(false)
  }

  /** A button bound to a controller outside 0..3 fails whenever the keyboard does not say yes. */
  lemma OutOfRangePadButtonFails(cmd: ButtonCommand, d: Devices)
    requires PadFailsOutOfRange(d) && !(0 <= cmd.controllerIndex < NumberOfControllers)
    requires cmd.buttonCode != NoButton && cmd.buttonState != NoState
    ensures ResolveButton(cmd, d).None? <==> !KeyAnswers(cmd, d)
  {
    var index, code := cmd.controllerIndex, cmd.buttonCode;
    assert d.padHeld(index, code).None? && d.padDown(index, code).None? && d.padUp(index, code).None?;
  }

  /** The value of a digital pair: +1 for the positive input, -1 for the negative one; both cancel. */
  function PairValue(positive: bool, negative: bool): (v: real)
    ensures v == 1.0 || v == 0.0 || v == -1.0
    ensures v == 0.0 <==> positive == negative
    ensures v == 1.0 <==> positive && !negative
  {
    (if positive then 1.0 else 0.0) - (if negative then 1.0 else 0.0)
  }

  function KeyPairValue(cmd: AxisCommand, d: Devices): real
  {
    PairValue(d.keyHeld(cmd.positiveKeyCode), d.keyHeld(cmd.negativeKeyCode))
  }

  /** The pad pair, read positive first: a failure of either query is the pair's failure. */
  function ButtonPairValue(cmd: AxisCommand, d: Devices): (v: Option<real>)
    ensures v.Some? <==> d.padHeld(cmd.controllerIndex, cmd.positiveButtonCode).Some?
                         && d.padHeld(cmd.controllerIndex, cmd.negativeButtonCode).Some?
    ensures v.Some? ==> v.value == PairValue(d.padHeld(cmd.controllerIndex, cmd.positiveButtonCode).value,
                                             d.padHeld(cmd.controllerIndex, cmd.negativeButtonCode).value)
  {
    match d.padHeld(cmd.controllerIndex, cmd.positiveButtonCode)
    case None => None
    case Some(positive) =>
      match d.padHeld(cmd.controllerIndex, cmd.negativeButtonCode)
      case None => None
      case Some(negative) => Some(PairValue(positive, negative))
  }

  predicate KeysBound(cmd: AxisCommand)
  {
    cmd.positiveKeyCode != NoKey && cmd.negativeKeyCode != NoKey
  }

  predicate ButtonsBound(cmd: AxisCommand)
  {
    cmd.positiveButtonCode != NoButton && cmd.negativeButtonCode != NoButton
  }

  /** The key pair is bound and does not cancel out. */
  predicate KeyPairAnswers(cmd: AxisCommand, d: Devices)
  {
    KeysBound(cmd) && KeyPairValue(cmd, d) != 0.0
  }

  /** The button pair is bound and either fails or does not cancel out. */
  predicate ButtonPairAnswers(cmd: AxisCommand, d: Devices)
  {
    ButtonsBound(cmd) && ButtonPairValue(cmd, d) != Some(0.0)
  }

  /**
   * GetAxis on a bound name: the key pair, then the button pair, each only
   * when both of its codes are bound and the pair does not cancel out;
   * then the analogue axis; otherwise 0. A failing pad query ends the
   * search with that failure.
   */
  function ResolveAxis(cmd: AxisCommand, d: Devices): (v: Option<real>)
    ensures KeyPairAnswers(cmd, d) ==> v == Some(KeyPairValue(cmd, d))
    ensures !KeyPairAnswers(cmd, d) && ButtonPairAnswers(cmd, d) ==> v == ButtonPairValue(cmd, d)
    ensures !KeyPairAnswers(cmd, d) && !ButtonPairAnswers(cmd, d) ==>
      v == (if cmd.axisCode != NoAxis then d.padAxis(cmd.controllerIndex, cmd.axisCode) else Some(0.0))
    ensures cmd.axisCode == NoAxis && v.Some? ==> v.value == 1.0 || v.value == 0.0 || v.value == -1.0
    ensures v.None? ==> !KeyPairAnswers(cmd, d) && (ButtonsBound(cmd) || cmd.axisCode != NoAxis)
  {
    if KeyPairAnswers(cmd, d) then Some(KeyPairValue(cmd, d))
    else if ButtonPairAnswers(cmd, d) then ButtonPairValue(cmd, d)
    else if cmd.axisCode != NoAxis then d.padAxis(cmd.controllerIndex, cmd.axisCode)
    else Some(0.0)
  }

  /** BindButton(name, keyCode, buttonState) on the button table. */
  function WithKeyButton(m: map<string, ButtonCommand>, name: string, key: KeyCode, state: ButtonState): (m': map<string, ButtonCommand>)
    ensures m'.Keys == m.Keys + {name}
    ensures forall n :: n in m && n != name ==> m'[n] == m[n]
    ensures m'[name].keyCode == key && m'[name].buttonState == state
    ensures name in m ==> m'[name].controllerIndex == m[name].controllerIndex && m'[name].buttonCode == m[name].buttonCode
    ensures name !in m ==> m'[name].controllerIndex == 0 && m'[name].buttonCode == NoButton
  {
    if name in m then m[name := m[name].(keyCode := key, buttonState := state)]
    else m[name := ButtonCommand(0, key, NoButton, state)]
  }

  /** BindButton(name, controllerIndex, buttonCode, buttonState): a new entry gets controller 0 whatever the argument. */
  function WithPadButton(m: map<string, ButtonCommand>, name: string, index: int, code: ButtonCode, state: ButtonState): (m': map<string, ButtonCommand>)
    ensures m'.Keys == m.Keys + {name}
    ensures forall n :: n in m && n != name ==> m'[n] == m[n]
    ensures m'[name].buttonCode == code && m'[name].buttonState == state
    ensures name in m ==> m'[name].controllerIndex == index && m'[name].keyCode == m[name].keyCode
    ensures name !in m ==> m'[name].controllerIndex == 0 && m'[name].keyCode == NoKey
  {
    if name in m then m[name := m[name].(controllerIndex := index, buttonCode := code, buttonState := state)]
    else m[name := ButtonCommand(0, NoKey, code, state)]
  }

  /** BindAxis(name, positiveKeyCode, negativeKeyCode). */
  function WithKeyAxis(m: map<string, AxisCommand>, name: string, positive: KeyCode, negative: KeyCode): (m': map<string, AxisCommand>)
    ensures m'.Keys == m.Keys + {name}
    ensures forall n :: n in m && n != name ==> m'[n] == m[n]
    ensures m'[name].positiveKeyCode == positive && m'[name].negativeKeyCode == negative
    ensures name in m ==> m'[name] == m[name].(positiveKeyCode := positive, negativeKeyCode := negative)
    ensures name !in m ==> m'[name] == AxisCommand(0, positive, negative, NoAxis, NoButton, NoButton)
  {
    if name in m then m[name := m[name].(positiveKeyCode := positive, negativeKeyCode := negative)]
    else m[name := AxisCommand(0, positive, negative, NoAxis, NoButton, NoButton)]
  }

  /** BindAxis(name, controllerIndex, positiveButtonCode, negativeButtonCode). */
  function WithButtonAxis(m: map<string, AxisCommand>, name: string, index: int, positive: ButtonCode, negative: ButtonCode): (m': map<string, AxisCommand>)
    ensures m'.Keys == m.Keys + {name}
    ensures forall n :: n in m && n != name ==> m'[n] == m[n]
    ensures m'[name].positiveButtonCode == positive && m'[name].negativeButtonCode == negative
    ensures name in m ==> m'[name] == m[name].(controllerIndex := index, positiveButtonCode := positive, negativeButtonCode := negative)
    ensures name !in m ==> m'[name] == AxisCommand(0, NoKey, NoKey, NoAxis, positive, negative)
  {
    if name in m then m[name := m[name].(controllerIndex := index, positiveButtonCode := positive, negativeButtonCode := negative)]
    else m[name := AxisCommand(0, NoKey, NoKey, NoAxis, positive, negative)]
  }

  /** BindAxis(name, controllerIndex, axisCode). */
  function WithPadAxis(m: map<string, AxisCommand>, name: string, index: int, code: AxisCode): (m': map<string, AxisCommand>)
    ensures m'.Keys == m.Keys + {name}
    ensures forall n :: n in m && n != name ==> m'[n] == m[n]
    ensures m'[name].axisCode == code
    ensures name in m ==> m'[name] == m[name].(controllerIndex := index, axisCode := code)
    ensures name !in m ==> m'[name] == AxisCommand(0, NoKey, NoKey, code, NoButton, NoButton)
  {
    if name in m then m[name := m[name].(controllerIndex := index, axisCode := code)]
    else m[name := AxisCommand(0, NoKey, NoKey, code, NoButton, NoButton)]
  }

  /**
   * A freshly key-bound button answers from the keyboard alone: with no
   * controller button on the new entry, the result is exactly the key query.
   */
  lemma NewKeyButtonAnswersFromKeyboard(m: map<string, ButtonCommand>, name: string, key: KeyCode, state: ButtonState, d: Devices)
    requires name !in m && key != NoKey
    ensures ResolveButton(WithKeyButton(m, name, key, state)[name], d) == Some(KeyQuery(d, state, key))
  {
    var cmd := WithKeyButton(m, name, key, state)[name];
    assert cmd.buttonCode == NoButton;
  }

  /**
   * Re-binding the pad side of a button keeps its key: a key that fires
   * before the re-binding still fires after it.
   */
  lemma PadRebindKeepsKeyboard(m: map<string, ButtonCommand>, name: string, index: int, code: ButtonCode, d: Devices)
    requires name in m && KeyAnswers(m[name], d)
    ensures ResolveButton(WithPadButton(m, name, index, code, m[name].buttonState)[name], d) == Some(true)
  {
    var cmd := WithPadButton(m, name, index, code, m[name].buttonState)[name];
    assert cmd.keyCode == m[name].keyCode && cmd.buttonState == m[name].buttonState;
  }

  /** An axis read from a controller outside 0..3 fails whenever the key pair does not answer and a pad input is bound. */
  lemma OutOfRangePadAxisFails(cmd: AxisCommand, d: Devices)
    requires PadFailsOutOfRange(d) && !(0 <= cmd.controllerIndex < NumberOfControllers)
    ensures ResolveAxis(cmd, d).None? <==> !KeyPairAnswers(cmd, d) && (ButtonsBound(cmd) || cmd.axisCode != NoAxis)
  {
    var index := cmd.controllerIndex;
    assert d.padHeld(index, cmd.positiveButtonCode).None?;
    assert d.padAxis(index, cmd.axisCode).None?;
  }

  /**
   * Re-binding the key pair of an axis does not change its answer while
   * neither the old nor the new pair answers: the pad side decides as before.
   */
  lemma KeyAxisRebindKeepsPadAnswer(m: map<string, AxisCommand>, name: string, positive: KeyCode, negative: KeyCode, d: Devices)
    requires name in m && !KeyPairAnswers(m[name], d)
    requires !KeyPairAnswers(WithKeyAxis(m, name, positive, negative)[name], d)
    ensures ResolveAxis(WithKeyAxis(m, name, positive, negative)[name], d) == ResolveAxis(m[name], d)
  {
    var k := WithKeyAxis(m, name, positive, negative)[name];
    assert ButtonPairValue(k, d) == ButtonPairValue(m[name], d);
  }

  /** Re-binding the button pair of an axis keeps a key pair that answers answering, with the same value. */
  lemma ButtonAxisRebindKeepsKeyAnswer(m: map<string, AxisCommand>, name: string, index: int, positive: ButtonCode,
                                       negative: ButtonCode, d: Devices)
    requires name in m && KeyPairAnswers(m[name], d)
    ensures ResolveAxis(WithButtonAxis(m, name, index, positive, negative)[name], d) == ResolveAxis(m[name], d)
  {
    var b := WithButtonAxis(m, name, index, positive, negative)[name];
    assert KeyPairValue(b, d) == KeyPairValue(m[name], d);
  }

  class InputManager {
    var buttons: map<string, ButtonCommand>
    var axes: map<string, AxisCommand>

    /** Awake: both tables empty. */
    constructor ()
      ensures buttons == map[] && axes == map[]
    {
      buttons := map[];
      axes := map[];
    }

    /** OnDestroy empties both tables. */
    method OnDestroy()
      modifies this
      ensures buttons == map[] && axes == map[]
    {
      axes := map[];
      buttons := map[];
    }

    method BindButtonToKey(name: string, key: KeyCode, state: ButtonState)
      modifies this`buttons
      ensures buttons == WithKeyButton(old(buttons), name, key, state)
    {
      if name in buttons {
        var command := buttons[name];
        buttons := buttons[name := command.(keyCode := key, buttonState := state)];
        return;
      }
      buttons := buttons[name := ButtonCommand(0, key, NoButton, state)];
    }

    method BindButtonToPad(name: string, index: int, code: ButtonCode, state: ButtonState)
      modifies this`buttons
      ensures buttons == WithPadButton(old(buttons), name, index, code, state)
    {
      if name in buttons {
        var command := buttons[name];
        buttons := buttons[name := command.(controllerIndex := index, buttonCode := code, buttonState := state)];
        return;
      }
      buttons := buttons[name := ButtonCommand(0, NoKey, code, state)];
    }

    method BindAxisToKeys(name: string, positive: KeyCode, negative: KeyCode)
      modifies this`axes
      ensures axes == WithKeyAxis(old(axes), name, positive, negative)
    {
      if name in axes {
        var command := axes[name];
        axes := axes[name := command.(positiveKeyCode := positive, negativeKeyCode := negative)];
        return;
      }
      axes := axes[name := AxisCommand(0, positive, negative, NoAxis, NoButton, NoButton)];
    }

    method BindAxisToButtons(name: string, index: int, positive: ButtonCode, negative: ButtonCode)
      modifies this`axes
      ensures axes == WithButtonAxis(old(axes), name, index, positive, negative)
    {
      if name in axes {
        var command := axes[name];
        axes := axes[name := command.(controllerIndex := index, positiveButtonCode := positive, negativeButtonCode := negative)];
        return;
      }
      axes := axes[name := AxisCommand(0, NoKey, NoKey, NoAxis, positive, negative)];
    }

    method BindAxisToPadAxis(name: string, index: int, code: AxisCode)
      modifies this`axes
      ensures axes == WithPadAxis(old(axes), name, index, code)
    {
      if name in axes {
        var command := axes[name];
        axes := axes[name := command.(controllerIndex := index, axisCode := code)];
        return;
      }
      axes := axes[name := AxisCommand(0, NoKey, NoKey, code, NoButton, NoButton)];
    }

    /** GetButton: an unknown name is never pressed; `None` is a facade query that threw. */
    function GetButton(name: string, d: Devices): (pressed: Option<bool>)
      reads this
      ensures name !in buttons ==> pressed == Some(false)
      ensures name in buttons ==> pressed == ResolveButton(buttons[name], d)
    {
      if name in buttons then ResolveButton(buttons[name], d) else Some(false)
    }

    /** GetAxis: an unknown name reads 0; `None` is a facade query that threw. */
    function GetAxis(name: string, d: Devices): (v: Option<real>)
      reads this
      ensures name !in axes ==> v == Some(0.0)
      ensures name in axes ==> v == ResolveAxis(axes[name], d)
    {
      if name in axes then ResolveAxis(axes[name], d) else Some(0.0)
    }

    /** IsUsed(KeyCode): whether some button binding uses the key (axis bindings are not searched). */
    method IsKeyUsed(key: KeyCode) returns (used: bool)
      ensures used <==> exists n :: n in buttons && buttons[n].keyCode == key
    {
      var remaining := buttons.Keys;
      while remaining != {}
        invariant remaining <= buttons.Keys
        invariant forall n :: n in buttons && n !in remaining ==> buttons[n].keyCode != key
        decreases |remaining|
      {
        var n :| n in remaining;
        if buttons[n].keyCode == key {
          return true;
        }
        remaining := remaining - {n};
      }
      return false;
    }

    /** IsUsed(ControllerButtonCode): whether some button binding uses the pad button. */
    method IsButtonUsed(code: ButtonCode) returns (used: bool)
      ensures used <==> exists n :: n in buttons && buttons[n].buttonCode == code
    {
      var remaining := buttons.Keys;
      while remaining != {}
        invariant remaining <= buttons.Keys
        invariant forall n :: n in buttons && n !in remaining ==> buttons[n].buttonCode != code
        decreases |remaining|
      {
        var n :| n in remaining;
        if buttons[n].buttonCode == code {
          return true;
        }
        remaining := remaining - {n};
      }
      return false;
    }
  }
}
