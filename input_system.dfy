/** core/src/input_system.c: a four-state machine per game action, driven
    once per update by whether the action's bound key or button is down. */
module InputSystem {

  // `DNF_GameAction` of core/include/input_system.h: the indices of the two
  // handler arrays.
  const ACTION_NONE: int := 0
  const MOVE_FORWARD: int := 1
  const MOVE_BACKWARD: int := 2
  const MOVE_LEFT: int := 3
  const MOVE_RIGHT: int := 4
  const INTERACT: int := 5
  const ATTACK1: int := 6
  const ATTACK2: int := 7
  const ACTION_COUNT: int := 8

  // The raylib key and mouse-button codes of the default bindings.
  const KEY_W: int := 87
  const KEY_S: int := 83
  const KEY_A: int := 65
  const KEY_D: int := 68
  const KEY_E: int := 69
  const MOUSE_BUTTON_LEFT: int := 0
  const MOUSE_BUTTON_RIGHT: int := 1

  /** `DNF_InputState`, in declaration order. */
  datatype InputState = Idle | Released | Pressed | Held

  /** The enum's integer value, which the update compares. */
  function Ordinal(s: InputState): (n: int)
    ensures 0 <= n < 4
  {
    match s
    case Idle => 0
    case Released => 1
    case Pressed => 2
    case Held => 3
  }

  /** The enum values are distinct, so the comparisons of the update single
      out the intended pairs of states. */
  lemma OrdinalInjective(a: InputState, b: InputState)
    ensures Ordinal(a) == Ordinal(b) <==> a == b
  {
  }

  /** One step of the machine, by the enum comparisons the update uses. */
  function NextState(s: InputState, down: bool): (r: InputState)
    // key down: IDLE or RELEASED becomes PRESSED, PRESSED or HELD becomes HELD
    ensures down && (s == Idle || s == Released) ==> r == Pressed
    ensures down && (s == Pressed || s == Held) ==> r == Held
    // key up: PRESSED or HELD becomes RELEASED, IDLE or RELEASED becomes IDLE
    ensures !down && (s == Pressed || s == Held) ==> r == Released
    ensures !down && (s == Idle || s == Released) ==> r == Idle
  {
    if down then
      if Ordinal(s) <= Ordinal(Released) then Pressed else Held
    else
      if Ordinal(s) >= Ordinal(Pressed) then Released else Idle
  }

  /** The key is down exactly in PRESSED and HELD. */
  predicate IsDown(s: InputState)
  {
    s == Pressed || s == Held
  }

  /** After a step the state says whether the key is down now, and PRESSED
      (RELEASED) says that it was not (was) down before. */
  lemma NextStateTracksKey(s: InputState, down: bool)
    ensures IsDown(NextState(s, down)) <==> down
    ensures NextState(s, down) == Pressed <==> down && !IsDown(s)
    ensures NextState(s, down) == Released <==> !down && IsDown(s)
  {
  }

  /** PRESSED and RELEASED last one update: PRESSED is followed by HELD or
      RELEASED, RELEASED by PRESSED or IDLE. */
  lemma TransientStates(down: bool)
    ensures NextState(Pressed, down) == Held || NextState(Pressed, down) == Released
    ensures NextState(Released, down) == Pressed || NextState(Released, down) == Idle
    ensures NextState(Pressed, down) != Pressed && NextState(Released, down) != Released
  {
  }

  /** The state after feeding the key bits of `downs` in order. */
  function Run(s: InputState, downs: seq<bool>): (r: InputState)
    decreases |downs|
  {
    if downs == [] then s else Run(NextState(s, downs[0]), downs[1..])
  }

  /** The state two key bits determine, whatever came before. */
  function FromLastTwo(previous: bool, current: bool): (r: InputState)
  {
    if current then (if previous then Held else Pressed)
    else (if previous then Released else Idle)
  }

  lemma {:induction false} RunLastStep(s: InputState, downs: seq<bool>)
    requires |downs| >= 1
    decreases |downs|
    ensures Run(s, downs) == NextState(Run(s, downs[..|downs| - 1]), downs[|downs| - 1])
  {
    if |downs| > 1 {
      RunLastStep(NextState(s, downs[0]), downs[1..]);
      assert downs[1..][..|downs| - 2] == downs[..|downs| - 1][1..];
    }
  }

  /** The machine remembers only the last two updates: after at least two
      updates the state is fixed by the last two key bits. */
  lemma {:induction false} RunDependsOnLastTwo(s: InputState, downs: seq<bool>)
    requires |downs| >= 2
    ensures Run(s, downs) == FromLastTwo(downs[|downs| - 2], downs[|downs| - 1])
  {
    var n := |downs|;
    RunLastStep(s, downs);
    RunLastStep(s, downs[..n - 1]);
    assert downs[..n - 1][..n - 2] == downs[..n - 2];
    var before := Run(s, downs[..n - 2]);
    NextStateTracksKey(before, downs[n - 2]);
    NextStateTracksKey(NextState(before, downs[n - 2]), downs[n - 1]);
  }

  /** Whether action `i` is down this update: actions up to INTERACT read
      the keyboard, ATTACK1 and ATTACK2 the mouse. */
  function CurrentDown(i: int, code: int, keyDown: int -> bool, mouseDown: int -> bool): (r: bool)
  {
    if i <= INTERACT then keyDown(code)
    else if ATTACK1 <= i <= ATTACK2 then mouseDown(code)
    else false
  }

  /** The default binding of each action after `core_input_system_init`. */
  function DefaultKeybind(i: int): (r: int)
    requires 1 <= i < ACTION_COUNT
  {
    if i == MOVE_FORWARD then KEY_W
    else if i == MOVE_BACKWARD then KEY_S
    else if i == MOVE_LEFT then KEY_A
    else if i == MOVE_RIGHT then KEY_D
    else if i == INTERACT then KEY_E
    else if i == ATTACK1 then MOUSE_BUTTON_LEFT
    else MOUSE_BUTTON_RIGHT
  }

  /** `DNF_InputSystemHandler`: a binding and a state per action. */
  class InputHandler {
    const keybindLUT: array<int>
    const actionStates: array<InputState>

    ghost predicate Valid()
    {
      keybindLUT.Length == ACTION_COUNT && actionStates.Length == ACTION_COUNT
    }

    /** The handler's storage before `core_input_system_init` runs. */
    constructor ()
      ensures Valid() && fresh(keybindLUT) && fresh(actionStates)
    {
      keybindLUT := new int[ACTION_COUNT](_ => 0);
      actionStates := new InputState[ACTION_COUNT](_ => Idle);
    }

    /** `core_input_system_init`: the seven default bindings, every state
        IDLE.  The binding of `ACTION_NONE` is not written. */
    method Init()
      requires Valid()
      modifies keybindLUT, actionStates
      ensures forall i :: 1 <= i < ACTION_COUNT ==> keybindLUT[i] == DefaultKeybind(i)
      ensures keybindLUT[ACTION_NONE] == old(keybindLUT[ACTION_NONE])
      ensures forall i :: 0 <= i < ACTION_COUNT ==> actionStates[i] == Idle
    {
      keybindLUT[MOVE_FORWARD] := KEY_W;
      keybindLUT[MOVE_BACKWARD] := KEY_S;
      keybindLUT[MOVE_LEFT] := KEY_A;
      keybindLUT[MOVE_RIGHT] := KEY_D;
      keybindLUT[INTERACT] := KEY_E;
      keybindLUT[ATTACK1] := MOUSE_BUTTON_LEFT;
      keybindLUT[ATTACK2] := MOUSE_BUTTON_RIGHT;
      var i := 0;
      while i < ACTION_COUNT
        invariant 0 <= i <= ACTION_COUNT
        invariant forall k :: 0 <= k < i ==> actionStates[k] == Idle
        modifies actionStates
      {
        actionStates[i] := Idle;
        i := i + 1;
      }
    }

    /** `core_input_update`: step every action but `ACTION_NONE` by its
        key bit.  `keyDown` and `mouseDown` are raylib's `IsKeyDown` and
        `IsMouseButtonDown` at this update.  The bindings are only read. */
    method Update(keyDown: int -> bool, mouseDown: int -> bool)
      requires Valid()
      modifies actionStates
      ensures actionStates[ACTION_NONE] == old(actionStates[ACTION_NONE])
      ensures forall i :: 1 <= i < ACTION_COUNT ==>
        actionStates[i] == NextState(old(actionStates[i]), CurrentDown(i, keybindLUT[i], keyDown, mouseDown))
    {
      var i := 1;
      while i < ACTION_COUNT
        invariant 1 <= i <= ACTION_COUNT
        invariant actionStates[ACTION_NONE] == old(actionStates[ACTION_NONE])
        invariant forall k :: 1 <= k < i ==>
          actionStates[k] == NextState(old(actionStates[k]), CurrentDown(k, keybindLUT[k], keyDown, mouseDown))
        invariant forall k :: i <= k < ACTION_COUNT ==> actionStates[k] == old(actionStates[k])
      {
        var currentDown := false;
        if i <= INTERACT {
          currentDown := keyDown(keybindLUT[i]);
        } else if i >= ATTACK1 && i <= ATTACK2 {
          currentDown := mouseDown(keybindLUT[i]);
        }
        if currentDown {
          if Ordinal(actionStates[i]) <= Ordinal(Released) {
            actionStates[i] := Pressed;
          } else {
            actionStates[i] := Held;
          }
        } else {
          if Ordinal(actionStates[i]) >= Ordinal(Pressed) {
            actionStates[i] := Released;
          } else {
            actionStates[i] := Idle;
          }
        }
        i := i + 1;
      }
    }

    /** `core_input_get_current_state`. */
    function CurrentState(action: int): (r: InputState)
      requires Valid() && 0 <= action < ACTION_COUNT
      reads actionStates
    {
      actionStates[action]
    }

    predicate IsPressed(action: int)
      requires Valid() && 0 <= action < ACTION_COUNT
      reads actionStates
    {
      CurrentState(action) == Pressed
    }

    predicate IsHeld(action: int)
      requires Valid() && 0 <= action < ACTION_COUNT
      reads actionStates
    {
      CurrentState(action) == Held
    }

    predicate IsReleased(action: int)
      requires Valid() && 0 <= action < ACTION_COUNT
      reads actionStates
    {
      CurrentState(action) == Released
    }

    /** At most one of the three queries answers true, and all three are
        false exactly when the action is IDLE. */
    lemma QueriesExclusive(action: int)
      requires Valid() && 0 <= action < ACTION_COUNT
      ensures !(IsPressed(action) && IsHeld(action))
      ensures !(IsPressed(action) && IsReleased(action))
      ensures !(IsHeld(action) && IsReleased(action))
      ensures !IsPressed(action) && !IsHeld(action) && !IsReleased(action) <==> CurrentState(action) == Idle
    {
    }
  }
}
