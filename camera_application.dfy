/**
 * The Camera chapter's application base classes: window size kept on resize,
 * 512 persistent key and button flags set and cleared by GLFW events, the
 * per-frame input reset, and the Initialize/Load gating of the frame loop.
 */
module CameraApplication {
  import opened Ints
  import opened InputTrackers

  /** The length of each std::array<bool, 512> of flags. */
  const KEY_COUNT: nat := 512

  /** The Application base class. */
  class Application {
    var width: I32
    var height: I32
    const keys: array<bool>
    const buttons: array<bool>
    var isCaptured: bool
    var deltaPosition: Float2
    var cursorPosition: Float2

    /** Two separate arrays of 512 flags. */
    ghost predicate Valid()
      reads this
    {
      keys.Length == KEY_COUNT && buttons.Length == KEY_COUNT && keys != buttons
    }

    /** The member initialisers: size 0 x 0, every key and button up, positions at the origin, cursor free. */
    constructor ()
      ensures Valid() && fresh(keys) && fresh(buttons)
      ensures width == 0 && height == 0 && !isCaptured
      ensures forall k :: 0 <= k < KEY_COUNT ==> IsKeyUp(k) && IsButtonUp(k)
      ensures deltaPosition == ORIGIN && cursorPosition == ORIGIN
    {
      width, height := 0, 0;
      keys := new bool[KEY_COUNT](_ => false);
      buttons := new bool[KEY_COUNT](_ => false);
      isCaptured := false;
      deltaPosition, cursorPosition := ORIGIN, ORIGIN;
    }

    method OnResize(newWidth: I32, newHeight: I32)
      modifies this`width, this`height
      ensures GetWindowWidth() == newWidth && GetWindowHeight() == newHeight
    {
      width := newWidth;
      height := newHeight;
    }

    function GetWindowWidth(): I32
      reads this
    {
      width
    }

    function GetWindowHeight(): I32
      reads this
    {
      height
    }

    /** PRESS sets the key's flag and RELEASE clears it; every other flag and every button stay as they were. */
    method OnKey(key: I32, action: I32)
      requires Valid() && 0 <= key < KEY_COUNT
      modifies keys
      ensures keys[key] == KeyState(old(keys[key]), action)
      ensures forall k :: 0 <= k < KEY_COUNT && k != key ==> keys[k] == old(keys[k])
    {
      if action == PRESS {
        keys[key] := true;
      } else if action == RELEASE {
        keys[key] := false;
      }
    }

    /** The same rule for the mouse buttons. */
    method OnMouseButton(button: I32, action: I32)
      requires Valid() && 0 <= button < KEY_COUNT
      modifies buttons
      ensures buttons[button] == KeyState(old(buttons[button]), action)
      ensures forall k :: 0 <= k < KEY_COUNT && k != button ==> buttons[k] == old(buttons[k])
    {
      if action == PRESS {
        buttons[button] := true;
      } else if action == RELEASE {
        buttons[button] := false;
      }
    }

    method OnMouseMove(x: real, y: real)
      modifies this`deltaPosition, this`cursorPosition
      ensures cursorPosition == Float2(x, y)
      ensures old(cursorPosition).x + deltaPosition.x == x && old(cursorPosition).y + deltaPosition.y == y
    {
      deltaPosition := Float2(x - cursorPosition.x, y - cursorPosition.y);
      cursorPosition := Float2(x, y);
    }

    /** The per-frame reset: only the delta, and the cursor when captured; key and button flags persist. */
    method UpdateInput(centerX: real, centerY: real)
      modifies this`deltaPosition, this`cursorPosition
      ensures deltaPosition == ORIGIN
      ensures cursorPosition == if isCaptured then Float2(centerX, centerY) else old(cursorPosition)
    {
      deltaPosition := ORIGIN;
      if isCaptured {
        cursorPosition := Float2(centerX, centerY);
      }
    }

    function IsKeyDown(key: I32): bool
      requires Valid() && 0 <= key < KEY_COUNT
      reads this, keys
    {
      keys[key]
    }

    /** A key counts as pressed exactly while it is down. */
    function IsKeyPressed(key: I32): (pressed: bool)
      requires Valid() && 0 <= key < KEY_COUNT
      reads this, keys
      ensures pressed == IsKeyDown(key)
    {
      keys[key]
    }

    /** A key is up exactly when it is not down. */
    function IsKeyUp(key: I32): (up: bool)
      requires Valid() && 0 <= key < KEY_COUNT
      reads this, keys
      ensures up == !IsKeyDown(key)
    {
      !keys[key]
    }

    function IsButtonDown(button: I32): bool
      requires Valid() && 0 <= button < KEY_COUNT
      reads this, buttons
    {
      buttons[button]
    }

    function IsButtonPressed(button: I32): (pressed: bool)
      requires Valid() && 0 <= button < KEY_COUNT
      reads this, buttons
      ensures pressed == IsButtonDown(button)
    {
      buttons[button]
    }

    function IsButtonUp(button: I32): (up: bool)
      requires Valid() && 0 <= button < KEY_COUNT
      reads this, buttons
      ensures up == !IsButtonDown(button)
    {
      !buttons[button]
    }

    /**
     * Run: Load only after Initialize succeeds, and frames only after both; the
     * window stays open for framesBeforeClose frames. Each frame resets the
     * input around the window's centre; event polling and the derived class's
     * Update and Render are not modelled.
     */
    method Run(initialized: bool, loaded: bool, framesBeforeClose: nat) returns (loadCalled: bool, framesRun: nat)
      modifies this`deltaPosition, this`cursorPosition
      ensures loadCalled == initialized
      ensures framesRun == if initialized && loaded then framesBeforeClose else 0
      ensures framesRun > 0 ==>
        && deltaPosition == ORIGIN
        && cursorPosition == (if isCaptured then Float2(width as real / 2.0, height as real / 2.0) else old(cursorPosition))
      ensures framesRun == 0 ==> deltaPosition == old(deltaPosition) && cursorPosition == old(cursorPosition)
    {
      loadCalled, framesRun := false, 0;
      if !initialized {
        return;
      }
      loadCalled := true;
      if !loaded {
        return;
      }
      while framesRun < framesBeforeClose
        invariant framesRun <= framesBeforeClose
        invariant framesRun > 0 ==>
          && deltaPosition == ORIGIN
          && cursorPosition == (if isCaptured then Float2(width as real / 2.0, height as real / 2.0) else old(cursorPosition))
        invariant framesRun == 0 ==> deltaPosition == old(deltaPosition) && cursorPosition == old(cursorPosition)
        decreases framesBeforeClose - framesRun
      {
        UpdateInput(width as real / 2.0, height as real / 2.0);
        framesRun := framesRun + 1;
      }
    }
  }

  /** ApplicationWithInput: its own flags, callbacks and Initialize. */
  class ApplicationWithInput {
    const keys: array<bool>
    const buttons: array<bool>
    var isCaptured: bool
    var deltaPosition: Float2
    var cursorPosition: Float2

    ghost predicate Valid()
      reads this
    {
      keys.Length == KEY_COUNT && buttons.Length == KEY_COUNT && keys != buttons
    }

    /** Every key and button up, positions at the origin, and the cursor never captured. */
    constructor ()
      ensures Valid() && fresh(keys) && fresh(buttons) && !isCaptured
      ensures forall k :: 0 <= k < KEY_COUNT ==> IsKeyUp(k) && IsButtonUp(k)
      ensures deltaPosition == ORIGIN && cursorPosition == ORIGIN
    {
      keys := new bool[KEY_COUNT](_ => false);
      buttons := new bool[KEY_COUNT](_ => false);
      isCaptured := false;
      deltaPosition, cursorPosition := ORIGIN, ORIGIN;
    }

    /** The base class's result is dropped: Initialize reports success whatever it was. */
    method Initialize(baseInitialized: bool) returns (ok: bool)
      ensures ok
    {
      ok := true;
    }

    method OnKey(key: I32, action: I32)
      requires Valid() && 0 <= key < KEY_COUNT
      modifies keys
      ensures keys[key] == KeyState(old(keys[key]), action)
      ensures forall k :: 0 <= k < KEY_COUNT && k != key ==> keys[k] == old(keys[k])
    {
      if action == PRESS {
        keys[key] := true;
      } else if action == RELEASE {
        keys[key] := false;
      }
    }

    method OnMouseButton(button: I32, action: I32)
      requires Valid() && 0 <= button < KEY_COUNT
      modifies buttons
      ensures buttons[button] == KeyState(old(buttons[button]), action)
      ensures forall k :: 0 <= k < KEY_COUNT && k != button ==> buttons[k] == old(buttons[k])
    {
      if action == PRESS {
        buttons[button] := true;
      } else if action == RELEASE {
        buttons[button] := false;
      }
    }

    method OnMouseMove(x: real, y: real)
      modifies this`deltaPosition, this`cursorPosition
      ensures cursorPosition == Float2(x, y)
      ensures old(cursorPosition).x + deltaPosition.x == x && old(cursorPosition).y + deltaPosition.y == y
    {
      deltaPosition := Float2(x - cursorPosition.x, y - cursorPosition.y);
      cursorPosition := Float2(x, y);
    }

    method UpdateInput(centerX: real, centerY: real)
      modifies this`deltaPosition, this`cursorPosition
      ensures deltaPosition == ORIGIN
      ensures cursorPosition == if isCaptured then Float2(centerX, centerY) else old(cursorPosition)
    {
      deltaPosition := ORIGIN;
      if isCaptured {
        cursorPosition := Float2(centerX, centerY);
      }
    }

    /** The frame update resets the input around (0, 0); the flags are not touched. */
    method Update()
      modifies this`deltaPosition, this`cursorPosition
      ensures deltaPosition == ORIGIN
      ensures cursorPosition == if isCaptured then ORIGIN else old(cursorPosition)
    {
      UpdateInput(0.0, 0.0);
    }

    function IsKeyDown(key: I32): bool
      requires Valid() && 0 <= key < KEY_COUNT
      reads this, keys
    {
      keys[key]
    }

    function IsKeyPressed(key: I32): (pressed: bool)
      requires Valid() && 0 <= key < KEY_COUNT
      reads this, keys
      ensures pressed == IsKeyDown(key)
    {
      keys[key]
    }

    function IsKeyUp(key: I32): (up: bool)
      requires Valid() && 0 <= key < KEY_COUNT
      reads this, keys
      ensures up == !IsKeyDown(key)
    {
      !keys[key]
    }

    function IsButtonDown(button: I32): bool
      requires Valid() && 0 <= button < KEY_COUNT
      reads this, buttons
    {
      buttons[button]
    }

    function IsButtonPressed(button: I32): (pressed: bool)
      requires Valid() && 0 <= button < KEY_COUNT
      reads this, buttons
      ensures pressed == IsButtonDown(button)
    {
      buttons[button]
    }

    function IsButtonUp(button: I32): (up: bool)
      requires Valid() && 0 <= button < KEY_COUNT
      reads this, buttons
      ensures up == !IsButtonDown(button)
    {
      !buttons[button]
    }
  }

  /**
   * Key flags persist across frames: a key pressed before a frame's Update is
   * still down after it, and the cursor is never moved since nothing captures it.
   */
  method KeyHeldAcrossFrames(app: ApplicationWithInput, key: I32)
    requires app.Valid() && 0 <= key < KEY_COUNT && !app.isCaptured
    modifies app.keys, app`deltaPosition, app`cursorPosition
    ensures app.IsKeyDown(key) && app.IsKeyPressed(key) && !app.IsKeyUp(key)
    ensures app.cursorPosition == old(app.cursorPosition)
  {
    app.OnKey(key, PRESS);
    app.Update();
    app.Update();
  }
}
