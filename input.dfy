/**
 * The per-frame input trackers of the window chapters: a keyboard and a mouse
 * that collect GLFW events into sets which every frame clears, and the Input
 * object that forwards each event to both.
 */
module InputTrackers {
  import opened Ints

  /** GLFW's action codes. */
  const RELEASE: I32 := 0
  const PRESS: I32 := 1
  const REPEAT: I32 := 2

  /** A two-component float vector, with the floats as reals. */
  datatype Float2 = Float2(x: real, y: real)

  const ORIGIN: Float2 := Float2(0.0, 0.0)

  /** Whether a key is held after an event, for trackers that keep one flag per key. */
  function KeyState(down: bool, action: I32): (after: bool)
    ensures action == PRESS ==> after
    ensures action == RELEASE ==> !after
    ensures action != PRESS && action != RELEASE ==> after == down
  {
    if action == PRESS then true else if action == RELEASE then false else down
  }

  /** The state of a key after a run of events depends only on the last PRESS or RELEASE among them. */
  lemma {:induction false} KeyStateAfterEvents(down: bool, actions: seq<I32>, last: nat)
    requires last < |actions| && (actions[last] == PRESS || actions[last] == RELEASE)
    requires forall i :: last < i < |actions| ==> actions[i] != PRESS && actions[i] != RELEASE
    ensures KeyStates(down, actions) == (actions[last] == PRESS)
    decreases |actions|
  {
    if last == |actions| - 1 {
    } else {
      KeyStateAfterEvents(down, actions[..|actions| - 1], last);
      assert actions[..|actions| - 1][last] == actions[last];
    }
  }

  /** A key's state after a run of events, in order. */
  function KeyStates(down: bool, actions: seq<I32>): bool
    decreases |actions|
  {
    if actions == [] then down else KeyState(KeyStates(down, actions[..|actions| - 1]), actions[|actions| - 1])
  }

  class Keyboard {
    var keysDown: set<I32>
    var keysPressed: set<I32>
    var keysUp: set<I32>
    var keysReleased: set<I32>

    /** No event has ever put a key into the up set. */
    ghost predicate Valid()
      reads this
    {
      keysUp == {}
    }

    constructor ()
      ensures Valid()
      ensures keysDown == {} && keysPressed == {} && keysReleased == {}
    {
      keysDown, keysPressed, keysUp, keysReleased := {}, {}, {}, {};
    }

    function IsKeyDown(key: I32): bool
      reads this
    {
      key in keysDown
    }

    function IsKeyPressed(key: I32): bool
      reads this
    {
      key in keysPressed
    }

    /** Nothing is ever inserted into the up set, so no key is ever reported up. */
    function IsKeyUp(key: I32): (up: bool)
      requires Valid()
      reads this
      ensures !up
    {
      key in keysUp
    }

    /** A press marks the key pressed and down; a release marks it released and not down; other actions do nothing. */
    method HandleKey(key: I32, action: I32)
      requires Valid()
      modifies this
      ensures Valid()
      ensures action == PRESS ==>
        keysPressed == old(keysPressed) + {key} && keysDown == old(keysDown) + {key} && keysReleased == old(keysReleased)
      ensures action == RELEASE ==>
        keysReleased == old(keysReleased) + {key} && keysDown == old(keysDown) - {key} && keysPressed == old(keysPressed)
      ensures action != PRESS && action != RELEASE ==>
        keysDown == old(keysDown) && keysPressed == old(keysPressed) && keysReleased == old(keysReleased)
    {
      if action == PRESS {
        keysPressed := keysPressed + {key};
        keysDown := keysDown + {key};
      } else if action == RELEASE {
        keysReleased := keysReleased + {key};
        keysDown := keysDown - {key};
      }
    }

    /** The end of a frame: all four sets are emptied. */
    method Update()
      modifies this
      ensures Valid()
      ensures keysDown == {} && keysPressed == {} && keysReleased == {}
    {
      keysDown := {};
      keysUp := {};
      keysPressed := {};
      keysReleased := {};
    }
  }

  /** A press and a release of one key in the same frame: pressed and released are both seen, and the key is not down. */
  method PressAndReleaseInOneFrame(keyboard: Keyboard, key: I32)
    requires keyboard.Valid()
    modifies keyboard
    ensures keyboard.Valid()
    ensures keyboard.IsKeyPressed(key) && key in keyboard.keysReleased && !keyboard.IsKeyDown(key)
    ensures !keyboard.IsKeyUp(key)
  {
    keyboard.HandleKey(key, PRESS);
    keyboard.HandleKey(key, RELEASE);
  }

  class Mouse {
    var buttonsDown: set<I32>
    var buttonsPressed: set<I32>
    var buttonsUp: set<I32>
    var cursorPosition: Float2
    var deltaPosition: Float2
    var isCaptured: bool

    /** Empty sets, both positions at the origin, and the cursor not captured. */
    constructor ()
      ensures buttonsDown == {} && buttonsPressed == {} && buttonsUp == {}
      ensures cursorPosition == ORIGIN && deltaPosition == ORIGIN && !isCaptured
    {
      buttonsDown, buttonsPressed, buttonsUp := {}, {}, {};
      cursorPosition, deltaPosition := ORIGIN, ORIGIN;
      isCaptured := false;
    }

    /** A press marks the button pressed and down; a release marks it up and not down; other actions do nothing. */
    method HandleButton(button: I32, action: I32)
      modifies this`buttonsDown, this`buttonsPressed, this`buttonsUp
      ensures action == PRESS ==>
        buttonsPressed == old(buttonsPressed) + {button} && buttonsDown == old(buttonsDown) + {button} && buttonsUp == old(buttonsUp)
      ensures action == RELEASE ==>
        buttonsUp == old(buttonsUp) + {button} && buttonsDown == old(buttonsDown) - {button} && buttonsPressed == old(buttonsPressed)
      ensures action != PRESS && action != RELEASE ==>
        buttonsDown == old(buttonsDown) && buttonsPressed == old(buttonsPressed) && buttonsUp == old(buttonsUp)
    {
      if action == PRESS {
        buttonsPressed := buttonsPressed + {button};
        buttonsDown := buttonsDown + {button};
      } else if action == RELEASE {
        buttonsUp := buttonsUp + {button};
        buttonsDown := buttonsDown - {button};
      }
    }

    /** The cursor moves to (x, y) and the delta is the step from where it was. */
    method HandleMouseMove(x: real, y: real)
      modifies this`cursorPosition, this`deltaPosition
      ensures cursorPosition == Float2(x, y)
      ensures old(cursorPosition).x + deltaPosition.x == x && old(cursorPosition).y + deltaPosition.y == y
    {
      deltaPosition := Float2(x - cursorPosition.x, y - cursorPosition.y);
      cursorPosition := Float2(x, y);
    }

    /** Capturing the cursor; the GLFW cursor mode is not modelled. */
    method HideCursor()
      modifies this`isCaptured
      ensures isCaptured
    {
      isCaptured := true;
    }

    method ShowCursor()
      modifies this`isCaptured
      ensures !isCaptured
    {
      isCaptured := false;
    }

    function IsButtonDown(button: I32): bool
      reads this
    {
      button in buttonsDown
    }

    function IsButtonPressed(button: I32): bool
      reads this
    {
      button in buttonsPressed
    }

    function IsButtonUp(button: I32): bool
      reads this
    {
      button in buttonsUp
    }

    /** The end of a frame: the sets are emptied, the delta zeroed, and a captured cursor put back at the centre. */
    method Update(centerX: real, centerY: real)
      modifies this`buttonsDown, this`buttonsPressed, this`buttonsUp, this`deltaPosition, this`cursorPosition
      ensures buttonsDown == {} && buttonsPressed == {} && buttonsUp == {}
      ensures deltaPosition == ORIGIN
      ensures cursorPosition == if isCaptured then Float2(centerX, centerY) else old(cursorPosition)
    {
      buttonsDown := {};
      buttonsPressed := {};
      buttonsUp := {};
      deltaPosition := ORIGIN;
      if isCaptured {
        cursorPosition := Float2(centerX, centerY);
      }
    }
  }

  /** The window's input: one keyboard and one mouse, each event handed to both. */
  class Input {
    const keyboard: Keyboard
    const mouse: Mouse

    ghost predicate Valid()
      reads this, keyboard
    {
      keyboard.Valid()
    }

    constructor ()
      ensures Valid() && fresh(keyboard) && fresh(mouse)
      ensures keyboard.keysDown == {} && keyboard.keysPressed == {} && keyboard.keysReleased == {}
      ensures mouse.buttonsDown == {} && mouse.buttonsPressed == {} && mouse.buttonsUp == {} && !mouse.isCaptured
    {
      keyboard := new Keyboard();
      mouse := new Mouse();
    }

    /**
     * A key or button event goes to the keyboard and to the mouse alike, so a
     * press registers as a pressed key and a pressed button with the same code.
     */
    method HandleKeyPressed(key: I32, action: I32)
      requires Valid()
      modifies keyboard, mouse`buttonsDown, mouse`buttonsPressed, mouse`buttonsUp
      ensures Valid()
      ensures action == PRESS ==> keyboard.IsKeyPressed(key) && mouse.IsButtonPressed(key) && keyboard.IsKeyDown(key) && mouse.IsButtonDown(key)
      ensures action == RELEASE ==> !keyboard.IsKeyDown(key) && !mouse.IsButtonDown(key) && mouse.IsButtonUp(key)
      ensures action != PRESS && action != RELEASE ==>
        keyboard.keysDown == old(keyboard.keysDown) && keyboard.keysPressed == old(keyboard.keysPressed) &&
        mouse.buttonsDown == old(mouse.buttonsDown) && mouse.buttonsPressed == old(mouse.buttonsPressed)
      ensures forall other :: other != key ==>
        (keyboard.IsKeyDown(other) <==> old(keyboard.IsKeyDown(other))) && (mouse.IsButtonDown(other) <==> old(mouse.IsButtonDown(other)))
    {
      keyboard.HandleKey(key, action);
      mouse.HandleButton(key, action);
    }

    /** Cursor movement goes to the mouse only; the keyboard is untouched. */
    method HandleMouseMove(x: real, y: real)
      modifies mouse`cursorPosition, mouse`deltaPosition
      ensures mouse.cursorPosition == Float2(x, y)
      ensures old(mouse.cursorPosition).x + mouse.deltaPosition.x == x && old(mouse.cursorPosition).y + mouse.deltaPosition.y == y
      ensures unchanged(keyboard)
    {
      mouse.HandleMouseMove(x, y);
    }

    /** The end of a frame: the keyboard, then the mouse; afterwards nothing is down or pressed. */
    method Update(centerX: real, centerY: real)
      modifies keyboard, mouse`buttonsDown, mouse`buttonsPressed, mouse`buttonsUp, mouse`deltaPosition, mouse`cursorPosition
      ensures Valid()
      ensures forall code :: !keyboard.IsKeyDown(code) && !keyboard.IsKeyPressed(code) && !mouse.IsButtonDown(code) && !mouse.IsButtonPressed(code)
      ensures mouse.deltaPosition == ORIGIN
      ensures mouse.cursorPosition == if mouse.isCaptured then Float2(centerX, centerY) else old(mouse.cursorPosition)
    {
      keyboard.Update();
      mouse.Update(centerX, centerY);
    }
  }
}
