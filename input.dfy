/// src/toolbox/input.rs: the keyboard and mouse state the window's event
/// handlers update and the camera queries.
module InputState {

  /** A key, by its window-system key code. */
  type Key = int

  /** What happened to a key or a button. */
  datatype Action = Press | Release | Repeat

  /** A mouse button: the left and right buttons, or any other by its number. */
  datatype MouseButton = Left | Right | Other(number: nat)

  ghost predicate NoDuplicates(keys: seq<Key>)
  {
    forall i, j :: 0 <= i < j < |keys| ==> keys[i] != keys[j]
  }

  /** `retain(|&x| x != key)`: the keys other than `key`, in their order. */
  function Remove(keys: seq<Key>, key: Key): (r: seq<Key>)
    ensures forall x :: x in r <==> x in keys && x != key
    ensures |r| <= |keys|
    decreases |keys|
  {
    if keys == [] then []
    else if keys[0] == key then Remove(keys[1..], key)
    else [keys[0]] + Remove(keys[1..], key)
  }

  /** Removing a key keeps the list free of duplicates. */
  lemma {:induction false} RemoveNoDuplicates(keys: seq<Key>, key: Key)
    requires NoDuplicates(keys)
    ensures NoDuplicates(Remove(keys, key))
    decreases |keys|
  {
    if keys != [] {
      var rest := keys[1..];
      assert NoDuplicates(rest) by {
        forall i, j | 0 <= i < j < |rest| ensures rest[i] != rest[j] {
          assert rest[i] == keys[i + 1] && rest[j] == keys[j + 1];
        }
      }
      RemoveNoDuplicates(rest, key);
      if keys[0] != key {
        var r := Remove(keys, key);
        assert keys[0] !in rest;
        forall i, j | 0 <= i < j < |r| ensures r[i] != r[j] {
          if i == 0 {
            assert r[j] in Remove(rest, key);
          } else {
            assert r[i] == Remove(rest, key)[i - 1] && r[j] == Remove(rest, key)[j - 1];
          }
        }
      }
    }
  }

  /** The key list after `key_handler(action, key)`. */
  function KeysAfter(keys: seq<Key>, action: Action, key: Key): seq<Key>
  {
    match action
    case Press => if key in keys then keys else keys + [key]
    case Release => Remove(keys, key)
    case Repeat => keys
  }

  /** After an event, `key` is held exactly when it was pressed, or was
      already held and the event is a repeat; every other key is as before. */
  lemma KeysAfterQuery(keys: seq<Key>, action: Action, key: Key, k: Key)
    ensures k in KeysAfter(keys, action, key) <==>
      if k == key then action == Press || (action == Repeat && k in keys) else k in keys
  {
  }

  /** The key list never holds a key twice. */
  lemma {:induction false} KeysAfterNoDuplicates(keys: seq<Key>, action: Action, key: Key)
    requires NoDuplicates(keys)
    ensures NoDuplicates(KeysAfter(keys, action, key))
  {
    if action == Release {
      RemoveNoDuplicates(keys, key);
    }
    if action == Press && key !in keys {
      var r := keys + [key];
      forall i, j | 0 <= i < j < |r| ensures r[i] != r[j] {
        if j == |keys| {
          assert r[i] == keys[i];
        }
      }
    }
  }

  /** A button's state after an event: Press sets it, Release clears it. */
  function ButtonAfter(held: bool, action: Action): bool
  {
    match action
    case Press => true
    case Release => false
    case Repeat => held
  }

  class Input {
    var keyboard: seq<Key>
    var mousePos: (real, real)
    var dMousePos: (real, real)
    var leftButton: bool
    var rightButton: bool

    ghost predicate Valid()
      reads this
    {
      NoDuplicates(keyboard)
    }

    /** `Input::new`: no key held, the mouse at the origin and at rest, both
        buttons released. */
    constructor ()
      ensures Valid()
      ensures keyboard == [] && mousePos == (0.0, 0.0) && dMousePos == (0.0, 0.0)
      ensures !leftButton && !rightButton
    {
      keyboard := [];
      mousePos := (0.0, 0.0);
      dMousePos := (0.0, 0.0);
      leftButton := false;
      rightButton := false;
    }

    /** `key_handler`: Press adds the key when it is not held yet, Release
        removes it, anything else changes nothing. */
    method KeyHandler(action: Action, key: Key)
      requires Valid()
      modifies this`keyboard
      ensures Valid()
      ensures keyboard == KeysAfter(old(keyboard), action, key)
    {
      KeysAfterNoDuplicates(keyboard, action, key);
      if action == Press {
        if key !in keyboard {
          keyboard := keyboard + [key];
        }
      } else if action == Release {
        keyboard := Remove(keyboard, key);
      }
    }

    /** `set_mouse_pos`: the delta is the move from the previous position. */
    method SetMousePos(x: real, y: real)
      modifies this`mousePos, this`dMousePos
      ensures mousePos == (x, y)
      ensures dMousePos == (x - old(mousePos).0, y - old(mousePos).1)
      ensures old(mousePos).0 + dMousePos.0 == x && old(mousePos).1 + dMousePos.1 == y
    {
      dMousePos := (x - mousePos.0, y - mousePos.1);
      mousePos := (x, y);
    }

    /** `mouse_button_handler`: only the left and right flags are kept, each
        changed only by its own button. */
    method MouseButtonHandler(action: Action, button: MouseButton)
      modifies this`leftButton, this`rightButton
      ensures leftButton == if button == Left then ButtonAfter(old(leftButton), action) else old(leftButton)
      ensures rightButton == if button == Right then ButtonAfter(old(rightButton), action) else old(rightButton)
    {
      match button {
        case Left =>
          if action == Press {
            leftButton := true;
          } else if action == Release {
            leftButton := false;
          }
        case Right =>
          if action == Press {
            rightButton := true;
          } else if action == Release {
            rightButton := false;
          }
        case Other(_) =>
      }
    }

    /** `is_key_pressed`. */
    function IsKeyPressed(key: Key): (r: bool)
      reads this
      ensures r <==> exists i :: 0 <= i < |keyboard| && keyboard[i] == key
    {
      key in keyboard
    }

    /** `is_mouse_button_pressed`: buttons other than left and right always
        report released. */
    function IsMouseButtonPressed(button: MouseButton): (r: bool)
      reads this
      ensures r ==> button == Left || button == Right
      ensures button == Left ==> r == leftButton
      ensures button == Right ==> r == rightButton
    {
      match button
      case Left => leftButton
      case Right => rightButton
      case Other(_) => false
    }
  }

  /** Pressing a key and then querying it reports it held; releasing it then
      reports it released, and no other key's state changes. */
  method PressThenRelease(input: Input, key: Key, other: Key)
    requires input.Valid() && other != key
    modifies input
    ensures input.Valid()
    ensures !input.IsKeyPressed(key)
    ensures input.IsKeyPressed(other) == old(input.IsKeyPressed(other))
  {
    input.KeyHandler(Press, key);
    KeysAfterQuery(old(input.keyboard), Press, key, other);
    assert input.IsKeyPressed(key);
    ghost var held := input.keyboard;
    input.KeyHandler(Release, key);
    KeysAfterQuery(held, Release, key, key);
    KeysAfterQuery(held, Release, key, other);
  }
}
