/** The input handler object: it keeps the key map, the held-key table and the last mouse
    position, and drives a Camera from key, mouse and per-frame events. Each handler method
    is proved to do what the matching function of HandlerModel says. */
module InputHandlers {
  import opened Glm
  import opened CameraModel
  import opened KeyInputs
  import opened HandlerModel
  import opened Cameras

  /** A key event: the key's name and the flag that handlers set once they used the event. */
  class KeyEvent {
    const key: string
    var handled: bool

    constructor (key: string)
      ensures this.key == key && !handled
    {
      this.key := key;
      handled := false;
    }
  }

  /** A mouse move event: the cursor position and the buttons pressed. */
  class MouseMoveEvent {
    const pos: Vec2
    const buttons: set<int>
    var handled: bool

    constructor (pos: Vec2, buttons: set<int>)
      ensures this.pos == pos && this.buttons == buttons && !handled
    {
      this.pos := pos;
      this.buttons := buttons;
      handled := false;
    }
  }

  /** A mouse wheel event: the wheel's (horizontal, vertical) delta. */
  class MouseWheelEvent {
    const delta: Vec2
    var handled: bool

    constructor (delta: Vec2)
      ensures this.delta == delta && !handled
    {
      this.delta := delta;
      handled := false;
    }
  }

  /** The constructor's loop over the enum: every member, once, mapped to False. */
  method ReleasedTable() returns (table: map<Action, bool>)
    ensures table == AllReleased
  {
    table := map[];
    var i := 0;
    while i < |AllActions|
      invariant 0 <= i <= |AllActions|
      invariant forall a :: a in table <==> a in AllActions[..i]
      invariant forall a :: a in table ==> !table[a]
    {
      assert AllActions[..i + 1] == AllActions[..i] + [AllActions[i]];
      table := table[AllActions[i] := false];
      i := i + 1;
    }
    assert AllActions[..i] == AllActions;
  }

  class CameraInputHandler {
    const camera: Camera
    var keyMap: map<string, Action>
    var keyDown: map<Action, bool>
    var enableMouseRotation: bool
    var enableMousePan: bool
    var enableMouseZoom: bool
    var rotateMouseButton: int
    var panMouseButton: int
    var prevMousePos: Vec2

    /** The held-key table has an entry for every action and never holds the mode switch. */
    ghost predicate Valid()
      reads this
    {
      HeldTable(keyDown)
    }

    /** The mouse configuration as one value. */
    function Bindings(): MouseBindings
      reads this
    {
      MouseBindings(enableMouseRotation, enableMousePan, enableMouseZoom,
                    rotateMouseButton, panMouseButton)
    }

    /** A missing or empty key map selects the default one; every action starts released. */
    constructor (camera: Camera, keyMap: Option<map<string, Action>> := None,
                 enableMouseRotation: bool := true, enableMousePan: bool := true,
                 enableMouseZoom: bool := true, rotateMouseButton: int := 1,
                 panMouseButton: int := 3)
      ensures Valid()
      ensures this.camera == camera && this.keyMap == ChooseKeyMap(keyMap)
      ensures keyDown == AllReleased
      ensures Bindings() == MouseBindings(enableMouseRotation, enableMousePan, enableMouseZoom,
                                          rotateMouseButton, panMouseButton)
      ensures prevMousePos == Zero2
    {
      this.camera := camera;
      if keyMap.Some? && keyMap.value != map[] {
        this.keyMap := keyMap.value;
      } else {
        this.keyMap := DefaultKeyMap;
      }
      var table := ReleasedTable();
      keyDown := table;
      this.enableMouseRotation := enableMouseRotation;
      this.enableMousePan := enableMousePan;
      this.enableMouseZoom := enableMouseZoom;
      this.rotateMouseButton := rotateMouseButton;
      this.panMouseButton := panMouseButton;
      prevMousePos := Zero2;
      new;
      AllReleasedIsHeldTable();
    }

    /** on_key_pressed. */
    method OnKeyPressed(event: KeyEvent)
      requires Valid()
      modifies this`keyDown, camera`mode, event`handled
      ensures Valid()
      ensures var o := KeyPressed(keyMap, old(keyDown), old(camera.mode), old(event.handled), event.key);
        keyDown == o.keyDown && camera.mode == o.mode && event.handled == o.handled
      ensures camera.State() == old(camera.State()).(mode := camera.mode)
    {
      if !event.handled && event.key in keyMap {
        if keyMap[event.key] == SwitchInputMode {
          camera.mode := (camera.mode + 1) % 2;
        } else {
          keyDown := keyDown[keyMap[event.key] := true];
        }
        event.handled := true;
      }
    }

    /** on_key_released. */
    method OnKeyReleased(event: KeyEvent)
      requires Valid()
      modifies this`keyDown, event`handled
      ensures Valid()
      ensures var o := KeyReleased(keyMap, old(keyDown), camera.mode, old(event.handled), event.key);
        keyDown == o.keyDown && event.handled == o.handled
    {
      if !event.handled && event.key in keyMap {
        keyDown := keyDown[keyMap[event.key] := false];
        event.handled := true;
      }
    }

    /** on_mouse_move: an unhandled event records the cursor position and, when rotation or
        pan is active, hands the cursor's travel to the camera and handles the event. */
    method OnMouseMove(event: MouseMoveEvent)
      requires Valid()
      modifies this`prevMousePos, camera, event`handled
      ensures old(event.handled) ==>
        prevMousePos == old(prevMousePos) && camera.State() == old(camera.State()) && event.handled
      ensures !old(event.handled) ==>
        var route := MouseRoute(Bindings(), keyDown, event.buttons);
        prevMousePos == event.pos &&
        camera.State() == ApplyAll(old(camera.State()), MouseInputs(route, Sub2(event.pos, old(prevMousePos)))) &&
        event.handled == (route != Ignored)
    {
      if !event.handled {
        var mouseDelta := Sub2(event.pos, prevMousePos);
        prevMousePos := event.pos;
        ghost var route := MouseRoute(Bindings(), keyDown, event.buttons);
        if enableMouseRotation && (rotateMouseButton in event.buttons || keyDown[EnableMouseRotation]) {
          assert route == ToRotation;
          MouseDrive(ToRotation, mouseDelta);
          event.handled := true;
        } else if enableMousePan && (panMouseButton in event.buttons || keyDown[EnableMousePan]) {
          assert route == ToPan;
          MouseDrive(ToPan, mouseDelta);
          event.handled := true;
        } else {
          assert route == Ignored;
          assert MouseInputs(route, mouseDelta) == [];
        }
      }
    }

    /** The camera calls of a routed mouse move: rotateH(-dx), rotateV(-dy) to rotate, panH(-dx),
        panV(dy) to pan. */
    method MouseDrive(route: Route, mouseDelta: Vec2)
      requires route != Ignored
      modifies camera
      ensures camera.State() == ApplyAll(old(camera.State()), MouseInputs(route, mouseDelta))
    {
      ghost var s := camera.State();
      if route == ToRotation {
        camera.RotateH(-mouseDelta.x);
        camera.RotateV(-mouseDelta.y);
        ApplyTwo(s, RotateH(-mouseDelta.x), RotateV(-mouseDelta.y));
      } else {
        camera.PanH(-mouseDelta.x);
        camera.PanV(mouseDelta.y);
        ApplyTwo(s, PanH(-mouseDelta.x), PanV(mouseDelta.y));
      }
    }

    /** on_mouse_wheel: an unhandled event zooms by ten times the vertical wheel delta when
        wheel zoom is enabled. */
    method OnMouseWheel(event: MouseWheelEvent)
      modifies camera, event`handled
      ensures camera.State() == ApplyAll(old(camera.State()), WheelInputs(Bindings(), old(event.handled), event.delta))
      ensures event.handled == (old(event.handled) || enableMouseZoom)
    {
      if !event.handled && enableMouseZoom {
        camera.Zoom(event.delta.y * 10.0);
        event.handled := true;
      }
    }

    /** changeMovementSpeed. */
    method ChangeMovementSpeed(change: real)
      modifies camera
      ensures camera.State() == HandlerModel.ChangeMovementSpeed(old(camera.State()), change)
    {
      camera.moveSpeed := camera.moveSpeed + change * 0.025 * (camera.moveSpeed + FloatMin);
      camera.panSpeed := camera.panSpeed + change * 0.025 * (camera.panSpeed + FloatMin);
      camera.zoomSpeed := camera.zoomSpeed + change * 0.025 * (camera.zoomSpeed + FloatMin);
    }

    /** on_draw: once per frame, the camera calls of every held key, in a fixed order. The
        tests are grouped as in HandlerModel.OnDraw. */
    method OnDraw(deltaTime: real)
      requires Valid()
      modifies camera
      ensures camera.State() == HandlerModel.OnDraw(old(camera.State()), keyDown, deltaTime)
    {
      DrawSpeedKeys(deltaTime);
      DrawMoveKeys(deltaTime);
      DrawModifierKeys();
      DrawRotationKeys(deltaTime);
      DrawPanKeys(deltaTime);
    }

    method DrawSpeedKeys(deltaTime: real)
      requires Valid()
      modifies camera
      ensures camera.State() == DrawSpeed(old(camera.State()), keyDown, deltaTime)
    {
      if keyDown[IncreaseSpeed] {
        ChangeMovementSpeed(20.0 * deltaTime);
      }
      if keyDown[DecreaseSpeed] {
        ChangeMovementSpeed(-20.0 * deltaTime);
      }
    }

    method DrawMoveKeys(deltaTime: real)
      requires Valid()
      modifies camera
      ensures camera.State() == DrawMoves(old(camera.State()), keyDown, deltaTime)
    {
      Poll(MoveBackward, MoveZ(20.0 * deltaTime));
      Poll(MoveForward, MoveZ(-20.0 * deltaTime));
      Poll(MoveRight, MoveX(20.0 * deltaTime));
      Poll(MoveLeft, MoveX(-20.0 * deltaTime));
      Poll(MoveUp, MoveY(20.0 * deltaTime));
      Poll(MoveDown, MoveY(-20.0 * deltaTime));
    }

    method DrawModifierKeys()
      requires Valid()
      modifies camera
      ensures camera.State() == DrawModifiers(old(camera.State()), keyDown)
    {
      if keyDown[MoveFast] {
        camera.movementSpeedMod := camera.movementSpeedMod * 2.0;
      }
      if keyDown[MoveSlow] {
        camera.movementSpeedMod := camera.movementSpeedMod * 0.5;
      }
    }

    method DrawRotationKeys(deltaTime: real)
      requires Valid()
      modifies camera
      ensures camera.State() == DrawRotations(old(camera.State()), keyDown, deltaTime)
    {
      Poll(RotateUp, RotateV(60.0 * deltaTime));
      Poll(RotateDown, RotateV(-60.0 * deltaTime));
      Poll(RotateRight, RotateH(-60.0 * deltaTime));
      Poll(RotateLeft, RotateH(60.0 * deltaTime));
    }

    method DrawPanKeys(deltaTime: real)
      requires Valid()
      modifies camera
      ensures camera.State() == DrawPans(old(camera.State()), keyDown, deltaTime)
    {
      Poll(PanUp, PanV(60.0 * deltaTime));
      Poll(PanDown, PanV(-60.0 * deltaTime));
      Poll(PanRight, PanH(60.0 * deltaTime));
      Poll(PanLeft, PanH(-60.0 * deltaTime));
      Poll(ZoomIn, PanH(1.0 * deltaTime));
      Poll(ZoomOut, PanH(-1.0 * deltaTime));
    }

    /** One test of on_draw: when the key is held, the camera input method is called. */
    method Poll(key: Action, i: Input)
      requires Valid()
      modifies camera
      ensures camera.State() == When(old(camera.State()), keyDown[key], i)
    {
      if keyDown[key] {
        match i
        case RotateH(d) => camera.RotateH(d);
        case RotateV(d) => camera.RotateV(d);
        case MoveX(d) => camera.MoveX(d);
        case MoveY(d) => camera.MoveY(d);
        case MoveZ(d) => camera.MoveZ(d);
        case PanH(d) => camera.PanH(d);
        case PanV(d) => camera.PanV(d);
        case Zoom(d) => camera.Zoom(d);
      }
    }
  }
}
