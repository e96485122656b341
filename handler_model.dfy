/** What the camera input handler does, as functions of values: key presses and releases on
    the held-key table, mouse routing, the speed rescaling and the per-frame poll of held keys,
    with the properties they guarantee. Module InputHandlers holds the object that follows them. */
module HandlerModel {
  import opened Glm
  import opened CameraModel
  import opened KeyInputs

  // ---------------------------------------------------------------------------------------
  // The key map and the held-key table

  /** A key map that is missing or empty is replaced by the default one. */
  function ChooseKeyMap(keyMap: Option<map<string, Action>>): (r: map<string, Action>)
    ensures keyMap.Some? && keyMap.value != map[] ==> r == keyMap.value
    ensures keyMap.None? || keyMap.value == map[] ==> r == DefaultKeyMap
    ensures r != map[]
  {
    if keyMap.Some? && keyMap.value != map[] then keyMap.value
    else assert "W" in DefaultKeyMap; DefaultKeyMap
  }

  /** The table the handler starts with: every action present and released. */
  const AllReleased: map<Action, bool> := map a | a in AllActions :: false

  /** Every action has an entry, and the mode switch is never recorded as held. */
  predicate HeldTable(keyDown: map<Action, bool>) {
    (forall a: Action :: a in keyDown) && !keyDown[SwitchInputMode]
  }

  lemma AllReleasedIsHeldTable()
    ensures HeldTable(AllReleased)
    ensures forall a :: a in AllReleased && !AllReleased[a]
  {
    forall a: Action ensures a in AllReleased {
      AllActionsComplete(a);
    }
  }

  /** What a key event leaves behind: the table, the camera's mode, the event's flag. */
  datatype KeyOutcome = KeyOutcome(keyDown: map<Action, bool>, mode: int, handled: bool)

  /** on_key_pressed: an unhandled event for a mapped key either toggles the mode (for the
      mode switch) or marks its action held, and is marked handled. The toggle is
      (mode + 1) % 2 with Python's %, which agrees with Dafny's for the divisor 2. */
  function KeyPressed(keyMap: map<string, Action>, keyDown: map<Action, bool>, mode: int,
                      handled: bool, key: string): KeyOutcome
  {
    if !handled && key in keyMap then
      if keyMap[key] == SwitchInputMode then KeyOutcome(keyDown, (mode + 1) % 2, true)
      else KeyOutcome(keyDown[keyMap[key] := true], mode, true)
    else KeyOutcome(keyDown, mode, handled)
  }

  /** on_key_released: an unhandled event for a mapped key marks its action released. */
  function KeyReleased(keyMap: map<string, Action>, keyDown: map<Action, bool>, mode: int,
                       handled: bool, key: string): KeyOutcome
  {
    if !handled && key in keyMap then KeyOutcome(keyDown[keyMap[key] := false], mode, true)
    else KeyOutcome(keyDown, mode, handled)
  }

  /** Key transitions: for an unhandled mapped key a press holds the action (or toggles the
      mode, leaving the table alone, for the mode switch), a release releases it, and both
      handle the event; a handled or unmapped event changes nothing. Both keep the table
      complete, with the mode switch never held. */
  lemma KeyTransitions(keyMap: map<string, Action>, keyDown: map<Action, bool>, mode: int,
                       handled: bool, key: string)
    requires HeldTable(keyDown)
    ensures var p := KeyPressed(keyMap, keyDown, mode, handled, key);
      var r := KeyReleased(keyMap, keyDown, mode, handled, key);
      HeldTable(p.keyDown) && HeldTable(r.keyDown) && r.mode == mode &&
      (handled || key !in keyMap ==> p == r == KeyOutcome(keyDown, mode, handled)) &&
      (!handled && key in keyMap ==>
         p.handled && r.handled &&
         r.keyDown[keyMap[key]] == false &&
         (forall a :: a != keyMap[key] ==> r.keyDown[a] == keyDown[a]) &&
         (keyMap[key] == SwitchInputMode ==> p.keyDown == keyDown && p.mode == (mode + 1) % 2) &&
         (keyMap[key] != SwitchInputMode ==>
            p.mode == mode && p.keyDown[keyMap[key]] &&
            (forall a :: a != keyMap[key] ==> p.keyDown[a] == keyDown[a])))
  {
  }

  /** Pressing and then releasing a key (two fresh events) restores the table it found, when
      its action was released; the mode switch instead changes the mode. */
  lemma PressThenRelease(keyMap: map<string, Action>, keyDown: map<Action, bool>, mode: int, key: string)
    requires HeldTable(keyDown) && key in keyMap && keyMap[key] != SwitchInputMode
    requires !keyDown[keyMap[key]]
    ensures var p := KeyPressed(keyMap, keyDown, mode, false, key);
      KeyReleased(keyMap, p.keyDown, p.mode, false, key) == KeyOutcome(keyDown, mode, true)
  {
    var a := keyMap[key];
    assert keyDown[a := true][a := false] == keyDown;
  }

  /** The mode switch is an involution on the two modes: two presses give back mode % 2, and
      any number of presses keeps the mode in {0, 1}. */
  lemma SwitchTwice(keyMap: map<string, Action>, keyDown: map<Action, bool>, mode: int, key: string)
    requires HeldTable(keyDown) && key in keyMap && keyMap[key] == SwitchInputMode
    ensures var p := KeyPressed(keyMap, keyDown, mode, false, key);
      var q := KeyPressed(keyMap, p.keyDown, p.mode, false, key);
      (p.mode == 0 || p.mode == 1) && q.mode == mode % 2 && q.keyDown == keyDown
  {
    var m := (mode + 1) % 2;
    if mode % 2 == 0 {
      assert m == 1;
    } else {
      assert m == 0;
    }
  }

  // ---------------------------------------------------------------------------------------
  // The mouse

  /** The handler's mouse configuration. */
  datatype MouseBindings = MouseBindings(
    enableRotation: bool, enablePan: bool, enableZoom: bool,
    rotateButton: int, panButton: int)

  datatype Route = ToRotation | ToPan | Ignored

  /** Rotation is active when enabled and its button is pressed or its modifier held; pan
      likewise; rotation is tried first. */
  function MouseRoute(b: MouseBindings, keyDown: map<Action, bool>, buttons: set<int>): Route
    requires HeldTable(keyDown)
  {
    if b.enableRotation && (b.rotateButton in buttons || keyDown[EnableMouseRotation]) then ToRotation
    else if b.enablePan && (b.panButton in buttons || keyDown[EnableMousePan]) then ToPan
    else Ignored
  }

  /** The camera calls a mouse delta is turned into: -dx, -dy to rotation, -dx, +dy to pan. */
  function MouseInputs(route: Route, delta: Vec2): seq<Input> {
    match route
    case ToRotation => [RotateH(-delta.x), RotateV(-delta.y)]
    case ToPan => [PanH(-delta.x), PanV(delta.y)]
    case Ignored => []
  }

  /** Routing: rotation wins whenever it is active, pan is used only when rotation is not, and
      a move is ignored exactly when neither is active. Rotation sends the negated delta, pan
      the negated x and the unchanged y. */
  lemma RoutePriority(b: MouseBindings, keyDown: map<Action, bool>, buttons: set<int>, delta: Vec2)
    requires HeldTable(keyDown)
    ensures var rotate := b.enableRotation && (b.rotateButton in buttons || keyDown[EnableMouseRotation]);
      var pan := b.enablePan && (b.panButton in buttons || keyDown[EnableMousePan]);
      var r := MouseRoute(b, keyDown, buttons);
      (r == ToRotation <==> rotate) && (r == ToPan <==> !rotate && pan) &&
      (r == Ignored <==> !rotate && !pan)
    ensures var r := MouseRoute(b, keyDown, buttons);
      (r == ToRotation ==> MouseInputs(r, delta) == [RotateH(-delta.x), RotateV(-delta.y)]) &&
      (r == ToPan ==> MouseInputs(r, delta) == [PanH(-delta.x), PanV(delta.y)]) &&
      (r == Ignored <==> MouseInputs(r, delta) == [])
  {
  }

  /** The two calls a routed mouse move makes, one after the other. */
  lemma ApplyTwo(s: CameraState, a: Input, b: Input)
    ensures ApplyAll(s, [a, b]) == Apply(Apply(s, a), b)
  {
    var one := [a, b][..1];
    assert one == [a];
    assert one[..0] == [];
    assert ApplyAll(s, one) == Apply(s, a);
  }

  /** The camera calls a wheel event is turned into. */
  function WheelInputs(b: MouseBindings, handled: bool, delta: Vec2): seq<Input> {
    if !handled && b.enableZoom then [Zoom(delta.y * 10.0)] else []
  }

  // ---------------------------------------------------------------------------------------
  // Speed changes

  /** sys.float_info.min, the smallest positive normal double. */
  const FloatMin: real := 2.2250738585072014e-308

  /** changeMovementSpeed on one speed: speed + change * 0.025 * (speed + FloatMin). */
  function Rescale(speed: real, change: real): real {
    RescaleBy(speed, change, FloatMin)
  }

  /** The same rescaling with any offset in place of FloatMin, so that the proofs below do
      not multiply by the 300-digit literal. */
  function RescaleBy(speed: real, change: real, eps: real): real {
    speed + change * 0.025 * (speed + eps)
  }

  /** changeMovementSpeed: the same rescaling on the move, pan and zoom speeds. */
  function ChangeMovementSpeed(s: CameraState, change: real): CameraState {
    s.(moveSpeed := Rescale(s.moveSpeed, change),
       panSpeed := Rescale(s.panSpeed, change),
       zoomSpeed := Rescale(s.zoomSpeed, change))
  }

  /** The rescaling is multiplicative in the speed shifted by FloatMin. */
  lemma RescaleShifted(speed: real, change: real)
    ensures Rescale(speed, change) + FloatMin == (speed + FloatMin) * (1.0 + 0.025 * change)
  {
    ShiftedBy(speed, change, FloatMin);
  }

  lemma ShiftedBy(speed: real, change: real, eps: real)
    ensures RescaleBy(speed, change, eps) + eps == (speed + eps) * (1.0 + 0.025 * change)
  {
  }

  lemma PositiveProduct(a: real, b: real)
    requires a > 0.0 && b > 0.0
    ensures a * b > 0.0
  {
  }

  /** A speed above -FloatMin strictly grows for a positive change and strictly shrinks for a
      negative one; a change above -40 keeps it above -FloatMin. A speed of exactly 0 does
      not stay at 0 under a negative change. */
  lemma RescaleMonotone(speed: real, change: real)
    requires speed > -FloatMin
    ensures change > 0.0 ==> Rescale(speed, change) > speed
    ensures change < 0.0 ==> Rescale(speed, change) < speed
    ensures change == 0.0 ==> Rescale(speed, change) == speed
    ensures change > -40.0 ==> Rescale(speed, change) > -FloatMin
    ensures speed == 0.0 && change < 0.0 ==> Rescale(speed, change) < 0.0
  {
    MonotoneBy(speed, change, FloatMin);
  }

  lemma MonotoneBy(speed: real, change: real, eps: real)
    requires eps > 0.0 && speed > -eps
    ensures change > 0.0 ==> RescaleBy(speed, change, eps) > speed
    ensures change < 0.0 ==> RescaleBy(speed, change, eps) < speed
    ensures change == 0.0 ==> RescaleBy(speed, change, eps) == speed
    ensures change > -40.0 ==> RescaleBy(speed, change, eps) > -eps
    ensures speed == 0.0 && change < 0.0 ==> RescaleBy(speed, change, eps) < 0.0
  {
    var x := speed + eps;
    assert RescaleBy(speed, change, eps) == speed + change * 0.025 * x;
    if change > 0.0 {
      PositiveProduct(change * 0.025, x);
    }
    if change < 0.0 {
      PositiveProduct(-change * 0.025, x);
    }
    if change > -40.0 {
      var f := 1.0 + 0.025 * change;
      ShiftedBy(speed, change, eps);
      assert RescaleBy(speed, change, eps) + eps == x * f;
      PositiveProduct(x, f);
    }
  }

  /** The three speeds keep their ratios once shifted by FloatMin: a change scales every
      shifted speed by the same factor, and no other field changes. */
  lemma SpeedRatiosKept(s: CameraState, change: real)
    ensures var r := ChangeMovementSpeed(s, change);
      var f := 1.0 + 0.025 * change;
      r.moveSpeed + FloatMin == (s.moveSpeed + FloatMin) * f &&
      r.panSpeed + FloatMin == (s.panSpeed + FloatMin) * f &&
      r.zoomSpeed + FloatMin == (s.zoomSpeed + FloatMin) * f &&
      r == s.(moveSpeed := r.moveSpeed, panSpeed := r.panSpeed, zoomSpeed := r.zoomSpeed)
  {
    RescaleShifted(s.moveSpeed, change);
    RescaleShifted(s.panSpeed, change);
    RescaleShifted(s.zoomSpeed, change);
  }

  // ---------------------------------------------------------------------------------------
  // The per-frame poll of held keys, in the order on_draw tests them

  /** One conditional call of on_draw. */
  function When(s: CameraState, held: bool, i: Input): CameraState {
    if held then Apply(s, i) else s
  }

  /** INCREASE_SPEED and DECREASE_SPEED: changeMovementSpeed(+-20 * dt). */
  function DrawSpeed(s: CameraState, keyDown: map<Action, bool>, dt: real): CameraState
    requires HeldTable(keyDown)
  {
    var s1 := if keyDown[IncreaseSpeed] then ChangeMovementSpeed(s, 20.0 * dt) else s;
    if keyDown[DecreaseSpeed] then ChangeMovementSpeed(s1, -20.0 * dt) else s1
  }

  /** The six move keys: moveZ, moveX, moveY by +-20 * dt. */
  function DrawMoves(s: CameraState, keyDown: map<Action, bool>, dt: real): CameraState
    requires HeldTable(keyDown)
  {
    var s1 := When(s, keyDown[MoveBackward], MoveZ(20.0 * dt));
    var s2 := When(s1, keyDown[MoveForward], MoveZ(-20.0 * dt));
    var s3 := When(s2, keyDown[MoveRight], MoveX(20.0 * dt));
    var s4 := When(s3, keyDown[MoveLeft], MoveX(-20.0 * dt));
    var s5 := When(s4, keyDown[MoveUp], MoveY(20.0 * dt));
    When(s5, keyDown[MoveDown], MoveY(-20.0 * dt))
  }

  /** MOVE_FAST doubles and MOVE_SLOW halves the speed modifier. */
  function DrawModifiers(s: CameraState, keyDown: map<Action, bool>): CameraState
    requires HeldTable(keyDown)
  {
    var s1 := if keyDown[MoveFast] then s.(movementSpeedMod := s.movementSpeedMod * 2.0) else s;
    if keyDown[MoveSlow] then s1.(movementSpeedMod := s1.movementSpeedMod * 0.5) else s1
  }

  /** The four rotation keys: rotateV, rotateH by +-60 * dt. */
  function DrawRotations(s: CameraState, keyDown: map<Action, bool>, dt: real): CameraState
    requires HeldTable(keyDown)
  {
    var s1 := When(s, keyDown[RotateUp], RotateV(60.0 * dt));
    var s2 := When(s1, keyDown[RotateDown], RotateV(-60.0 * dt));
    var s3 := When(s2, keyDown[RotateRight], RotateH(-60.0 * dt));
    When(s3, keyDown[RotateLeft], RotateH(60.0 * dt))
  }

  /** The four pan keys at +-60 * dt, then ZOOM_IN and ZOOM_OUT, which call panH at +-1 * dt. */
  function DrawPans(s: CameraState, keyDown: map<Action, bool>, dt: real): CameraState
    requires HeldTable(keyDown)
  {
    var s1 := When(s, keyDown[PanUp], PanV(60.0 * dt));
    var s2 := When(s1, keyDown[PanDown], PanV(-60.0 * dt));
    var s3 := When(s2, keyDown[PanRight], PanH(60.0 * dt));
    var s4 := When(s3, keyDown[PanLeft], PanH(-60.0 * dt));
    var s5 := When(s4, keyDown[ZoomIn], PanH(1.0 * dt));
    When(s5, keyDown[ZoomOut], PanH(-1.0 * dt))
  }

  /** on_draw(deltaTime). */
  function OnDraw(s: CameraState, keyDown: map<Action, bool>, dt: real): CameraState
    requires HeldTable(keyDown)
  {
    DrawPans(DrawRotations(DrawModifiers(DrawMoves(DrawSpeed(s, keyDown, dt), keyDown, dt), keyDown), keyDown, dt), keyDown, dt)
  }

  /** r differs from s at most in the two accumulators. */
  predicate InputsOnly(r: CameraState, s: CameraState) {
    r == s.(movementInput := r.movementInput, rotationInput := r.rotationInput)
  }

  /** Each conditional call touches only the accumulators. */
  lemma WhenInputsOnly(s: CameraState, held: bool, i: Input)
    ensures InputsOnly(When(s, held, i), s)
  {
    InputGating(s, i);
  }

  /** The move keys touch only the accumulators. */
  lemma MovesTouchInputsOnly(s: CameraState, keyDown: map<Action, bool>, dt: real)
    requires HeldTable(keyDown)
    ensures InputsOnly(DrawMoves(s, keyDown, dt), s)
  {
    var s1 := When(s, keyDown[MoveBackward], MoveZ(20.0 * dt));
    var s2 := When(s1, keyDown[MoveForward], MoveZ(-20.0 * dt));
    var s3 := When(s2, keyDown[MoveRight], MoveX(20.0 * dt));
    var s4 := When(s3, keyDown[MoveLeft], MoveX(-20.0 * dt));
    var s5 := When(s4, keyDown[MoveUp], MoveY(20.0 * dt));
    WhenInputsOnly(s, keyDown[MoveBackward], MoveZ(20.0 * dt));
    WhenInputsOnly(s1, keyDown[MoveForward], MoveZ(-20.0 * dt));
    WhenInputsOnly(s2, keyDown[MoveRight], MoveX(20.0 * dt));
    WhenInputsOnly(s3, keyDown[MoveLeft], MoveX(-20.0 * dt));
    WhenInputsOnly(s4, keyDown[MoveUp], MoveY(20.0 * dt));
    WhenInputsOnly(s5, keyDown[MoveDown], MoveY(-20.0 * dt));
  }

  /** The rotation keys touch only the accumulators. */
  lemma RotationsTouchInputsOnly(s: CameraState, keyDown: map<Action, bool>, dt: real)
    requires HeldTable(keyDown)
    ensures InputsOnly(DrawRotations(s, keyDown, dt), s)
  {
    var s1 := When(s, keyDown[RotateUp], RotateV(60.0 * dt));
    var s2 := When(s1, keyDown[RotateDown], RotateV(-60.0 * dt));
    var s3 := When(s2, keyDown[RotateRight], RotateH(-60.0 * dt));
    WhenInputsOnly(s, keyDown[RotateUp], RotateV(60.0 * dt));
    WhenInputsOnly(s1, keyDown[RotateDown], RotateV(-60.0 * dt));
    WhenInputsOnly(s2, keyDown[RotateRight], RotateH(-60.0 * dt));
    WhenInputsOnly(s3, keyDown[RotateLeft], RotateH(60.0 * dt));
  }

  /** The pan and zoom keys touch only the accumulators. */
  lemma PansTouchInputsOnly(s: CameraState, keyDown: map<Action, bool>, dt: real)
    requires HeldTable(keyDown)
    ensures InputsOnly(DrawPans(s, keyDown, dt), s)
  {
    var s1 := When(s, keyDown[PanUp], PanV(60.0 * dt));
    var s2 := When(s1, keyDown[PanDown], PanV(-60.0 * dt));
    var s3 := When(s2, keyDown[PanRight], PanH(60.0 * dt));
    var s4 := When(s3, keyDown[PanLeft], PanH(-60.0 * dt));
    var s5 := When(s4, keyDown[ZoomIn], PanH(1.0 * dt));
    WhenInputsOnly(s, keyDown[PanUp], PanV(60.0 * dt));
    WhenInputsOnly(s1, keyDown[PanDown], PanV(-60.0 * dt));
    WhenInputsOnly(s2, keyDown[PanRight], PanH(60.0 * dt));
    WhenInputsOnly(s3, keyDown[PanLeft], PanH(-60.0 * dt));
    WhenInputsOnly(s4, keyDown[ZoomIn], PanH(1.0 * dt));
    WhenInputsOnly(s5, keyDown[ZoomOut], PanH(-1.0 * dt));
  }

  /** Nothing held, nothing changes. */
  lemma OnDrawIdle(s: CameraState, keyDown: map<Action, bool>, dt: real)
    requires HeldTable(keyDown) && forall a :: !keyDown[a]
    ensures OnDraw(s, keyDown, dt) == s
  {
  }

  /** on_draw changes only the accumulators, the speed modifier and, through the speed keys,
      the three speeds. The modifier is doubled for MOVE_FAST and halved for MOVE_SLOW, so
      holding both leaves it as it was. */
  lemma OnDrawFrame(s: CameraState, keyDown: map<Action, bool>, dt: real)
    requires HeldTable(keyDown)
    ensures var r := OnDraw(s, keyDown, dt);
      r == s.(movementInput := r.movementInput, rotationInput := r.rotationInput,
              movementSpeedMod := r.movementSpeedMod,
              moveSpeed := r.moveSpeed, panSpeed := r.panSpeed, zoomSpeed := r.zoomSpeed)
    ensures var r := OnDraw(s, keyDown, dt);
      r.movementSpeedMod == s.movementSpeedMod * (if keyDown[MoveFast] then 2.0 else 1.0)
                                               * (if keyDown[MoveSlow] then 0.5 else 1.0)
    ensures keyDown[MoveFast] && keyDown[MoveSlow] ==>
      OnDraw(s, keyDown, dt).movementSpeedMod == s.movementSpeedMod
    ensures !keyDown[IncreaseSpeed] && !keyDown[DecreaseSpeed] ==>
      SameSettings(OnDraw(s, keyDown, dt), s)
  {
    var s1 := DrawSpeed(s, keyDown, dt);
    var s2 := DrawMoves(s1, keyDown, dt);
    var s3 := DrawModifiers(s2, keyDown);
    var s4 := DrawRotations(s3, keyDown, dt);
    MovesTouchInputsOnly(s1, keyDown, dt);
    RotationsTouchInputsOnly(s3, keyDown, dt);
    PansTouchInputsOnly(s4, keyDown, dt);
  }

  /** Because ZOOM_IN is PAN_RIGHT, holding PAN_RIGHT alone makes two panH calls: one by
      60 * dt and then one by 1 * dt. */
  lemma PanRightCalls(s: CameraState, keyDown: map<Action, bool>, dt: real)
    requires HeldTable(keyDown) && keyDown[PanRight]
    requires forall a :: a != PanRight ==> !keyDown[a]
    ensures OnDraw(s, keyDown, dt) == Apply(Apply(s, PanH(60.0 * dt)), PanH(1.0 * dt))
  {
    ValuesRoundTrip(PanRight, 20);
    var k := keyDown;
    assert DrawSpeed(s, k, dt) == s by {
      assert !k[IncreaseSpeed] && !k[DecreaseSpeed];
    }
    assert DrawMoves(s, k, dt) == s by {
      assert !k[MoveBackward] && !k[MoveForward] && !k[MoveRight];
      assert !k[MoveLeft] && !k[MoveUp] && !k[MoveDown];
    }
    assert DrawModifiers(s, k) == s by {
      assert !k[MoveFast] && !k[MoveSlow];
    }
    assert DrawRotations(s, k, dt) == s by {
      assert !k[RotateUp] && !k[RotateDown] && !k[RotateRight] && !k[RotateLeft];
    }
    assert DrawPans(s, k, dt) == Apply(Apply(s, PanH(60.0 * dt)), PanH(1.0 * dt)) by {
      assert !k[PanUp] && !k[PanDown] && !k[PanLeft] && !k[ZoomOut];
    }
  }

  /** So in trackball mode holding PAN_RIGHT alone grows movementInput.x by 61 * dt * panSpeed
      per frame, not 60. */
  lemma PanRightIsZoomIn(s: CameraState, keyDown: map<Action, bool>, dt: real)
    requires HeldTable(keyDown) && keyDown[PanRight]
    requires forall a :: a != PanRight ==> !keyDown[a]
    requires s.mode == Trackball
    ensures OnDraw(s, keyDown, dt) ==
      s.(movementInput := s.movementInput.(x := s.movementInput.x + 61.0 * dt * s.panSpeed))
  {
    PanRightCalls(s, keyDown, dt);
    TwoPans(s, dt);
  }

  lemma TwoPans(s: CameraState, dt: real)
    requires s.mode == Trackball
    ensures Apply(Apply(s, PanH(60.0 * dt)), PanH(1.0 * dt)) ==
      s.(movementInput := s.movementInput.(x := s.movementInput.x + 61.0 * dt * s.panSpeed))
  {
    var m := s.movementInput;
    var p := Apply(s, PanH(60.0 * dt));
    assert p == s.(movementInput := m.(x := m.x + 60.0 * dt * s.panSpeed));
    assert 60.0 * dt * s.panSpeed + 1.0 * dt * s.panSpeed == 61.0 * dt * s.panSpeed;
  }
}
