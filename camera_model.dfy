/** The camera's state as a value, its input methods and its per-frame update as functions
    of that value, and what they guarantee. The class in module Cameras is proved to follow
    these functions step by step. */
module CameraModel {
  import opened Glm

  /** Values of the camera's integer mode field. */
  const Trackball: int := 0
  const FirstPerson: int := 1

  /** Every field of a Camera object. */
  datatype CameraState = CameraState(
    fpsRotationSpeed: real,
    moveSpeed: real,
    tbRotationSpeed: real,
    panSpeed: real,
    zoomSpeed: real,
    enableAllControls: bool,
    movementSmoothing: real,
    rotationSmoothing: real,
    worldUp: Vec3,
    mode: int,
    movementSpeedMod: real,
    movementInput: Vec3,
    rotationInput: Vec2,
    desiredTransform: Transform,
    desiredTargetDistance: real,
    currentTransform: Transform,
    currentTargetDistance: real,
    modelMatrix: Mat4,
    viewMatrix: Mat4)

  /** The fields no input method and no update writes. */
  predicate SameSettings(a: CameraState, b: CameraState) {
    a.fpsRotationSpeed == b.fpsRotationSpeed && a.moveSpeed == b.moveSpeed &&
    a.tbRotationSpeed == b.tbRotationSpeed && a.panSpeed == b.panSpeed &&
    a.zoomSpeed == b.zoomSpeed && a.enableAllControls == b.enableAllControls &&
    a.movementSmoothing == b.movementSmoothing && a.rotationSmoothing == b.rotationSmoothing &&
    a.worldUp == b.worldUp && a.mode == b.mode
  }

  /** moveX/moveY/moveZ act in first-person mode or with all controls enabled. */
  predicate MoveEnabled(s: CameraState) { s.mode == FirstPerson || s.enableAllControls }

  /** panH/panV/zoom act in trackball mode or with all controls enabled. */
  predicate PanEnabled(s: CameraState) { s.mode == Trackball || s.enableAllControls }

  /** Rotation sensitivity: the first-person one in mode 1, the trackball one in any other mode. */
  function RotationSpeed(s: CameraState): real {
    if s.mode == FirstPerson then s.fpsRotationSpeed else s.tbRotationSpeed
  }

  // ---------------------------------------------------------------------------------------
  // Input accumulation

  /** One call of an input method of the camera, with its argument. */
  datatype Input =
    | RotateH(d: real)
    | RotateV(d: real)
    | MoveX(d: real)
    | MoveY(d: real)
    | MoveZ(d: real)
    | PanH(d: real)
    | PanV(d: real)
    | Zoom(d: real)

  /** The input method itself: it adds a scaled delta to one accumulator component. */
  function Apply(s: CameraState, i: Input): CameraState {
    var m, r := s.movementInput, s.rotationInput;
    match i
    case RotateH(d) => s.(rotationInput := r.(x := r.x + d * RotationSpeed(s)))
    case RotateV(d) => s.(rotationInput := r.(y := r.y + d * RotationSpeed(s)))
    case MoveX(d) => if MoveEnabled(s) then s.(movementInput := m.(x := m.x + d * s.moveSpeed)) else s
    case MoveY(d) => if MoveEnabled(s) then s.(movementInput := m.(y := m.y + d * s.moveSpeed)) else s
    case MoveZ(d) => if MoveEnabled(s) then s.(movementInput := m.(z := m.z + d * s.moveSpeed)) else s
    case PanH(d) => if PanEnabled(s) then s.(movementInput := m.(x := m.x + d * s.panSpeed)) else s
    case PanV(d) => if PanEnabled(s) then s.(movementInput := m.(y := m.y + d * s.panSpeed)) else s
    case Zoom(d) => if PanEnabled(s) then s.(movementInput := m.(z := m.z - d * s.zoomSpeed)) else s
  }

  /** The input methods called one after the other, first to last. */
  function ApplyAll(s: CameraState, inputs: seq<Input>): CameraState
    decreases |inputs|
  {
    if inputs == [] then s
    else Apply(ApplyAll(s, inputs[..|inputs| - 1]), inputs[|inputs| - 1])
  }

  /** Reference definition: what one input contributes to movementInput, as a vector. */
  function MovementDelta(s: CameraState, i: Input): Vec3 {
    match i
    case MoveX(d) => if MoveEnabled(s) then Vec3(d * s.moveSpeed, 0.0, 0.0) else Zero3
    case MoveY(d) => if MoveEnabled(s) then Vec3(0.0, d * s.moveSpeed, 0.0) else Zero3
    case MoveZ(d) => if MoveEnabled(s) then Vec3(0.0, 0.0, d * s.moveSpeed) else Zero3
    case PanH(d) => if PanEnabled(s) then Vec3(d * s.panSpeed, 0.0, 0.0) else Zero3
    case PanV(d) => if PanEnabled(s) then Vec3(0.0, d * s.panSpeed, 0.0) else Zero3
    case Zoom(d) => if PanEnabled(s) then Vec3(0.0, 0.0, -(d * s.zoomSpeed)) else Zero3
    case _ => Zero3
  }

  /** Reference definition: what one input contributes to rotationInput. */
  function RotationDelta(s: CameraState, i: Input): Vec2 {
    match i
    case RotateH(d) => Vec2(d * RotationSpeed(s), 0.0)
    case RotateV(d) => Vec2(0.0, d * RotationSpeed(s))
    case _ => Zero2
  }

  /** The sum of the contributions of a sequence of inputs. */
  function TotalMovement(s: CameraState, inputs: seq<Input>): Vec3
    decreases |inputs|
  {
    if inputs == [] then Zero3
    else Add(TotalMovement(s, inputs[..|inputs| - 1]), MovementDelta(s, inputs[|inputs| - 1]))
  }

  function TotalRotation(s: CameraState, inputs: seq<Input>): Vec2
    decreases |inputs|
  {
    if inputs == [] then Zero2
    else Add2(TotalRotation(s, inputs[..|inputs| - 1]), RotationDelta(s, inputs[|inputs| - 1]))
  }

  /** Mode gating and locality of a single input call: a move is ignored unless moving is
      enabled, a pan or zoom unless panning is enabled, zoom pulls movementInput.z back by
      dz * zoomSpeed, rotation gets the mode's sensitivity, and no field other than the two
      accumulators ever changes. */
  lemma InputGating(s: CameraState, i: Input)
    ensures (i.MoveX? || i.MoveY? || i.MoveZ?) && !MoveEnabled(s) ==> Apply(s, i) == s
    ensures (i.PanH? || i.PanV? || i.Zoom?) && !PanEnabled(s) ==> Apply(s, i) == s
    ensures i.MoveX? && MoveEnabled(s) ==>
      Apply(s, i).movementInput == Add(s.movementInput, Vec3(i.d * s.moveSpeed, 0.0, 0.0))
    ensures i.Zoom? && PanEnabled(s) ==>
      Apply(s, i).movementInput == Sub(s.movementInput, Vec3(0.0, 0.0, i.d * s.zoomSpeed))
    ensures i.RotateH? ==>
      Apply(s, i).rotationInput.x ==
        s.rotationInput.x + i.d * (if s.mode == FirstPerson then s.fpsRotationSpeed else s.tbRotationSpeed)
    ensures i.RotateH? || i.RotateV? ==> Apply(s, i).movementInput == s.movementInput
    ensures !(i.RotateH? || i.RotateV?) ==> Apply(s, i).rotationInput == s.rotationInput
    ensures Apply(s, i) == s.(movementInput := Apply(s, i).movementInput,
                              rotationInput := Apply(s, i).rotationInput)
  {
  }

  /** A single input call adds exactly its contribution to each accumulator. */
  lemma ApplyAddsDelta(s: CameraState, i: Input)
    ensures Apply(s, i) == s.(movementInput := Add(s.movementInput, MovementDelta(s, i)),
                              rotationInput := Add2(s.rotationInput, RotationDelta(s, i)))
  {
  }

  /** Accumulation: any sequence of input calls leaves the accumulators holding their start
      value plus the sum of the calls' contributions, and changes nothing else. */
  lemma {:induction false} AccumulateSum(s: CameraState, inputs: seq<Input>)
    ensures ApplyAll(s, inputs) ==
      s.(movementInput := Add(s.movementInput, TotalMovement(s, inputs)),
         rotationInput := Add2(s.rotationInput, TotalRotation(s, inputs)))
    decreases |inputs|
  {
    if inputs != [] {
      var init, last := inputs[..|inputs| - 1], inputs[|inputs| - 1];
      AccumulateSum(s, init);
      AccumulateStep(s, ApplyAll(s, init), last, TotalMovement(s, init), TotalRotation(s, init));
    }
  }

  /** One more input on top of accumulated totals adds its own contribution to them. */
  lemma AccumulateStep(s: CameraState, t: CameraState, i: Input, m: Vec3, r: Vec2)
    requires t == s.(movementInput := Add(s.movementInput, m), rotationInput := Add2(s.rotationInput, r))
    ensures Apply(t, i) ==
      s.(movementInput := Add(s.movementInput, Add(m, MovementDelta(s, i))),
         rotationInput := Add2(s.rotationInput, Add2(r, RotationDelta(s, i))))
  {
    DeltaDependsOnSettings(s, t, i);
    ApplyAddsDelta(t, i);
  }

  /** The contribution of an input depends only on the tunables and the mode. */
  lemma DeltaDependsOnSettings(s: CameraState, t: CameraState, i: Input)
    requires SameSettings(s, t)
    ensures MovementDelta(s, i) == MovementDelta(t, i)
    ensures RotationDelta(s, i) == RotationDelta(t, i)
  {
  }

  /** Removing the k-th input from a sequence removes exactly its contribution. */
  lemma {:induction false} TotalsWithout(s: CameraState, inputs: seq<Input>, k: nat)
    requires k < |inputs|
    ensures TotalMovement(s, inputs) ==
      Add(TotalMovement(s, Without(inputs, k)), MovementDelta(s, inputs[k]))
    ensures TotalRotation(s, inputs) ==
      Add2(TotalRotation(s, Without(inputs, k)), RotationDelta(s, inputs[k]))
    decreases |inputs|
  {
    var n := |inputs|;
    var init := inputs[..n - 1];
    if k == n - 1 {
      assert Without(inputs, k) == init;
    } else {
      TotalsWithout(s, init, k);
      WithoutInit(inputs, k);
      var rest := Without(inputs, k);
      var a, b, c := TotalMovement(s, Without(init, k)), MovementDelta(s, inputs[k]), MovementDelta(s, inputs[n - 1]);
      var a2, b2, c2 := TotalRotation(s, Without(init, k)), RotationDelta(s, inputs[k]), RotationDelta(s, inputs[n - 1]);
      assert TotalMovement(s, rest) == Add(a, c);
      assert TotalRotation(s, rest) == Add2(a2, c2);
      assert TotalMovement(s, inputs) == Add(Add(a, b), c);
      assert TotalRotation(s, inputs) == Add2(Add2(a2, b2), c2);
    }
  }

  /** The sequence with its k-th element taken out. */
  function Without<T>(xs: seq<T>, k: nat): (r: seq<T>)
    requires k < |xs|
    ensures |r| == |xs| - 1
  {
    xs[..k] + xs[k + 1..]
  }

  lemma WithoutInit<T>(xs: seq<T>, k: nat)
    requires k < |xs| - 1
    ensures Without(xs, k)[..|xs| - 2] == Without(xs[..|xs| - 1], k)
    ensures Without(xs, k)[|xs| - 2] == xs[|xs| - 1]
    ensures xs[..|xs| - 1][k] == xs[k]
  {
    assert Without(xs, k)[..|xs| - 2] == Without(xs[..|xs| - 1], k);
  }

  /** The contributions of a sequence depend only on which inputs it holds, not their order. */
  lemma {:induction false} TotalsPermutation(s: CameraState, inputs: seq<Input>, other: seq<Input>)
    requires multiset(inputs) == multiset(other)
    ensures TotalMovement(s, inputs) == TotalMovement(s, other)
    ensures TotalRotation(s, inputs) == TotalRotation(s, other)
    decreases |inputs|
  {
    if inputs == [] {
      assert |other| == |multiset(other)| == 0;
    } else {
      var n := |inputs|;
      var last := inputs[n - 1];
      assert inputs == inputs[..n - 1] + [last];
      assert last in multiset(other);
      var k :| 0 <= k < |other| && other[k] == last;
      var rest := Without(other, k);
      assert other == other[..k] + [other[k]] + other[k + 1..];
      assert multiset(rest) == multiset(other) - multiset{last};
      assert multiset(inputs[..n - 1]) == multiset(inputs) - multiset{last};
      TotalsPermutation(s, inputs[..n - 1], rest);
      TotalsWithout(s, other, k);
    }
  }

  /** Input calls made between two updates commute: any reordering gives the same state. */
  lemma OrderIndependent(s: CameraState, inputs: seq<Input>, other: seq<Input>)
    requires multiset(inputs) == multiset(other)
    ensures ApplyAll(s, inputs) == ApplyAll(s, other)
  {
    AccumulateSum(s, inputs);
    AccumulateSum(s, other);
    TotalsPermutation(s, inputs, other);
  }

  // ---------------------------------------------------------------------------------------
  // Setting position and target

  /** setPosition: the desired position is set, and the current one too unless interpolating. */
  function SetPosition(s: CameraState, position: Vec3, interpolate: bool): CameraState {
    var s1 := s.(desiredTransform := s.desiredTransform.(position := position));
    if interpolate then s1 else s1.(currentTransform := s1.currentTransform.(position := position))
  }

  /** setTarget: the desired orientation looks at the target and the desired distance is the
      distance to it; unless interpolating, the current orientation and distance follow. */
  function SetTarget(s: CameraState, target: Vec3, interpolate: bool, g: Library): CameraState {
    var desired := LookAt(s.desiredTransform, target, s.worldUp, g);
    var s1 := s.(desiredTransform := desired,
                 desiredTargetDistance := g.length(Sub(target, desired.position)));
    if interpolate then s1
    else s1.(currentTransform := s1.currentTransform.(orientation := desired.orientation),
             currentTargetDistance := s1.desiredTargetDistance)
  }

  /** Snapping: without interpolation the current transform takes the desired position,
      orientation and distance at once; with it, the current transform and distance are left
      for update to move. */
  lemma SetSnaps(s: CameraState, position: Vec3, target: Vec3, interpolate: bool, g: Library)
    ensures var r := SetPosition(s, position, interpolate);
      r.desiredTransform.position == position &&
      r.desiredTransform.orientation == s.desiredTransform.orientation &&
      (interpolate ==> r.currentTransform == s.currentTransform) &&
      (!interpolate ==> r.currentTransform.position == position &&
                        r.currentTransform.orientation == s.currentTransform.orientation) &&
      r == s.(desiredTransform := r.desiredTransform, currentTransform := r.currentTransform)
    ensures var r := SetTarget(s, target, interpolate, g);
      r.desiredTransform.position == s.desiredTransform.position &&
      r.desiredTargetDistance == g.length(Sub(target, s.desiredTransform.position)) &&
      (interpolate ==> r.currentTransform == s.currentTransform &&
                       r.currentTargetDistance == s.currentTargetDistance) &&
      (!interpolate ==> r.currentTransform.orientation == r.desiredTransform.orientation &&
                        r.currentTransform.position == s.currentTransform.position &&
                        r.currentTargetDistance == r.desiredTargetDistance) &&
      r == s.(desiredTransform := r.desiredTransform, desiredTargetDistance := r.desiredTargetDistance,
              currentTransform := r.currentTransform, currentTargetDistance := r.currentTargetDistance)
  {
  }

  /** The state right after construction: default tunables, both transforms at the given
      position with the default orientation, then setTarget(target) without interpolation,
      then the matrices of the current transform. */
  function Initial(mode: int, position: Vec3, target: Vec3, worldUp: Vec3, g: Library): CameraState {
    var start := Transform(position, Vec3(1.0, 1.0, 1.0), g.angleAxis(0.0, Zero3));
    var s0 := CameraState(
      0.005, 0.125, 0.015, 0.006, 0.25, false, 0.25, 0.3, worldUp, mode, 1.0,
      Zero3, Zero2, start, 0.0, start, 0.0, Matrix(start, g), Inverse(Matrix(start, g), g));
    var s1 := SetTarget(s0, target, false, g);
    s1.(modelMatrix := Matrix(s1.currentTransform, g), viewMatrix := Inverse(Matrix(s1.currentTransform, g), g))
  }

  /** A new camera has empty accumulators, an unmodified speed, current equal to desired and
      the target's distance as both distances. */
  lemma InitialState(mode: int, position: Vec3, target: Vec3, worldUp: Vec3, g: Library)
    ensures var s := Initial(mode, position, target, worldUp, g);
      s.mode == mode && s.worldUp == worldUp && !s.enableAllControls &&
      s.movementInput == Zero3 && s.rotationInput == Zero2 && s.movementSpeedMod == 1.0 &&
      s.currentTransform == s.desiredTransform && s.desiredTransform.position == position &&
      s.desiredTargetDistance == s.currentTargetDistance == g.length(Sub(target, position)) &&
      s.viewMatrix == Inverse(s.modelMatrix, g)
  {
  }

  // ---------------------------------------------------------------------------------------
  // The per-frame update

  /** The point the camera orbits: distance units along the transform's forward axis. */
  function Pivot(t: Transform, distance: real, g: Library): Vec3 {
    Add(t.position, Scale(g.rotate(t.orientation, Forward), distance))
  }

  /** Yaw about the world up axis, then pitch about the local x axis, renormalised. */
  function Turned(orientation: Quat, rotation: Vec2, worldUp: Vec3, g: Library): Quat {
    g.normalize(g.mul(g.mul(g.angleAxis(rotation.x, worldUp), orientation), g.angleAxis(rotation.y, AxisX)))
  }

  /** The zoom guard: the distance moves by movementInput.z only when the result stays above
      0.01 * zoomSpeed. */
  function ZoomedDistance(s: CameraState): real {
    if s.desiredTargetDistance + s.movementInput.z > 0.01 * s.zoomSpeed
    then s.desiredTargetDistance + s.movementInput.z
    else s.desiredTargetDistance
  }

  /** The frame's movement, in the axes of the current orientation. */
  function Movement(s: CameraState, g: Library): Vec3 {
    g.rotate(s.currentTransform.orientation, Scale(s.movementInput, s.movementSpeedMod))
  }

  /** Trackball, desired side: turn the desired camera and move it so that its pivot stays
      put, then pan it by the frame's movement. */
  function OrbitDesired(s: CameraState, g: Library): Transform {
    var oldTarget := Pivot(s.desiredTransform, s.desiredTargetDistance, g);
    var turned := s.desiredTransform.(orientation :=
      Turned(s.desiredTransform.orientation, s.rotationInput, s.worldUp, g));
    var newTarget := Pivot(turned, s.desiredTargetDistance, g);
    var orbited := turned.(position := Add(turned.position, Sub(oldTarget, newTarget)));
    orbited.(position := Add(orbited.position, Movement(s, g)))
  }

  /** Trackball, current side: blend the pivot towards the desired pivot, slerp the
      orientation, and put the camera currentDistance behind the blended pivot. */
  function OrbitCurrent(current: Transform, desired: Transform, distance: real, currentDistance: real,
                        moveBlend: real, turnBlend: real, g: Library): Transform {
    var desiredTarget := Pivot(desired, distance, g);
    var oldActualTarget := Mix3(Pivot(current, currentDistance, g), desiredTarget, moveBlend);
    var turned := current.(orientation := g.slerp(current.orientation, desired.orientation, turnBlend));
    var newActualTarget := Pivot(turned, currentDistance, g);
    turned.(position := Add(turned.position, Sub(oldActualTarget, newActualTarget)))
  }

  /** Trackball integration: orbit and pan the desired camera, apply the zoom guard, blend the
      distance, then move the current camera behind the blended pivot. */
  function IntegrateTrackball(s: CameraState, deltaTime: real, g: Library): CameraState {
    var moveBlend := g.pow(deltaTime, s.movementSmoothing);
    var desired := OrbitDesired(s, g);
    var distance := ZoomedDistance(s);
    var currentDistance := Mix(s.currentTargetDistance, distance, moveBlend);
    s.(desiredTransform := desired, desiredTargetDistance := distance,
       currentTransform := OrbitCurrent(s.currentTransform, desired, distance, currentDistance,
                                        moveBlend, g.pow(deltaTime, s.rotationSmoothing), g),
       currentTargetDistance := currentDistance)
  }

  /** First-person integration: move and turn the desired camera, blend the current one. */
  function IntegrateFirstPerson(s: CameraState, deltaTime: real, g: Library): CameraState {
    var desired1 := s.desiredTransform.(position := Add(s.desiredTransform.position, Movement(s, g)));
    var desired2 := desired1.(orientation :=
      Turned(desired1.orientation, s.rotationInput, s.worldUp, g));
    var current1 := s.currentTransform.(position :=
      Mix3(s.currentTransform.position, desired2.position, g.pow(deltaTime, s.movementSmoothing)));
    var current2 := current1.(orientation :=
      g.slerp(current1.orientation, desired2.orientation, g.pow(deltaTime, s.rotationSmoothing)));
    s.(desiredTransform := desired2, currentTransform := current2)
  }

  /** The mode-dependent part of update; a mode other than 0 and 1 integrates nothing. */
  function Integrate(s: CameraState, deltaTime: real, g: Library): CameraState {
    if s.mode == Trackball then IntegrateTrackball(s, deltaTime, g)
    else if s.mode == FirstPerson then IntegrateFirstPerson(s, deltaTime, g)
    else s
  }

  /** update(deltaTime): integrate, recompute the matrices, then consume the frame's input.
      Afterwards, in every mode, both accumulators are zero, the speed modifier is back to 1,
      and the tunables and the mode are as before. */
  function Update(s: CameraState, deltaTime: real, g: Library): (r: CameraState)
    ensures r.movementInput == Zero3 && r.rotationInput == Zero2 && r.movementSpeedMod == 1.0
    ensures SameSettings(r, s)
    ensures r.viewMatrix == Inverse(r.modelMatrix, g)
  {
    var t := Integrate(s, deltaTime, g);
    t.(modelMatrix := Matrix(t.currentTransform, g),
       viewMatrix := Inverse(Matrix(t.currentTransform, g), g),
       rotationInput := Zero2, movementInput := Zero3, movementSpeedMod := 1.0)
  }

  /** The zoom guard: in trackball mode the desired distance takes movementInput.z exactly when
      the result exceeds 0.01 * zoomSpeed, so it ends either unchanged or above that floor; in
      any other mode neither distance changes. */
  lemma ZoomGuard(s: CameraState, deltaTime: real, g: Library)
    ensures var r := Update(s, deltaTime, g);
      s.mode == Trackball ==>
        (s.desiredTargetDistance + s.movementInput.z > 0.01 * s.zoomSpeed ==>
           r.desiredTargetDistance == s.desiredTargetDistance + s.movementInput.z) &&
        (s.desiredTargetDistance + s.movementInput.z <= 0.01 * s.zoomSpeed ==>
           r.desiredTargetDistance == s.desiredTargetDistance) &&
        (r.desiredTargetDistance == s.desiredTargetDistance ||
         r.desiredTargetDistance > 0.01 * s.zoomSpeed)
    ensures var r := Update(s, deltaTime, g);
      s.mode != Trackball ==>
        r.desiredTargetDistance == s.desiredTargetDistance &&
        r.currentTargetDistance == s.currentTargetDistance
  {
  }

  /** The trackball distances are both above the zoom floor. */
  predicate AboveZoomFloor(s: CameraState) {
    s.desiredTargetDistance > 0.01 * s.zoomSpeed && s.currentTargetDistance > 0.01 * s.zoomSpeed
  }

  /** One trackball update keeps both distances above the floor when the blend factor lies in
      [0, 1]: the current distance is blended between two values above it. */
  lemma UpdateKeepsZoomFloor(s: CameraState, deltaTime: real, g: Library)
    requires s.mode == Trackball && AboveZoomFloor(s)
    requires 0.0 <= g.pow(deltaTime, s.movementSmoothing) <= 1.0
    ensures AboveZoomFloor(Update(s, deltaTime, g))
  {
    var t := g.pow(deltaTime, s.movementSmoothing);
    var d := ZoomedDistance(s);
    MixBetween(s.currentTargetDistance, d, t);
    assert Update(s, deltaTime, g).currentTargetDistance == Mix(s.currentTargetDistance, d, t);
  }

  /** One frame: the input calls delivered since the last update, then update(deltaTime). */
  datatype Frame = Frame(inputs: seq<Input>, deltaTime: real)

  function RunFrames(s: CameraState, frames: seq<Frame>, g: Library): CameraState
    decreases |frames|
  {
    if frames == [] then s
    else RunFrames(Update(ApplyAll(s, frames[0].inputs), frames[0].deltaTime, g), frames[1..], g)
  }

  /** The zoom floor in trackball mode over any sequence of frames of camera input calls
      (zoom included, the speeds unchanged): while every frame's blend factor lies in [0, 1],
      both distances stay above 0.01 * zoomSpeed. */
  lemma {:induction false} ZoomFloorForever(s: CameraState, frames: seq<Frame>, g: Library)
    requires s.mode == Trackball && AboveZoomFloor(s)
    requires forall f :: f in frames ==> 0.0 <= g.pow(f.deltaTime, s.movementSmoothing) <= 1.0
    ensures AboveZoomFloor(RunFrames(s, frames, g))
    ensures SameSettings(RunFrames(s, frames, g), s)
    decreases |frames|
  {
    if frames != [] {
      var f := frames[0];
      AccumulateSum(s, f.inputs);
      var a := ApplyAll(s, f.inputs);
      assert f in frames;
      UpdateKeepsZoomFloor(a, f.deltaTime, g);
      var next := Update(a, f.deltaTime, g);
      forall f' | f' in frames[1..] ensures 0.0 <= g.pow(f'.deltaTime, next.movementSmoothing) <= 1.0 {
        assert f' in frames;
      }
      ZoomFloorForever(next, frames[1..], g);
    }
  }

  /** The floor needs the blend factor in [0, 1], and the caller passes the wall-clock frame
      time unclamped: with the default movementSmoothing 0.25, a 16-second frame gives the
      factor 16^0.25 = 2, and a current distance of 1 blended towards a desired 0.4 lands at
      -0.2, below the floor and behind the camera. */
  lemma LongFrameBreaksZoomFloor(s: CameraState, g: Library)
    ensures var s' := s.(mode := Trackball, zoomSpeed := 0.25, movementSmoothing := 0.25,
                         desiredTargetDistance := 0.4, currentTargetDistance := 1.0,
                         movementInput := Zero3);
      var g' := g.(pow := (x: real, k: real) => if x == 16.0 && k == 0.25 then 2.0 else g.pow(x, k));
      AboveZoomFloor(s') && Update(s', 16.0, g').currentTargetDistance == -0.2 &&
      !AboveZoomFloor(Update(s', 16.0, g'))
  {
    var s' := s.(mode := Trackball, zoomSpeed := 0.25, movementSmoothing := 0.25,
                 desiredTargetDistance := 0.4, currentTargetDistance := 1.0,
                 movementInput := Zero3);
    var g' := g.(pow := (x: real, k: real) => if x == 16.0 && k == 0.25 then 2.0 else g.pow(x, k));
    assert ZoomedDistance(s') == 0.4;
    TrackballDistances(s', 16.0, g');
  }

  /** A blend factor forced into [0, 1]. */
  function Clamp01(t: real): (r: real)
    ensures 0.0 <= r <= 1.0
    ensures 0.0 <= t <= 1.0 ==> r == t
  {
    if t < 0.0 then 0.0 else if t > 1.0 then 1.0 else t
  }

  /** The library with its blend factors clamped to [0, 1], as a clamp of deltaTime to at
      most one second would give them. */
  function ClampedBlend(g: Library): (r: Library)
    ensures forall x, k :: 0.0 <= r.pow(x, k) <= 1.0
    ensures forall x, k :: 0.0 <= g.pow(x, k) <= 1.0 ==> r.pow(x, k) == g.pow(x, k)
  {
    var r := g.(pow := (x: real, k: real) => Clamp01(g.pow(x, k)));
    assert forall x, k :: r.pow(x, k) == Clamp01(g.pow(x, k));
    r
  }

  /** With the blend factor clamped, the zoom floor holds over any sequence of frames of
      camera input calls, however long each one is. */
  lemma ClampedZoomFloorForever(s: CameraState, frames: seq<Frame>, g: Library)
    requires s.mode == Trackball && AboveZoomFloor(s)
    ensures AboveZoomFloor(RunFrames(s, frames, ClampedBlend(g)))
  {
    var c := ClampedBlend(g);
    forall f | f in frames ensures 0.0 <= c.pow(f.deltaTime, s.movementSmoothing) <= 1.0 {
    }
    ZoomFloorForever(s, frames, c);
  }

  /** Smoothing of the trackball distance: with blend factor t the current distance keeps the
      fraction 1 - t of its gap to the desired one, so for t in [0, 1] the gap never grows. */
  lemma DistanceConverges(s: CameraState, deltaTime: real, g: Library)
    requires s.mode == Trackball
    ensures var r := Update(s, deltaTime, g);
      GapKept(s.currentTargetDistance, r.currentTargetDistance, r.desiredTargetDistance,
              g.pow(deltaTime, s.movementSmoothing))
  {
    var t := g.pow(deltaTime, s.movementSmoothing);
    var c, d := s.currentTargetDistance, ZoomedDistance(s);
    var r := Update(s, deltaTime, g);
    TrackballDistances(s, deltaTime, g);
    BlendedGap(c, d, t, r.currentTargetDistance);
  }

  /** A move from c to m keeps the fraction 1 - t of the gap to d, and for t in [0, 1] the gap
      does not grow. */
  predicate GapKept(c: real, m: real, d: real, t: real) {
    m - d == (c - d) * (1.0 - t) && (0.0 <= t <= 1.0 ==> Abs(m - d) <= Abs(c - d))
  }

  /** A value blended towards d keeps the fraction 1 - t of its gap to d. */
  lemma BlendedGap(c: real, d: real, t: real, m: real)
    requires m == Mix(c, d, t)
    ensures GapKept(c, m, d, t)
  {
    MixGap(c, d, t);
    if 0.0 <= t <= 1.0 {
      MixGapShrinks(c, d, t);
    }
  }

  /** Where a trackball update leaves the two distances. */
  lemma TrackballDistances(s: CameraState, deltaTime: real, g: Library)
    requires s.mode == Trackball
    ensures Update(s, deltaTime, g).desiredTargetDistance == ZoomedDistance(s)
    ensures Update(s, deltaTime, g).currentTargetDistance ==
      Mix(s.currentTargetDistance, ZoomedDistance(s), g.pow(deltaTime, s.movementSmoothing))
  {
  }

  /** Smoothing of the first-person position: each component keeps the fraction 1 - t of the
      gap to the new desired position. */
  lemma PositionConverges(s: CameraState, deltaTime: real, g: Library)
    requires s.mode == FirstPerson
    ensures var r := Update(s, deltaTime, g);
      Sub(r.currentTransform.position, r.desiredTransform.position) ==
        Scale(Sub(s.currentTransform.position, r.desiredTransform.position),
              1.0 - g.pow(deltaTime, s.movementSmoothing))
  {
    var t := g.pow(deltaTime, s.movementSmoothing);
    var r := Update(s, deltaTime, g);
    var c, d := s.currentTransform.position, r.desiredTransform.position;
    MixGap(c.x, d.x, t);
    MixGap(c.y, d.y, t);
    MixGap(c.z, d.z, t);
  }

  /** The trackball trick: update blends the pivot (not the position) between the current and
      the desired one and puts the camera behind the blended pivot, at the smoothed distance
      along the smoothed orientation. */
  lemma OrbitPivotBlended(s: CameraState, deltaTime: real, g: Library)
    requires s.mode == Trackball
    ensures var r := Update(s, deltaTime, g);
      Pivot(r.currentTransform, r.currentTargetDistance, g) ==
        Mix3(Pivot(s.currentTransform, r.currentTargetDistance, g),
             Pivot(r.desiredTransform, r.desiredTargetDistance, g),
             g.pow(deltaTime, s.movementSmoothing))
  {
  }

  /** Rotation orbits the pivot: a trackball update with no movement input (and a library for
      which rotating the zero vector gives zero) leaves the desired pivot where it was. */
  lemma RotationKeepsPivot(s: CameraState, deltaTime: real, g: Library)
    requires s.mode == Trackball && s.movementInput == Zero3
    requires g.rotate(s.currentTransform.orientation, Zero3) == Zero3
    ensures var r := Update(s, deltaTime, g);
      Pivot(r.desiredTransform, r.desiredTargetDistance, g) ==
        Pivot(s.desiredTransform, s.desiredTargetDistance, g)
  {
    assert Scale(s.movementInput, s.movementSpeedMod) == Zero3;
  }
}
