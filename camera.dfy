/** The camera object: fields updated in place by its input methods and its per-frame update,
    each method proved to leave the object in the state the matching function of
    CameraModel computes from the old one. */
module Cameras {
  import opened Glm
  import opened CameraModel

  class Camera {
    // settings
    var fpsRotationSpeed: real
    var moveSpeed: real
    var tbRotationSpeed: real
    var panSpeed: real
    var zoomSpeed: real
    var enableAllControls: bool
    var movementSmoothing: real
    var rotationSmoothing: real
    var worldUp: Vec3
    var mode: int
    var movementSpeedMod: real

    // internal state
    var movementInput: Vec3
    var rotationInput: Vec2
    var desiredTransform: Transform
    var desiredTargetDistance: real
    var currentTransform: Transform
    var currentTargetDistance: real

    // derived from the current transform
    var modelMatrix: Mat4
    var viewMatrix: Mat4

    /** All fields as one value. */
    function State(): CameraState
      reads this
    {
      CameraState(fpsRotationSpeed, moveSpeed, tbRotationSpeed, panSpeed, zoomSpeed,
                  enableAllControls, movementSmoothing, rotationSmoothing, worldUp, mode,
                  movementSpeedMod, movementInput, rotationInput, desiredTransform,
                  desiredTargetDistance, currentTransform, currentTargetDistance,
                  modelMatrix, viewMatrix)
    }

    constructor (mode: int := FirstPerson, position: Vec3 := Vec3(1.0, 0.0, 0.0), target: Vec3 := Zero3,
                 worldUp: Vec3 := Vec3(0.0, 1.0, 0.0), g: Library)
      ensures State() == Initial(mode, position, target, worldUp, g)
    {
      fpsRotationSpeed := 0.005;
      moveSpeed := 0.125;
      tbRotationSpeed := 0.015;
      panSpeed := 0.006;
      zoomSpeed := 0.25;
      enableAllControls := false;
      movementSmoothing := 0.25;
      rotationSmoothing := 0.3;
      this.worldUp := worldUp;
      this.mode := mode;
      movementSpeedMod := 1.0;
      movementInput := Zero3;
      rotationInput := Zero2;
      var start := Transform(position, Vec3(1.0, 1.0, 1.0), g.angleAxis(0.0, Zero3));
      desiredTransform := start;
      desiredTargetDistance := 0.0;
      currentTransform := start;
      currentTargetDistance := 0.0;
      modelMatrix := Matrix(start, g);
      viewMatrix := Inverse(Matrix(start, g), g);
      new;
      SetTarget(target, false, g);
      modelMatrix := Matrix(currentTransform, g);
      viewMatrix := Inverse(modelMatrix, g);
    }

    method SetTarget(target: Vec3, interpolate: bool := false, g: Library)
      modifies this
      ensures State() == CameraModel.SetTarget(old(State()), target, interpolate, g)
    {
      var desired := LookAt(desiredTransform, target, worldUp, g);
      var distance := g.length(Sub(target, desired.position));
      desiredTransform, desiredTargetDistance := desired, distance;
      if !interpolate {
        currentTransform := currentTransform.(orientation := desired.orientation);
        currentTargetDistance := distance;
      }
    }

    method SetPosition(position: Vec3, interpolate: bool := false)
      modifies this
      ensures State() == CameraModel.SetPosition(old(State()), position, interpolate)
    {
      desiredTransform := desiredTransform.(position := position);
      if !interpolate {
        currentTransform := currentTransform.(position := position);
      }
    }

    method RotateH(dPhi: real)
      modifies this
      ensures State() == Apply(old(State()), Input.RotateH(dPhi))
    {
      rotationInput := rotationInput.(x := rotationInput.x +
        dPhi * (if mode == FirstPerson then fpsRotationSpeed else tbRotationSpeed));
    }

    method RotateV(dTheta: real)
      modifies this
      ensures State() == Apply(old(State()), Input.RotateV(dTheta))
    {
      rotationInput := rotationInput.(y := rotationInput.y +
        dTheta * (if mode == FirstPerson then fpsRotationSpeed else tbRotationSpeed));
    }

    method MoveX(dx: real)
      modifies this
      ensures State() == Apply(old(State()), Input.MoveX(dx))
    {
      if mode == FirstPerson || enableAllControls {
        movementInput := movementInput.(x := movementInput.x + dx * moveSpeed);
      }
    }

    method MoveY(dy: real)
      modifies this
      ensures State() == Apply(old(State()), Input.MoveY(dy))
    {
      if mode == FirstPerson || enableAllControls {
        movementInput := movementInput.(y := movementInput.y + dy * moveSpeed);
      }
    }

    method MoveZ(dz: real)
      modifies this
      ensures State() == Apply(old(State()), Input.MoveZ(dz))
    {
      if mode == FirstPerson || enableAllControls {
        movementInput := movementInput.(z := movementInput.z + dz * moveSpeed);
      }
    }

    method PanH(dx: real)
      modifies this
      ensures State() == Apply(old(State()), Input.PanH(dx))
    {
      if mode == Trackball || enableAllControls {
        movementInput := movementInput.(x := movementInput.x + dx * panSpeed);
      }
    }

    method PanV(dy: real)
      modifies this
      ensures State() == Apply(old(State()), Input.PanV(dy))
    {
      if mode == Trackball || enableAllControls {
        movementInput := movementInput.(y := movementInput.y + dy * panSpeed);
      }
    }

    method Zoom(dz: real)
      modifies this
      ensures State() == Apply(old(State()), Input.Zoom(dz))
    {
      if mode == Trackball || enableAllControls {
        movementInput := movementInput.(z := movementInput.z - dz * zoomSpeed);
      }
    }

    /** One frame: integrate the accumulated input, smooth the current transform towards the
        desired one, recompute the matrices and clear the accumulators. */
    method Update(deltaTime: real, g: Library)
      modifies this
      ensures State() == CameraModel.Update(old(State()), deltaTime, g)
    {
      ghost var s := State();
      if mode == Trackball {
        UpdateTrackball(deltaTime, g);
      } else if mode == FirstPerson {
        UpdateFirstPerson(deltaTime, g);
      }
      assert State() == Integrate(s, deltaTime, g);
      UpdateMatrices(g);
      ConsumeInput();
    }

    /** The matrices of the current transform. */
    method UpdateMatrices(g: Library)
      modifies this
      ensures State() == old(State()).(modelMatrix := Matrix(old(currentTransform), g),
                                       viewMatrix := Inverse(Matrix(old(currentTransform), g), g))
    {
      modelMatrix := Matrix(currentTransform, g);
      viewMatrix := Inverse(modelMatrix, g);
    }

    /** The end of update: the frame's input is consumed. */
    method ConsumeInput()
      modifies this
      ensures State() == old(State()).(rotationInput := Zero2, movementInput := Zero3,
                                       movementSpeedMod := 1.0)
    {
      rotationInput := Zero2;
      movementInput := Zero3;
      movementSpeedMod := 1.0;
    }

    /** The trackball branch of update. */
    method UpdateTrackball(deltaTime: real, g: Library)
      requires mode == Trackball
      modifies this
      ensures State() == IntegrateTrackball(old(State()), deltaTime, g)
    {
      ghost var s := State();
      var movement := g.rotate(currentTransform.orientation, Scale(movementInput, movementSpeedMod));
      OrbitDesiredCamera(movement, g);
      FollowDesiredCamera(g.pow(deltaTime, movementSmoothing), g.pow(deltaTime, rotationSmoothing), g);
    }

    /** Trackball, desired side: orbit the old pivot, zoom within the floor, pan. */
    method OrbitDesiredCamera(movement: Vec3, g: Library)
      requires movement == Movement(State(), g)
      modifies this
      ensures State() == old(State()).(desiredTransform := OrbitDesired(old(State()), g),
                                       desiredTargetDistance := ZoomedDistance(old(State())))
    {
      var desired := desiredTransform;

      // rotate the desired camera around the old pivot
      var oldTarget := Pivot(desired, desiredTargetDistance, g);
      desired := desired.(orientation := Turned(desired.orientation, rotationInput, worldUp, g));
      var newTarget := Pivot(desired, desiredTargetDistance, g);
      desired := desired.(position := Add(desired.position, Sub(oldTarget, newTarget)));

      // zoom, keeping the distance above the floor
      var distance := desiredTargetDistance;
      if distance + movementInput.z > 0.01 * zoomSpeed {
        distance := distance + movementInput.z;
      }

      // pan
      desired := desired.(position := Add(desired.position, movement));
      desiredTransform, desiredTargetDistance := desired, distance;
    }

    /** Trackball, current side: blend the distance and the pivot, slerp the orientation and
        place the camera behind the blended pivot. */
    method FollowDesiredCamera(moveBlend: real, turnBlend: real, g: Library)
      modifies this
      ensures var d := Mix(old(currentTargetDistance), desiredTargetDistance, moveBlend);
        State() == old(State()).(
          currentTransform := OrbitCurrent(old(currentTransform), desiredTransform, desiredTargetDistance,
                                           d, moveBlend, turnBlend, g),
          currentTargetDistance := d)
    {
      var current := currentTransform;
      var currentDistance := Mix(currentTargetDistance, desiredTargetDistance, moveBlend);
      var desiredTarget := Pivot(desiredTransform, desiredTargetDistance, g);
      var oldActualTarget := Pivot(current, currentDistance, g);
      oldActualTarget := Mix3(oldActualTarget, desiredTarget, moveBlend);
      current := current.(orientation := g.slerp(current.orientation, desiredTransform.orientation, turnBlend));
      var newActualTarget := Pivot(current, currentDistance, g);
      current := current.(position := Add(current.position, Sub(oldActualTarget, newActualTarget)));
      currentTransform, currentTargetDistance := current, currentDistance;
    }

    /** The first-person branch of update. */
    method UpdateFirstPerson(deltaTime: real, g: Library)
      requires mode == FirstPerson
      modifies this
      ensures State() == IntegrateFirstPerson(old(State()), deltaTime, g)
    {
      ghost var s := State();
      var movement := g.rotate(currentTransform.orientation, Scale(movementInput, movementSpeedMod));
      assert movement == Movement(s, g);
      var desired := desiredTransform.(position := Add(desiredTransform.position, movement));
      desired := desired.(orientation := Turned(desired.orientation, rotationInput, worldUp, g));
      assert desired == IntegrateFirstPerson(s, deltaTime, g).desiredTransform;
      var current := currentTransform.(position :=
        Mix3(currentTransform.position, desired.position, g.pow(deltaTime, movementSmoothing)));
      current := current.(orientation :=
        g.slerp(current.orientation, desired.orientation, g.pow(deltaTime, rotationSmoothing)));
      assert current == IntegrateFirstPerson(s, deltaTime, g).currentTransform;
      desiredTransform, currentTransform := desired, current;
    }
  }
}
