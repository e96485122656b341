# PyParticleVis camera input layer, in Dafny

This project models the interactive camera of PyParticleVis, a small OpenGL particle viewer
written in Python.

- **Camera** (`camera.py`) holds tunables, two input accumulators and two transforms:
  - `rotationInput` and `movementInput` are filled by the input methods `rotateH`, `rotateV`, `moveX/Y/Z`, `panH`, `panV` and `zoom`. These are gated on the integer mode (0 is trackball, 1 is first person) and on `enableAllControls`.
  - `desiredTransform` and `currentTransform`, with their target distances, are moved once per frame by `update`. In trackball mode `update` orbits the desired camera around a pivot, applies the zoom guard and drags the current camera after it. In first-person mode it moves and turns the desired camera and blends the current one towards it. In every mode it then recomputes the matrices and consumes the frame's input.
- **CameraInputHandler** (`camera.py`) is an event-driven state machine:
  - Its state is a key map, a table of held actions, the last mouse position, and the `handled` flag of each event.
  - Key presses and releases hold and release actions; `SWITCH_INPUT_MODE` toggles the camera mode instead.
  - Mouse moves rotate or pan (rotation wins). The wheel zooms.
  - `changeMovementSpeed` rescales the three speeds.
  - `on_draw` turns the held actions into camera calls once per frame.
- **CameraKeyInputs** has 22 members. `ZOOM_IN` is declared with the value of `PAN_RIGHT`, so it is an alias of that member.
- **`_checkerboard`** (`ParticleVis.py`) builds the viewer's test texture from Python list repetition, two Kronecker products and a reshape.

Modules:

- `Glm` (glm.dfy): vectors, the transform record, and the linear-algebra library. The library is a record of functions, so quaternion and matrix arithmetic stays abstract.
- `CameraModel` (camera_model.dfy): the camera's state as a value, and each camera operation as a function of that value. Proved here:
  - input calls commute;
  - the accumulators are cleared after `update`;
  - the zoom floor holds over any sequence of frames of camera input calls, with the speeds unchanged;
  - the smoothing shrinks the distance gap.
- `Cameras` (camera.dfy): class `Camera`, whose methods update its fields in place. Each is proved to leave the object in the state the matching `CameraModel` function gives.
- `KeyInputs` (key_inputs.dfy): the enum, its values, its iteration order, and the default key map.
- `HandlerModel` (handler_model.dfy): the handler's transitions as functions, with their properties.
- `InputHandlers` (handler.dfy): class `CameraInputHandler` and the three event classes. Each handler method is proved against `HandlerModel`.
- `Checkerboard` (checkerboard.dfy): `np.kron` and `np.reshape` on nested sequences, and the texture built from them. It is proved equal, entry by entry, to the rule "1 on the even squares of a size × size grid".

Behaviour of the code that the model keeps as written, though a reader might expect otherwise:

- `prevMousePos` is updated only for events that arrive unhandled.
- A release of the key bound to `SWITCH_INPUT_MODE` stores `False` for that action.
- The `ZOOM_IN`/`ZOOM_OUT` tests call `panH`, not `zoom`.
- Movement is rotated by the current orientation, not the desired one.
- A mode other than 0 or 1 skips integration, but `update` still consumes the input and recomputes the matrices.

## Model

| member | source | states |
|---|---|---|
| Glm.MixBetween | camera.py:116 | a blend with factor in [0, 1] lies between its two ends |
| Glm.MixGapShrinks | camera.py:116 | with factor in [0, 1] the blended value is no farther from the far end than the start was |
| Glm.LookAt | transform.py:30-32 | lookAt recomputes only the orientation; position and scale are kept |
| CameraModel.InputGating | camera.py:56-84 | moves act only in mode 1 or with all controls, pans and zoom only in mode 0 or with all controls; zoom subtracts dz·zoomSpeed from z; rotation uses fpsRotationSpeed in mode 1 and tbRotationSpeed otherwise; nothing but the two accumulators changes |
| CameraModel.ApplyAddsDelta | camera.py:56-84 | one input call adds exactly its contribution (reference definition) to each accumulator |
| CameraModel.AccumulateSum | camera.py:56-84 | any sequence of input calls leaves the accumulators at their start value plus the sum of the contributions, and nothing else changed |
| CameraModel.AccumulateStep | camera.py:56-84 | one more call on top of accumulated totals adds its own contribution |
| CameraModel.DeltaDependsOnSettings | camera.py:56-84 | a call's contribution depends only on the tunables and the mode |
| CameraModel.TotalsWithout | camera.py:56-84 | taking one call out of a sequence removes exactly its contribution |
| CameraModel.TotalsPermutation | camera.py:56-84 | the summed contributions depend only on the multiset of calls |
| CameraModel.OrderIndependent | camera.py:56-84 | input calls between two updates commute: any reordering gives the same state |
| CameraModel.SetSnaps | camera.py:39-54 | without interpolation setPosition/setTarget copy position, orientation and distance into the current transform; with it they leave the current transform and distance untouched; no other field changes |
| CameraModel.InitialState | camera.py:9-37 | a new camera has empty accumulators, modifier 1, current equal desired, both distances the target's distance, the view matrix the inverse of the model matrix |
| CameraModel.Update | camera.py:86-153 | after update, in every mode, both accumulators are zero, the modifier is 1.0, tunables and mode are unchanged, and the view matrix is the inverse of the model matrix |
| CameraModel.ZoomGuard | camera.py:108-109 | in trackball mode the desired distance takes movementInput.z exactly when the result exceeds 0.01·zoomSpeed, so it ends unchanged or above that floor; in any other mode neither distance changes |
| CameraModel.UpdateKeepsZoomFloor | camera.py:108-116 | a trackball update with blend factor in [0, 1] keeps both distances above 0.01·zoomSpeed |
| CameraModel.ZoomFloorForever | camera.py:56-153 | in trackball mode, over any sequence of frames whose inputs are camera input calls (the speeds unchanged), provided every frame's blend factor pow(deltaTime, movementSmoothing) lies in [0, 1], both distances stay above the floor and the settings never change |
| CameraModel.LongFrameBreaksZoomFloor | camera.py:116 | with the default smoothing 0.25 and a 16-second frame (factor 2), a current distance of 1 blended towards a desired 0.4 ends at −0.2, below the floor |
| CameraModel.ClampedBlend | camera.py:116 | the library with its blend factors clamped: every factor lies in [0, 1], and factors already in [0, 1] are unchanged |
| CameraModel.ClampedZoomFloorForever | camera.py:86-128 | with clamped blend factors the floor holds in trackball mode over any sequence of frames of camera input calls (the speeds unchanged), however long each frame is |
| CameraModel.DistanceConverges | camera.py:108-116 | the current distance keeps the fraction 1 − t of its gap to the desired one, and for t in [0, 1] the gap never grows |
| CameraModel.BlendedGap | camera.py:116 | a value blended towards d keeps the fraction 1 − t of its gap to d |
| CameraModel.PositionConverges | camera.py:130-142 | in first-person mode each position component keeps the fraction 1 − t of its gap to the new desired position |
| CameraModel.OrbitPivotBlended | camera.py:114-128 | the current camera's pivot is the blend of its old pivot and the desired pivot |
| CameraModel.RotationKeepsPivot | camera.py:88-112 | without movement input, a trackball update orbits the desired camera about a fixed pivot |
| Cameras.Camera.constructor | camera.py:9-37 | the new object is in the state CameraModel.Initial describes |
| Cameras.Camera.SetTarget | camera.py:39-47 | the object ends in CameraModel.SetTarget of its old state |
| Cameras.Camera.SetPosition | camera.py:49-54 | the object ends in CameraModel.SetPosition of its old state |
| Cameras.Camera.RotateH | camera.py:56-57 | the object ends in Apply(old state, RotateH(dPhi)) |
| Cameras.Camera.RotateV | camera.py:59-60 | the object ends in Apply(old state, RotateV(dTheta)) |
| Cameras.Camera.MoveX | camera.py:62-64 | the object ends in Apply(old state, MoveX(dx)) |
| Cameras.Camera.MoveY | camera.py:66-68 | the object ends in Apply(old state, MoveY(dy)) |
| Cameras.Camera.MoveZ | camera.py:70-72 | the object ends in Apply(old state, MoveZ(dz)) |
| Cameras.Camera.PanH | camera.py:74-76 | the object ends in Apply(old state, PanH(dx)) |
| Cameras.Camera.PanV | camera.py:78-80 | the object ends in Apply(old state, PanV(dy)) |
| Cameras.Camera.Zoom | camera.py:82-84 | the object ends in Apply(old state, Zoom(dz)) |
| Cameras.Camera.Update | camera.py:86-153 | the object ends in CameraModel.Update of its old state |
| Cameras.Camera.UpdateTrackball | camera.py:88-128 | the trackball branch leaves the object in CameraModel.IntegrateTrackball of its old state |
| Cameras.Camera.OrbitDesiredCamera | camera.py:92-112 | the desired transform is orbited and panned and the zoom guard applied, all else unchanged |
| Cameras.Camera.FollowDesiredCamera | camera.py:114-128 | the current distance is blended and the current transform placed behind the blended pivot, all else unchanged |
| Cameras.Camera.UpdateFirstPerson | camera.py:130-144 | the first-person branch leaves the object in CameraModel.IntegrateFirstPerson of its old state |
| Cameras.Camera.UpdateMatrices | camera.py:146-147 | the model matrix is that of the current transform, the view matrix its inverse, all else unchanged |
| Cameras.Camera.ConsumeInput | camera.py:148-153 | both accumulators are zeroed and the modifier reset to 1.0, all else unchanged |
| KeyInputs.ValuesRoundTrip | camera.py:156-179 | values and members correspond one to one on 0..21, and ZOOM_IN is the PAN_RIGHT member with value 20 |
| KeyInputs.AllActionsComplete | camera.py:156-179 | iterating the enum visits 22 members, every member, none twice |
| HandlerModel.ChooseKeyMap | camera.py:186-198 | a given non-empty key map is used, a missing or empty one is replaced by the default; the result is never empty |
| HandlerModel.AllReleasedIsHeldTable | camera.py:199-201 | the initial table has every action, all released |
| HandlerModel.KeyTransitions | camera.py:210-221 | for an unhandled mapped key a press holds the action (the mode switch instead toggles the mode and leaves the table), a release releases it, both handle the event and touch no other action; a handled or unmapped event changes nothing |
| HandlerModel.PressThenRelease | camera.py:210-221 | press then release of a released action restores the table and the mode |
| HandlerModel.SwitchTwice | camera.py:212-213 | the mode switch keeps the mode in {0, 1}, and two presses give back mode % 2 |
| HandlerModel.RoutePriority | camera.py:223-234 | rotation is chosen exactly when it is active, pan exactly when rotation is not and pan is, the event is ignored exactly when neither is; rotation sends (−dx, −dy), pan (−dx, +dy) |
| HandlerModel.RescaleShifted | camera.py:241-244 | each rescaled speed, shifted by float_info.min, is the shifted speed times 1 + 0.025·change |
| HandlerModel.RescaleMonotone | camera.py:241-244 | a positive change raises a speed, a negative one lowers it, zero keeps it; a change above −40 keeps it above −float_info.min; a speed of 0 goes negative under a negative change |
| HandlerModel.SpeedRatiosKept | camera.py:241-244 | the three shifted speeds are scaled by the same factor and no other field changes |
| HandlerModel.WhenInputsOnly | camera.py:248-287 | one conditional call of on_draw changes only the accumulators |
| HandlerModel.MovesTouchInputsOnly | camera.py:252-263 | the move keys change only the accumulators |
| HandlerModel.RotationsTouchInputsOnly | camera.py:268-275 | the rotation keys change only the accumulators |
| HandlerModel.PansTouchInputsOnly | camera.py:276-287 | the pan and zoom keys change only the accumulators |
| HandlerModel.OnDrawIdle | camera.py:246-287 | with no held action on_draw changes nothing |
| HandlerModel.OnDrawFrame | camera.py:246-287 | on_draw changes only the accumulators, the modifier and the speeds; the modifier is multiplied by 2.0 for MOVE_FAST and 0.5 for MOVE_SLOW, so both together leave it unchanged; without speed keys the tunables and mode are kept |
| HandlerModel.PanRightCalls | camera.py:280-285 | holding PAN_RIGHT alone calls panH(60·dt) and then panH(1·dt), because ZOOM_IN is the same action |
| HandlerModel.PanRightIsZoomIn | camera.py:176-178 | so in trackball mode movementInput.x grows by 61·dt·panSpeed, not 60 |
| HandlerModel.TwoPans | camera.py:74-76 | in trackball mode, panH(60·dt) followed by panH(1·dt) adds 61·dt·panSpeed to movementInput.x (the general sum over any calls is AccumulateSum's) |
| InputHandlers.ReleasedTable | camera.py:199-201 | the loop over the enum builds the table with every action released |
| InputHandlers.CameraInputHandler.constructor | camera.py:183-208 | the key map is ChooseKeyMap of the argument, every action is released, the mouse settings are the arguments, the mouse position is (0, 0) |
| InputHandlers.CameraInputHandler.OnKeyPressed | camera.py:210-216 | table, camera mode and flag end as KeyPressed says; no other camera field changes |
| InputHandlers.CameraInputHandler.OnKeyReleased | camera.py:218-221 | table and flag end as KeyReleased says |
| InputHandlers.CameraInputHandler.OnMouseMove | camera.py:223-234 | a handled event changes nothing; an unhandled one records the position, applies the routed calls to the cursor's travel, and is handled exactly when routed |
| InputHandlers.CameraInputHandler.MouseDrive | camera.py:227-234 | the camera ends in the state of the route's two calls |
| InputHandlers.CameraInputHandler.OnMouseWheel | camera.py:236-239 | an unhandled event with zoom enabled zooms by 10·dy and is handled; otherwise nothing changes |
| InputHandlers.CameraInputHandler.ChangeMovementSpeed | camera.py:241-244 | the camera ends in HandlerModel.ChangeMovementSpeed of its old state |
| InputHandlers.CameraInputHandler.OnDraw | camera.py:246-287 | the camera ends in HandlerModel.OnDraw of its old state and the held table |
| InputHandlers.CameraInputHandler.DrawSpeedKeys | camera.py:248-251 | the speed keys rescale by ±20·dt |
| InputHandlers.CameraInputHandler.DrawMoveKeys | camera.py:252-263 | the move keys call moveZ, moveX, moveY at ±20·dt in source order |
| InputHandlers.CameraInputHandler.DrawModifierKeys | camera.py:264-267 | the modifier keys double and halve the speed modifier |
| InputHandlers.CameraInputHandler.DrawRotationKeys | camera.py:268-275 | the rotation keys call rotateV, rotateH at ±60·dt in source order |
| InputHandlers.CameraInputHandler.DrawPanKeys | camera.py:276-287 | the pan keys call panV, panH at ±60·dt and the zoom keys panH at ±1·dt |
| InputHandlers.CameraInputHandler.Poll | camera.py:248-287 | a held key makes its one camera call, a released one none |
| Checkerboard.Repeat | ParticleVis.py:14 | list repetition has length count · length |
| Checkerboard.RepeatAt | ParticleVis.py:14 | entry i of a repeated list is entry i mod length of the list |
| Checkerboard.Ones | ParticleVis.py:14 | np.ones((p, q)) is a p × q array of ones |
| Checkerboard.Kron | ParticleVis.py:13-15 | the Kronecker product of a p × q and an r × s array is pr × qs |
| Checkerboard.Reshape3 | ParticleVis.py:12-16 | the reshape has shape a × b × d |
| Checkerboard.ReshapeAt | ParticleVis.py:12-16 | reshaping keeps each entry at its row-major position |
| Checkerboard.Tiles | ParticleVis.py:14 | the list of lists is a 2·tiles × 2·tiles array |
| Checkerboard.TilesAt | ParticleVis.py:14 | the small board is 1 exactly where row + column is even |
| Checkerboard.Blocks | ParticleVis.py:14 | the first product is a square of side 2·tiles·size (at tiles = 0 see "## Left out") |
| Checkerboard.BlocksAt | ParticleVis.py:14 | an entry of the first product follows the colour rule |
| Checkerboard.Channels | ParticleVis.py:13-15 | the second product has three columns per pixel |
| Checkerboard.ChannelsAt | ParticleVis.py:13-15 | each channel of the second product copies its entry of the first |
| Checkerboard.CheckerboardShape | ParticleVis.py:12-16 | the image has shape (2·tiles·size, 2·tiles·size, 3) |
| Checkerboard.CheckerboardPixel | ParticleVis.py:11-16 | entry (i, j, k) is 1 when i/size + j/size is even and 0 otherwise, so every entry is 0 or 1 |
| Checkerboard.CheckerboardCorner | ParticleVis.py:11-16 | the top-left block is 1 and the three channels of a pixel are equal |
| Checkerboard.CheckerboardNeighbours | ParticleVis.py:14 | each aligned size × size block is constant, and blocks next to each other down a column or across a row differ |
| Checkerboard.PixelBlocks | ParticleVis.py:14 | the reference rule is 1 in the corner block, constant on blocks and alternating between neighbours |

## Left out

- Quaternion, matrix and vector-library arithmetic (`glm.angleAxis`, `normalize`, quaternion products, quaternion·vector, `slerp`, `quatLookAt`, `mat4`, `inverse`) is not computed. These are fields of the `Library` record, applied in exactly the places and order the code uses them.
- `glm.pow(deltaTime, k)` is a library field, so the blend factor is a given value. The convergence and floor lemmas assume it lies in [0, 1] where they need to.
- `glm.length` in setTarget is a library field returning a given real. Its non-negativity is not used.
- Floating-point rounding: speeds, deltas and distances are mathematical reals. `sys.float_info.min` is the exact rational 2.2250738585072014e-308.
- Aliasing of vec3 objects: the model treats vectors and transforms as values copied on assignment. The code instead hands one `position` vector to both transforms (camera.py:28, 30), and shares it again after `setPosition(p)` without interpolation (camera.py:52-54). PyGLM's `+=` updates a vector in place, so a shift of either transform's position also moves the other until line 141 assigns a fresh vector, or until `setPosition(p, interpolate=True)` gives the desired transform a vector of its own (camera.py:52). The default arguments of the constructor (camera.py:9) are also single vector objects shared by every camera built with them.
- CameraModel.RotationKeepsPivot: holds for the model's value semantics only. In the code, the `+=` at camera.py:128 also moves the shared desired position, so after construction the desired pivot generally drifts.
- CameraModel.OrbitPivotBlended: same caveat. In the code the desired position (and with it the desired pivot) is also moved by the `+=` at camera.py:128 while the current camera is placed.
- CameraModel.PositionConverges: same caveat. In the code, on the first first-person frame after a snap, the `+=` at camera.py:133 moves the current position too, so current starts that frame already at the new desired position.
- CameraModel.ZoomFloorForever, CameraModel.UpdateKeepsZoomFloor: state the floor only for blend factors in [0, 1]. The caller passes the unclamped wall-clock frame time (ParticleVis.py:155-161), so a frame longer than one second makes the factor exceed 1, and the code then breaks the floor (see Findings).
- CameraModel.ZoomFloorForever, CameraModel.ClampedZoomFloorForever: a frame holds only the camera's input calls. In the program, the handler's on_draw runs before each update (ParticleVis.py:160-161), and while INCREASE_SPEED or DECREASE_SPEED is held it calls changeMovementSpeed (camera.py:248-251, 241-244). That rescales zoomSpeed and so moves the floor 0.01·zoomSpeed itself: a raised floor can leave the distances below it, and a change below −40 (DECREASE_SPEED over a frame longer than 2 s) makes zoomSpeed negative. The floor is proved only for frames that leave the speeds unchanged.
- Checkerboard.MakeCheckerboard: size and tiles are natural numbers, so the negative arguments for which numpy raises an error are not modelled.
- transform.py is reduced to a record of position, scale and orientation, with `mat4` as a library function and `lookAt` as LookAt.
- The `Canvas` class of ParticleVis.py: shaders, file I/O, GPU state, the clock and the event loop. Events are reduced to classes carrying only the fields the handler reads: key, pos, buttons, delta and handled.
- The mouse position is a pair of reals. The code subtracts vispy position arrays element-wise.
- numpy builds the checkerboard entries as floats; the model uses the integers 0 and 1.
- Checkerboard.Blocks, Checkerboard.Channels: at tiles = 0 the tile list is the empty 1-D list, which `np.kron` promotes to a 1 × 0 array, so numpy's two products are size × 0 arrays, while the model's have no rows. The reshaped image is empty in both.
- `np.kron(A, [1, 1, 1])` promotes the 1-D operand to the 1 × 3 array `[[1, 1, 1]]`. The model writes the 2-D form directly.
- Cameras.Camera.Update: the trackball and first-person branches are split into helper methods (UpdateTrackball, OrbitDesiredCamera, FollowDesiredCamera, UpdateFirstPerson, UpdateMatrices, ConsumeInput). OrbitDesiredCamera, FollowDesiredCamera and UpdateFirstPerson compute the code's intermediate values into locals and assign the fields together at the end. Under the model's value semantics this is the same as the code's step-by-step updates; with the aliasing described above it is not.
- InputHandlers.CameraInputHandler.OnDraw: the chain of tests is split into five helper methods in the code's order, and each camera call goes through Poll.
- Key-map rebinding, a guard against a degenerate lookAt, and clamping of `deltaTime`: the code has none of these, so neither does the model.

## Findings

| source | as written | input that shows it | evidently intended | confidence | as-written member | corrected member |
|---|---|---|---|---|---|---|
| camera.py:116 with ParticleVis.py:155-161 | the distance blend factor is pow(deltaTime, movementSmoothing) with deltaTime the unclamped wall-clock frame time, so a frame longer than one second gives a factor above 1 and the blend overshoots | trackball mode, movementSmoothing 0.25, zoomSpeed 0.25, current distance 1.0, desired 0.4, no input, a 16-second frame: factor 2, new current distance −0.2 | the blend factor stays in [0, 1] (for instance by clamping deltaTime to one second), so the distance never passes the desired one and never drops below the zoom floor | medium, not executed | CameraModel.LongFrameBreaksZoomFloor | CameraModel.ClampedZoomFloorForever |

The classes model the code as written. The corrected behaviour is the same update run with the library given by CameraModel.ClampedBlend.
