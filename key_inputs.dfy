/** The camera actions a key can be bound to (the CameraKeyInputs enum) and the key map the
    input handler uses when it is given none. */
module KeyInputs {

  datatype Option<T> = None | Some(value: T)

  /** The 22 distinct members of the enum, in definition order. */
  datatype Action =
    | MoveForward | MoveBackward | MoveRight | MoveLeft | MoveUp | MoveDown
    | EnableMouseRotation | EnableMousePan | SwitchInputMode | MoveFast | MoveSlow
    | IncreaseSpeed | DecreaseSpeed | RotateUp | RotateDown | RotateRight | RotateLeft
    | PanUp | PanDown | PanRight | PanLeft | ZoomOut

  /** The integer value each member is declared with. PAN_RIGHT is declared as 20 and
      PAN_LEFT as 19, out of order. */
  function Value(a: Action): int {
    match a
    case MoveForward => 0
    case MoveBackward => 1
    case MoveRight => 2
    case MoveLeft => 3
    case MoveUp => 4
    case MoveDown => 5
    case EnableMouseRotation => 6
    case EnableMousePan => 7
    case SwitchInputMode => 8
    case MoveFast => 9
    case MoveSlow => 10
    case IncreaseSpeed => 11
    case DecreaseSpeed => 12
    case RotateUp => 13
    case RotateDown => 14
    case RotateRight => 15
    case RotateLeft => 16
    case PanUp => 17
    case PanDown => 18
    case PanRight => 20
    case PanLeft => 19
    case ZoomOut => 21
  }

  /** Lookup by value, as the enum does it: the first member declared with that value. */
  function FromValue(v: int): Option<Action> {
    if v == 0 then Some(MoveForward) else if v == 1 then Some(MoveBackward)
    else if v == 2 then Some(MoveRight) else if v == 3 then Some(MoveLeft)
    else if v == 4 then Some(MoveUp) else if v == 5 then Some(MoveDown)
    else if v == 6 then Some(EnableMouseRotation) else if v == 7 then Some(EnableMousePan)
    else if v == 8 then Some(SwitchInputMode) else if v == 9 then Some(MoveFast)
    else if v == 10 then Some(MoveSlow) else if v == 11 then Some(IncreaseSpeed)
    else if v == 12 then Some(DecreaseSpeed) else if v == 13 then Some(RotateUp)
    else if v == 14 then Some(RotateDown) else if v == 15 then Some(RotateRight)
    else if v == 16 then Some(RotateLeft) else if v == 17 then Some(PanUp)
    else if v == 18 then Some(PanDown) else if v == 19 then Some(PanLeft)
    else if v == 20 then Some(PanRight) else if v == 21 then Some(ZoomOut)
    else None
  }

  /** ZOOM_IN is declared with 20, the value of PAN_RIGHT, so the enum makes the name an
      alias of that member rather than a member of its own. */
  const ZoomIn: Action := FromValue(20).value

  /** Values and members correspond one to one, and ZOOM_IN names the PAN_RIGHT member. */
  lemma ValuesRoundTrip(a: Action, v: int)
    ensures FromValue(Value(a)) == Some(a)
    ensures FromValue(v).Some? <==> 0 <= v <= 21
    ensures FromValue(v).Some? ==> Value(FromValue(v).value) == v
    ensures ZoomIn == PanRight && Value(ZoomIn) == 20
  {
  }

  /** Iterating the enum: each member once, in definition order, the alias skipped. */
  const AllActions: seq<Action> := [
    MoveForward, MoveBackward, MoveRight, MoveLeft, MoveUp, MoveDown,
    EnableMouseRotation, EnableMousePan, SwitchInputMode, MoveFast, MoveSlow,
    IncreaseSpeed, DecreaseSpeed, RotateUp, RotateDown, RotateRight, RotateLeft,
    PanUp, PanDown, PanRight, PanLeft, ZoomOut]

  /** The iteration visits 22 members, every member, none twice. */
  lemma AllActionsComplete(a: Action)
    ensures a in AllActions
    ensures |AllActions| == 22
    ensures forall i, j :: 0 <= i < j < |AllActions| ==> AllActions[i] != AllActions[j]
  {
    forall i, j | 0 <= i < j < |AllActions| ensures AllActions[i] != AllActions[j] {
      assert Value(AllActions[i]) != Value(AllActions[j]) by {
        assert forall k :: 0 <= k < |AllActions| ==> Value(AllActions[k]) == if k == 19 then 20 else if k == 20 then 19 else k;
      }
    }
  }

  /** The key map used when the handler is given an empty or missing one. */
  const DefaultKeyMap: map<string, Action> := map[
    "W" := MoveForward, "S" := MoveBackward,
    "D" := MoveRight, "A" := MoveLeft,
    "Q" := MoveDown, "E" := MoveUp,
    "Control" := EnableMouseRotation, "Alt" := EnableMousePan,
    "Shift" := MoveSlow, " " := MoveFast,
    "X" := SwitchInputMode,
    "F" := IncreaseSpeed, "C" := DecreaseSpeed,
    "Up" := RotateUp, "Down" := RotateDown,
    "Left" := RotateLeft, "Right" := RotateRight]
}
