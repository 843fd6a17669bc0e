/** The scene's input handling: the global state the render loop and the cursor callback
    share, the camera set-up before the loop, processKeyboard (one call per frame) and
    processMouse (one call per cursor event). */
module SceneInput {
  import opened Geometry
  import opened Camera
  import opened FlyThroughCamera
  import opened ModelViewerCamera

  /** The keys processKeyboard polls. */
  datatype Key =
    | Escape | Comma | Period | M | N | Space | L
    | W | A | S | D
    | UpArrow | DownArrow | LeftArrow | RightArrow | R | F

  /** Degrees added to (`,`) or taken from (`.`) the scene's y rotation per frame. */
  const RotationStep: real := 5.0
  /** The change of the orbit distance per frame for R and F. */
  const DistanceStep: real := 0.2 * MovementSpeed
  /** The orbit camera always looks at the origin. */
  const OrbitTarget := Origin

  /** The value of every global the input handlers read or write. */
  datatype SceneState = SceneState(
    lightDirection: Vec3,
    lightPos: Vec3,
    ft: CameraState,
    mv: CameraState,
    isFlyThrough: bool,
    camDist: real,
    yRotationAngle: real,
    firstMouse: bool,
    prevMouseX: real,
    prevMouseY: real,
    closeRequested: bool)

  /** The scene's globals; the two cameras are distinct objects the handlers update in place. */
  class Scene {
    var lightDirection: Vec3
    var lightPos: Vec3
    const cameraFT: SCamera
    const cameraMV: SCamera
    var isFlyThrough: bool
    var camDist: real
    var yRotationAngle: real
    var firstMouse: bool
    var prevMouseX: real
    var prevMouseY: real
    var closeRequested: bool

    predicate Valid()
      reads this
    {
      cameraFT != cameraMV
    }

    function State(): SceneState
      reads this, cameraFT, cameraMV
    {
      SceneState(lightDirection, lightPos, cameraFT.State(), cameraMV.State(), isFlyThrough, camDist,
                 yRotationAngle, firstMouse, prevMouseX, prevMouseY, closeRequested)
    }

    /** The globals before main runs: their initialisers, and zero for the rest. */
    constructor ()
      ensures Valid()
      ensures State() == StaticScene
      ensures fresh(cameraFT) && fresh(cameraMV)
    {
      lightDirection := Vec3(0.0, -1.0, 0.0);
      lightPos := Vec3(0.0, 4.0, 0.0);
      cameraFT := new SCamera();
      cameraMV := new SCamera();
      isFlyThrough := true;
      camDist := 0.0;
      yRotationAngle := 0.0;
      firstMouse := true;
      prevMouseX, prevMouseY := 0.0, 0.0;
      closeRequested := false;
    }

    /** The camera set-up in main before the render loop. */
    method SetupCameras(m: Maths)
      requires Valid()
      modifies this, cameraFT, cameraMV
      ensures Valid()
      ensures State() == SetUp(m, old(State()))
    {
      InitCamera(m, cameraFT, 45.0, -15.0);
      OrientCamera(m, cameraFT, 0.0, 0.0);

      InitCamera(m, cameraMV, 0.0, 0.0);
      camDist := 15.0;
      var camXOffset := 360.0;
      var camYOffset := -45.0;
      MoveAndOrientCamera(m, cameraMV, OrbitTarget, camDist, camXOffset, camYOffset);
    }

    /** One frame of keyboard handling for the keys held down in `keys`. */
    method ProcessKeyboard(m: Maths, keys: set<Key>)
      requires Valid()
      modifies this, cameraFT, cameraMV
      ensures Valid()
      ensures State() == KeyboardStep(m, old(State()), keys)
    {
      HandleWindowKeys(keys);
      HandleModeKeys(keys);
      HandleLightKeys(keys);
      ghost var controlled := State();
      assert controlled == ControlKeys(old(State()), keys);

      var camXOffset := 0.0;
      var camYOffset := 0.0;
      var camChanged := false;

      if isFlyThrough {
        camChanged := MoveFlyThrough(keys);
      } else {
        camXOffset, camYOffset, camChanged := ReadOrbitKeys(keys);
      }

      if camChanged {
        if !isFlyThrough {
          MoveAndOrientCamera(m, cameraMV, OrbitTarget, camDist, camXOffset, camYOffset);
        }
      }
    }

    /** Escape asks the window to close; `,` and `.` turn the scene. */
    method HandleWindowKeys(keys: set<Key>)
      modifies this`closeRequested, this`yRotationAngle
      ensures closeRequested == (old(closeRequested) || Escape in keys)
      ensures yRotationAngle == RotationAfter(old(yRotationAngle), keys)
    {
      if Escape in keys {
        closeRequested := true;
      }

      if Comma in keys {
        yRotationAngle := yRotationAngle + RotationStep;
      }
      if Period in keys {
        yRotationAngle := yRotationAngle - RotationStep;
      }
    }

    /** M selects the orbit camera and N the fly-through camera. */
    method HandleModeKeys(keys: set<Key>)
      modifies this`isFlyThrough
      ensures isFlyThrough == ModeAfter(old(isFlyThrough), keys)
    {
      if M in keys {
        isFlyThrough := false;
      }
      if N in keys {
        isFlyThrough := true;
      }
    }

    /** Space and L place the light at the active camera, shining along its view. */
    method HandleLightKeys(keys: set<Key>)
      modifies this`lightDirection, this`lightPos
      ensures (lightDirection, lightPos) == LightAfter(old(lightDirection), old(lightPos),
                                                       if isFlyThrough then cameraFT.State() else cameraMV.State(), keys)
    {
      if Space in keys || L in keys {
        if isFlyThrough {
          lightDirection := cameraFT.front;
          lightPos := cameraFT.position;
        } else {
          lightDirection := cameraMV.front;
          lightPos := cameraMV.position;
        }
      }
    }

    /** The W, A, S and D part of processKeyboard in fly-through mode. */
    method MoveFlyThrough(keys: set<Key>) returns (camChanged: bool)
      modifies cameraFT
      ensures cameraFT.State() == FlyMoves(old(cameraFT.State()), keys)
      ensures camChanged <==> W in keys || A in keys || S in keys || D in keys
    {
      camChanged := false;
      if W in keys {
        MoveCamera(cameraFT, Forward);
        camChanged := true;
      }
      if A in keys {
        MoveCamera(cameraFT, Left);
        camChanged := true;
      }
      if S in keys {
        MoveCamera(cameraFT, Backward);
        camChanged := true;
      }
      if D in keys {
        MoveCamera(cameraFT, Right);
        camChanged := true;
      }
    }

    /** The arrow-key, R and F part of processKeyboard in orbit mode. */
    method ReadOrbitKeys(keys: set<Key>) returns (camXOffset: real, camYOffset: real, camChanged: bool)
      modifies this`camDist
      ensures camDist == DistanceAfter(old(camDist), keys)
      ensures (camXOffset, camYOffset) == OrbitOffset(keys)
      ensures camChanged == OrbitKeyHeld(keys)
    {
      camXOffset, camYOffset := 0.0, 0.0;
      camChanged := false;
      if UpArrow in keys {
        camXOffset, camYOffset := 0.0, -1.0;
        camChanged := true;
      }
      if DownArrow in keys {
        camXOffset, camYOffset := 0.0, 1.0;
        camChanged := true;
      }
      if LeftArrow in keys {
        camXOffset, camYOffset := -1.0, 0.0;
        camChanged := true;
      }
      if RightArrow in keys {
        camXOffset, camYOffset := 1.0, 0.0;
        camChanged := true;
      }

      if R in keys {
        camDist := camDist - DistanceStep;
        camChanged := true;
      }
      if F in keys {
        camDist := camDist + DistanceStep;
        camChanged := true;
      }
    }

    /** One cursor event at window coordinates (x, y). */
    method ProcessMouse(m: Maths, x: real, y: real)
      requires Valid()
      modifies this, cameraFT
      ensures Valid()
      ensures State() == MouseStep(m, old(State()), x, y)
    {
      if firstMouse {
        prevMouseX := x;
        prevMouseY := y;
        firstMouse := false;
      }

      var dX := x - prevMouseX;
      var dY := prevMouseY - y;
      assert (dX, dY) == MouseOffsets(old(State()), x, y);

      prevMouseX := x;
      prevMouseY := y;

      if isFlyThrough {
        OrientCamera(m, cameraFT, dX, dY);
      }
    }
  }

  const StaticScene := SceneState(Vec3(0.0, -1.0, 0.0), Vec3(0.0, 4.0, 0.0), ZeroCamera, ZeroCamera,
                                  true, 0.0, 0.0, true, 0.0, 0.0, false)

  /** The state after the camera set-up in main. */
  function SetUp(m: Maths, st: SceneState): SceneState {
    st.(ft := Oriented(m, Initialised(m, st.ft, 45.0, -15.0), 0.0, 0.0),
        mv := Orbited(m, Initialised(m, st.mv, 0.0, 0.0), OrbitTarget, 15.0, 360.0, -45.0),
        camDist := 15.0)
  }

  /** The camera mode after M and N: N wins when both are held. */
  function ModeAfter(isFlyThrough: bool, keys: set<Key>): (r: bool)
    ensures N in keys ==> r
    ensures M in keys && N !in keys ==> !r
    ensures M !in keys && N !in keys ==> r == isFlyThrough
  {
    var afterM := if M in keys then false else isFlyThrough;
    if N in keys then true else afterM
  }

  /** The y rotation after `,` and `.`: holding both leaves it unchanged. */
  function RotationAfter(angle: real, keys: set<Key>): (r: real)
    ensures (Comma in keys <==> Period in keys) ==> r == angle
    ensures Comma in keys && Period !in keys ==> r == angle + RotationStep
    ensures Period in keys && Comma !in keys ==> r == angle - RotationStep
  {
    var afterComma := if Comma in keys then angle + RotationStep else angle;
    if Period in keys then afterComma - RotationStep else afterComma
  }

  /** The orbit offsets: the last of UP, DOWN, LEFT, RIGHT held (in that order) decides,
      so at most one of the two offsets is non-zero. */
  function OrbitOffset(keys: set<Key>): (r: (real, real))
    ensures RightArrow in keys ==> r == (1.0, 0.0)
    ensures LeftArrow in keys && RightArrow !in keys ==> r == (-1.0, 0.0)
    ensures DownArrow in keys && LeftArrow !in keys && RightArrow !in keys ==> r == (0.0, 1.0)
    ensures UpArrow in keys && DownArrow !in keys && LeftArrow !in keys && RightArrow !in keys ==> r == (0.0, -1.0)
    ensures UpArrow !in keys && DownArrow !in keys && LeftArrow !in keys && RightArrow !in keys ==> r == (0.0, 0.0)
    ensures r == (0.0, 0.0) || r == (0.0, -1.0) || r == (0.0, 1.0) || r == (-1.0, 0.0) || r == (1.0, 0.0)
  {
    var up := if UpArrow in keys then (0.0, -1.0) else (0.0, 0.0);
    var down := if DownArrow in keys then (0.0, 1.0) else up;
    var left := if LeftArrow in keys then (-1.0, 0.0) else down;
    if RightArrow in keys then (1.0, 0.0) else left
  }

  /** The orbit distance after R (closer) and F (further): holding both leaves it unchanged. */
  function DistanceAfter(dist: real, keys: set<Key>): (r: real)
    ensures (R in keys <==> F in keys) ==> r == dist
    ensures R in keys && F !in keys ==> r == dist - DistanceStep && r < dist
    ensures F in keys && R !in keys ==> r == dist + DistanceStep && r > dist
  {
    var afterR := if R in keys then dist - DistanceStep else dist;
    if F in keys then afterR + DistanceStep else afterR
  }

  /** A key that moves the orbit camera is held. */
  predicate OrbitKeyHeld(keys: set<Key>) {
    UpArrow in keys || DownArrow in keys || LeftArrow in keys || RightArrow in keys || R in keys || F in keys
  }

  /** The light direction and position after Space and L, copied from the camera `active`. */
  function LightAfter(direction: Vec3, pos: Vec3, active: CameraState, keys: set<Key>): (Vec3, Vec3) {
    if Space in keys || L in keys then (active.front, active.position) else (direction, pos)
  }

  /** The fly-through camera after W, A, S and D, applied in that order. */
  function FlyMoves(s: CameraState, keys: set<Key>): CameraState {
    var afterW := if W in keys then Moved(s, Forward) else s;
    var afterA := if A in keys then Moved(afterW, Left) else afterW;
    var afterS := if S in keys then Moved(afterA, Backward) else afterA;
    if D in keys then Moved(afterS, Right) else afterS
  }

  /** The first part of a frame: window close, scene rotation, camera mode and light. The
      light is copied from the camera of the new mode. */
  function ControlKeys(st: SceneState, keys: set<Key>): SceneState {
    var fly := ModeAfter(st.isFlyThrough, keys);
    var light := LightAfter(st.lightDirection, st.lightPos, if fly then st.ft else st.mv, keys);
    st.(closeRequested := st.closeRequested || Escape in keys,
        yRotationAngle := RotationAfter(st.yRotationAngle, keys),
        isFlyThrough := fly,
        lightDirection := light.0,
        lightPos := light.1)
  }

  /** The second part of a frame: the camera of the current mode moves. */
  function CameraKeys(m: Maths, st: SceneState, keys: set<Key>): SceneState {
    if st.isFlyThrough then
      st.(ft := FlyMoves(st.ft, keys))
    else
      var dist := DistanceAfter(st.camDist, keys);
      var offset := OrbitOffset(keys);
      st.(camDist := dist,
          mv := if OrbitKeyHeld(keys) then Orbited(m, st.mv, OrbitTarget, dist, offset.0, offset.1) else st.mv)
  }

  /** The state one frame of keyboard handling leaves behind. */
  function KeyboardStep(m: Maths, st: SceneState, keys: set<Key>): SceneState {
    CameraKeys(m, ControlKeys(st, keys), keys)
  }

  /** The offsets processMouse passes on for a cursor event at (x, y): zero for the first
      event, which only records the position; otherwise the motion since the recorded
      position, with y inverted so that moving the cursor up (smaller y) is positive. */
  function MouseOffsets(st: SceneState, x: real, y: real): (r: (real, real))
    ensures st.firstMouse ==> r == (0.0, 0.0)
    ensures !st.firstMouse ==> r.0 == x - st.prevMouseX && r.1 == -(y - st.prevMouseY)
  {
    var prevX := if st.firstMouse then x else st.prevMouseX;
    var prevY := if st.firstMouse then y else st.prevMouseY;
    (x - prevX, prevY - y)
  }

  /** The state one cursor event leaves behind: the position is recorded in both modes, and
      only the fly-through camera turns. */
  function MouseStep(m: Maths, st: SceneState, x: real, y: real): SceneState {
    var offsets := MouseOffsets(st, x, y);
    st.(firstMouse := false, prevMouseX := x, prevMouseY := y,
        ft := if st.isFlyThrough then Oriented(m, st.ft, offsets.0, offsets.1) else st.ft)
  }

  /** After the set-up the fly-through camera stands at the origin with yaw 45 and pitch -15;
      the orbit camera has been turned by 360 * MovementSpeed = 180 degrees of yaw to -180,
      and its pitch by 45 * MovementSpeed to 22.5, at distance 15 from the origin. */
  lemma InitialScene(m: Maths)
    ensures var s := SetUp(m, StaticScene);
      && s.isFlyThrough
      && s.ft.position == Origin && s.ft.yaw == 45.0 && s.ft.pitch == -15.0
      && s.mv.yaw == -180.0 && s.mv.pitch == 22.5 && s.camDist == 15.0
      && s.mv.position == OrbitPosition(m, -180.0, 22.5, 15.0)
      && s.firstMouse && s.lightPos == Vec3(0.0, 4.0, 0.0)
  {
  }

  /** Only the active camera is touched: in fly-through mode the orbit camera and its
      distance keep their values, in orbit mode the fly-through camera does; the orbit
      camera moves only when an orbit key is held. The keyboard never touches the cursor
      record, and a close request is never withdrawn. */
  lemma KeyboardTouchesActiveCameraOnly(m: Maths, st: SceneState, keys: set<Key>)
    ensures var r := KeyboardStep(m, st, keys);
      && (r.isFlyThrough ==> r.ft == FlyMoves(st.ft, keys) && r.mv == st.mv && r.camDist == st.camDist)
      && (!r.isFlyThrough ==> r.ft == st.ft)
      && (!r.isFlyThrough && !OrbitKeyHeld(keys) ==> r.mv == st.mv && r.camDist == st.camDist)
      && r.firstMouse == st.firstMouse && r.prevMouseX == st.prevMouseX && r.prevMouseY == st.prevMouseY
      && (st.closeRequested ==> r.closeRequested)
  {
  }

  /** Space or L puts the light where the camera of the new mode stood at the start of the
      frame, shining along its view; without them the light stays. */
  lemma LightFollowsActiveCamera(m: Maths, st: SceneState, keys: set<Key>)
    ensures var r := KeyboardStep(m, st, keys);
      var active := if r.isFlyThrough then st.ft else st.mv;
      && ((Space in keys || L in keys) ==> r.lightDirection == active.front && r.lightPos == active.position)
      && (Space !in keys && L !in keys ==> r.lightDirection == st.lightDirection && r.lightPos == st.lightPos)
  {
  }

  /** The displacement along `v` when `pos` moves one step along it and `neg` one step back:
      none when both or neither are held. */
  function Shift(v: Vec3, pos: bool, neg: bool): Vec3 {
    if pos == neg then Origin
    else if pos then Scale(v, MovementSpeed)
    else Scale(v, -MovementSpeed)
  }

  /** The fly-through moves add up: W and S cancel, A and D cancel, and nothing but the
      position changes. */
  lemma FlyMovesDisplacement(s: CameraState, keys: set<Key>)
    ensures var r := FlyMoves(s, keys);
      && r.(position := s.position) == s
      && r.position == Add(Add(s.position, Shift(s.front, W in keys, S in keys)), Shift(s.right, D in keys, A in keys))
  {
  }

  /** In orbit mode an orbit key moves the camera by the last arrow held and the distance
      R and F leave; with opposite keys R and F held together the distance stays. */
  lemma OrbitKeysMoveOrbitCamera(m: Maths, st: SceneState, keys: set<Key>)
    requires !ModeAfter(st.isFlyThrough, keys) && OrbitKeyHeld(keys)
    ensures var r := KeyboardStep(m, st, keys);
      var offset := OrbitOffset(keys);
      && r.camDist == DistanceAfter(st.camDist, keys)
      && r.mv == Orbited(m, st.mv, Origin, r.camDist, offset.0, offset.1)
      && r.mv.position == OrbitPosition(m, r.mv.yaw, r.mv.pitch, r.camDist)
      && ((R in keys <==> F in keys) ==> r.camDist == st.camDist)
  {
  }

  /** The first cursor event only records the position: its offsets are zero. */
  lemma FirstMouseEventOffsetsZero(m: Maths, st: SceneState, x: real, y: real)
    requires st.firstMouse
    ensures var r := MouseStep(m, st, x, y);
      && r.ft == (if st.isFlyThrough then FlyThroughCamera.Oriented(m, st.ft, 0.0, 0.0) else st.ft)
      && !r.firstMouse && r.prevMouseX == x && r.prevMouseY == y
  {
  }

  /** In orbit mode the cursor only updates the recorded position. */
  lemma MouseIgnoredInOrbitMode(m: Maths, st: SceneState, x: real, y: real)
    requires !st.isFlyThrough
    ensures MouseStep(m, st, x, y) == st.(firstMouse := false, prevMouseX := x, prevMouseY := y)
  {
  }

  /** Moving the cursor right turns the fly-through camera right (yaw grows) and moving it
      up (smaller y) raises the view (pitch grows), while the pitch is below the clamp. */
  lemma MouseTurnsTheRightWay(m: Maths, st: SceneState, x: real, y: real)
    requires st.isFlyThrough && !st.firstMouse && st.ft.mouseSensitivity > 0.0
    requires -MaxPitch <= st.ft.pitch < MaxPitch
    ensures x > st.prevMouseX ==> MouseStep(m, st, x, y).ft.yaw > st.ft.yaw
    ensures y < st.prevMouseY ==> MouseStep(m, st, x, y).ft.pitch > st.ft.pitch
  {
    var sens := st.ft.mouseSensitivity;
    if x > st.prevMouseX {
      assert Mul(x - st.prevMouseX, sens) > 0.0;
    }
    if y < st.prevMouseY {
      assert Mul(st.prevMouseY - y, sens) > 0.0;
    }
  }

  /** Two cursor events in fly-through mode turn the yaw by the same amount as one event
      from the first recorded position straight to the last: the offsets telescope. */
  lemma MouseYawTelescopes(m: Maths, st: SceneState, x1: real, y1: real, x2: real, y2: real)
    requires st.isFlyThrough && !st.firstMouse
    ensures MouseStep(m, MouseStep(m, st, x1, y1), x2, y2).ft.yaw == MouseStep(m, st, x2, y2).ft.yaw
  {
    var sens := st.ft.mouseSensitivity;
    assert Mul(x1 - st.prevMouseX, sens) + Mul(x2 - x1, sens) == Mul(x2 - st.prevMouseX, sens) by {
      assert (x1 - st.prevMouseX) * sens + (x2 - x1) * sens == ((x1 - st.prevMouseX) + (x2 - x1)) * sens;
    }
  }
}
