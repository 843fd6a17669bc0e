/** The first-person camera: translation along the view basis (MoveCamera) and mouse look
    (OrientCamera). */
module FlyThroughCamera {
  import opened Geometry
  import opened Camera

  /** The state MoveCamera(in, direction) leaves behind. */
  function Moved(s: CameraState, direction: Movement): CameraState {
    match direction
    case Forward => s.(position := Add(s.position, Scale(s.front, MovementSpeed)))
    case Backward => s.(position := Sub(s.position, Scale(s.front, MovementSpeed)))
    case Left => s.(position := Sub(s.position, Scale(s.right, MovementSpeed)))
    case Right => s.(position := Add(s.position, Scale(s.right, MovementSpeed)))
  }

  /** The view direction for a yaw and a pitch in degrees, before normalisation. */
  function Direction(m: Maths, yawDeg: real, pitchDeg: real): Vec3 {
    var pitch := m.radians(pitchDeg);
    var yaw := m.radians(yawDeg);
    Vec3(Mul(m.cos(yaw), m.cos(pitch)), m.sin(pitch), Mul(m.sin(yaw), m.cos(pitch)))
  }

  /** The state OrientCamera(in, xoffset, yoffset) leaves behind. */
  function Oriented(m: Maths, s: CameraState, xoffset: real, yoffset: real): CameraState {
    var yaw := s.yaw + Mul(xoffset, s.mouseSensitivity);
    var pitch := ClampPitch(s.pitch + Mul(yoffset, s.mouseSensitivity));
    var front := m.normalize(Direction(m, yaw, pitch));
    var right := m.normalize(m.cross(front, s.worldUp));
    var up := m.normalize(m.cross(right, front));
    CameraState(s.position, front, up, right, s.worldUp, yaw, pitch, s.mouseSensitivity)
  }

  method MoveCamera(cam: SCamera, direction: Movement)
    modifies cam
    ensures cam.State() == Moved(old(cam.State()), direction)
  {
    if direction == Forward {
      cam.position := Add(cam.position, Scale(cam.front, MovementSpeed));
    }
    if direction == Backward {
      cam.position := Sub(cam.position, Scale(cam.front, MovementSpeed));
    }
    if direction == Left {
      cam.position := Sub(cam.position, Scale(cam.right, MovementSpeed));
    }
    if direction == Right {
      cam.position := Add(cam.position, Scale(cam.right, MovementSpeed));
    }
  }

  method OrientCamera(m: Maths, cam: SCamera, xoffset: real, yoffset: real)
    modifies cam
    ensures cam.State() == Oriented(m, old(cam.State()), xoffset, yoffset)
  {
    cam.yaw := cam.yaw + Mul(xoffset, cam.mouseSensitivity);
    cam.pitch := cam.pitch + Mul(yoffset, cam.mouseSensitivity);

    if cam.pitch > MaxPitch {
      cam.pitch := MaxPitch;
    }
    if cam.pitch < -MaxPitch {
      cam.pitch := -MaxPitch;
    }

    assert cam.pitch == ClampPitch(old(cam.pitch) + Mul(yoffset, cam.mouseSensitivity));

    var pitch := m.radians(cam.pitch);
    var yaw := m.radians(cam.yaw);
    var pos := Vec3(Mul(m.cos(yaw), m.cos(pitch)), m.sin(pitch), Mul(m.sin(yaw), m.cos(pitch)));
    assert pos == Direction(m, cam.yaw, cam.pitch);

    cam.front := m.normalize(pos);
    cam.right := m.normalize(m.cross(cam.front, cam.worldUp));
    cam.up := m.normalize(m.cross(cam.right, cam.front));
  }

  /** FORWARD and BACKWARD move by +/- Front*MovementSpeed, LEFT and RIGHT by -/+ Right*MovementSpeed,
      and nothing but the position changes. */
  lemma MovedDisplacement(s: CameraState, direction: Movement)
    ensures Moved(s, direction).(position := s.position) == s
    ensures Sub(Moved(s, direction).position, s.position) ==
      match direction
      case Forward => Scale(s.front, MovementSpeed)
      case Backward => Scale(s.front, -MovementSpeed)
      case Left => Scale(s.right, -MovementSpeed)
      case Right => Scale(s.right, MovementSpeed)
  {
  }

  /** BACKWARD undoes FORWARD and RIGHT undoes LEFT (and conversely): the moves never touch
      the basis they translate along. */
  lemma MovesCancel(s: CameraState)
    ensures Moved(Moved(s, Forward), Backward) == s
    ensures Moved(Moved(s, Backward), Forward) == s
    ensures Moved(Moved(s, Left), Right) == s
    ensures Moved(Moved(s, Right), Left) == s
  {
  }

  /** Yaw accumulates without bound; pitch accumulates and is clamped to [-89, 89], and is
      exact when it stays in range; position, world-up and sensitivity are untouched. */
  lemma OrientedAngles(m: Maths, s: CameraState, xoffset: real, yoffset: real)
    ensures var r := Oriented(m, s, xoffset, yoffset);
      && r.yaw == s.yaw + Mul(xoffset, s.mouseSensitivity)
      && -MaxPitch <= r.pitch <= MaxPitch
      && (-MaxPitch <= s.pitch + Mul(yoffset, s.mouseSensitivity) <= MaxPitch ==>
            r.pitch == s.pitch + Mul(yoffset, s.mouseSensitivity))
      && r.position == s.position
      && r.worldUp == s.worldUp
      && r.mouseSensitivity == s.mouseSensitivity
  {
  }

  /** The new basis is recomputed from the new yaw and pitch and world-up only: the old
      front, right and up (and the position) have no influence on it. */
  lemma OrientedIgnoresOldBasis(m: Maths, s: CameraState, t: CameraState, xoffset: real, yoffset: real)
    requires t.yaw == s.yaw && t.pitch == s.pitch && t.worldUp == s.worldUp
    requires t.mouseSensitivity == s.mouseSensitivity
    ensures var r := Oriented(m, s, xoffset, yoffset);
      var r' := Oriented(m, t, xoffset, yoffset);
      && r'.front == r.front && r'.right == r.right && r'.up == r.up
      && r.front == m.normalize(Direction(m, r.yaw, r.pitch))
      && r.right == m.normalize(m.cross(r.front, s.worldUp))
      && r.up == m.normalize(m.cross(r.right, r.front))
  {
  }
}
