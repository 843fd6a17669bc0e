/** The orbiting camera: yaw and pitch offsets place the camera on a sphere of radius
    `distance` around the origin, looking at `target` (MoveAndOrientCamera). */
module ModelViewerCamera {
  import opened Geometry
  import opened Camera
  import FlyThroughCamera

  /** The point at `distance` from the origin in the direction given by a yaw and a pitch
      in degrees. */
  function OrbitPosition(m: Maths, yawDeg: real, pitchDeg: real, distance: real): Vec3 {
    var pitch := m.radians(pitchDeg);
    var yaw := m.radians(yawDeg);
    Vec3(Mul(Mul(m.cos(yaw), m.cos(pitch)), distance),
         Mul(m.sin(pitch), distance),
         Mul(Mul(m.sin(yaw), m.cos(pitch)), distance))
  }

  /** The state MoveAndOrientCamera(in, target, distance, xoffset, yoffset) leaves behind. */
  function Orbited(m: Maths, s: CameraState, target: Vec3, distance: real, xoffset: real, yoffset: real): CameraState {
    var yaw := s.yaw - xoffset * MovementSpeed;
    var pitch := ClampPitch(s.pitch - yoffset * MovementSpeed);
    var position := OrbitPosition(m, yaw, pitch, distance);
    var front := m.normalize(Sub(target, position));
    var right := m.normalize(m.cross(front, s.worldUp));
    var up := m.normalize(m.cross(right, front));
    CameraState(position, front, up, right, s.worldUp, yaw, pitch, s.mouseSensitivity)
  }

  method MoveAndOrientCamera(m: Maths, cam: SCamera, target: Vec3, distance: real, xoffset: real, yoffset: real)
    modifies cam
    ensures cam.State() == Orbited(m, old(cam.State()), target, distance, xoffset, yoffset)
  {
    cam.yaw := cam.yaw - xoffset * MovementSpeed;
    cam.pitch := cam.pitch - yoffset * MovementSpeed;

    if cam.pitch > MaxPitch {
      cam.pitch := MaxPitch;
    }
    if cam.pitch < -MaxPitch {
      cam.pitch := -MaxPitch;
    }

    assert cam.pitch == ClampPitch(old(cam.pitch) - yoffset * MovementSpeed);

    var pitch := m.radians(cam.pitch);
    var yaw := m.radians(cam.yaw);

    cam.position := Vec3(Mul(Mul(m.cos(yaw), m.cos(pitch)), distance),
                         Mul(m.sin(pitch), distance),
                         Mul(Mul(m.sin(yaw), m.cos(pitch)), distance));
    assert cam.position == OrbitPosition(m, cam.yaw, cam.pitch, distance);

    cam.front := m.normalize(Sub(target, cam.position));
    cam.right := m.normalize(m.cross(cam.front, cam.worldUp));
    cam.up := m.normalize(m.cross(cam.right, cam.front));
  }

  /** Yaw decreases by xoffset*MovementSpeed (not MouseSensitivity); pitch decreases by
      yoffset*MovementSpeed and is clamped to [-89, 89]; world-up and sensitivity stay. */
  lemma OrbitedAngles(m: Maths, s: CameraState, target: Vec3, distance: real, xoffset: real, yoffset: real)
    ensures var r := Orbited(m, s, target, distance, xoffset, yoffset);
      && r.yaw == s.yaw - xoffset * MovementSpeed
      && -MaxPitch <= r.pitch <= MaxPitch
      && (-MaxPitch <= s.pitch - yoffset * MovementSpeed <= MaxPitch ==>
            r.pitch == s.pitch - yoffset * MovementSpeed)
      && r.worldUp == s.worldUp
      && r.mouseSensitivity == s.mouseSensitivity
  {
  }

  /** The position is a function of the new yaw, the new pitch and the distance alone:
      neither the previous position and basis nor the target influence it. The basis
      looks from there at the target. */
  lemma OrbitedPositionAndBasis(m: Maths, s: CameraState, t: CameraState, target: Vec3, target': Vec3,
                                distance: real, xoffset: real, yoffset: real)
    requires t.yaw == s.yaw && t.pitch == s.pitch
    ensures var r := Orbited(m, s, target, distance, xoffset, yoffset);
      && Orbited(m, t, target', distance, xoffset, yoffset).position == r.position
      && r.position == OrbitPosition(m, r.yaw, r.pitch, distance)
      && r.front == m.normalize(Sub(target, r.position))
      && r.right == m.normalize(m.cross(r.front, s.worldUp))
      && r.up == m.normalize(m.cross(r.right, r.front))
  {
  }

  /** The position scales linearly with the distance; a zero distance puts the camera at
      the origin. */
  lemma OrbitPositionLinear(m: Maths, yawDeg: real, pitchDeg: real, distance: real)
    ensures OrbitPosition(m, yawDeg, pitchDeg, distance) == Scale(OrbitPosition(m, yawDeg, pitchDeg, 1.0), distance)
    ensures OrbitPosition(m, yawDeg, pitchDeg, 0.0) == Origin
  {
  }

  /** With zero offsets the call only re-clamps the pitch and recomputes the basis, so
      a second identical call changes nothing. */
  lemma OrbitedZeroOffsetIdempotent(m: Maths, s: CameraState, target: Vec3, distance: real)
    ensures Orbited(m, s, target, distance, 0.0, 0.0).yaw == s.yaw
    ensures Orbited(m, s, target, distance, 0.0, 0.0).pitch == ClampPitch(s.pitch)
    ensures var once := Orbited(m, s, target, distance, 0.0, 0.0);
      Orbited(m, once, target, distance, 0.0, 0.0) == once
  {
  }

  /** The two controllers turn the same way round for opposite offsets: a positive
      x offset decreases the orbit camera's yaw but increases the fly-through camera's. */
  lemma OppositeYawConventions(m: Maths, s: CameraState, target: Vec3, distance: real, xoffset: real)
    requires xoffset > 0.0 && s.mouseSensitivity > 0.0
    ensures Orbited(m, s, target, distance, xoffset, 0.0).yaw < s.yaw
    ensures s.yaw < FlyThroughCamera.Oriented(m, s, xoffset, 0.0).yaw
  {
  }
}
