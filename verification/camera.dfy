/** The shared camera record (`SCamera`), its constants, the pitch clamp both update rules
    use, and `InitCamera`. */
module Camera {
  import opened Geometry

  /** SCamera::Camera_Movement. */
  datatype Movement = Forward | Backward | Left | Right

  /** SCamera::MovementSpeed, a const member with the same value in every camera. */
  const MovementSpeed: real := 0.5
  /** The default value of SCamera::MouseSensitivity. */
  const DefaultMouseSensitivity: real := 0.25
  /** Both update rules keep the pitch within [-MaxPitch, MaxPitch] degrees. */
  const MaxPitch: real := 89.0

  /** The value of every field of an SCamera. */
  datatype CameraState = CameraState(
    position: Vec3,
    front: Vec3,
    up: Vec3,
    right: Vec3,
    worldUp: Vec3,
    yaw: real,
    pitch: real,
    mouseSensitivity: real)

  /** A camera of static storage duration before any call: every field zero except the
      defaulted mouse sensitivity. */
  const ZeroCamera := CameraState(Origin, Origin, Origin, Origin, Origin, 0.0, 0.0, DefaultMouseSensitivity)

  class SCamera {
    var position: Vec3
    var front: Vec3
    var up: Vec3
    var right: Vec3
    var worldUp: Vec3
    var yaw: real
    var pitch: real
    var mouseSensitivity: real

    function State(): CameraState
      reads this
    {
      CameraState(position, front, up, right, worldUp, yaw, pitch, mouseSensitivity)
    }

    constructor ()
      ensures State() == ZeroCamera
    {
      position, front, up, right, worldUp := Origin, Origin, Origin, Origin, Origin;
      yaw, pitch := 0.0, 0.0;
      mouseSensitivity := DefaultMouseSensitivity;
    }
  }

  /** The two-step clamp both update rules apply to an accumulated pitch. */
  function ClampPitch(p: real): (r: real)
    ensures -MaxPitch <= r <= MaxPitch
    ensures -MaxPitch <= p <= MaxPitch ==> r == p
    ensures p > MaxPitch ==> r == MaxPitch
    ensures p < -MaxPitch ==> r == -MaxPitch
  {
    var q := if p > MaxPitch then MaxPitch else p;
    if q < -MaxPitch then -MaxPitch else q
  }

  /** The state InitCamera(in, y, p) leaves behind. */
  function Initialised(m: Maths, s: CameraState, y: real, p: real): CameraState {
    var front := Vec3(0.0, 0.0, -1.0);
    var up := Vec3(0.0, 1.0, 0.0);
    s.(front := front, position := Origin, up := up, worldUp := up,
       right := m.normalize(m.cross(front, up)), yaw := y, pitch := p)
  }

  method InitCamera(m: Maths, cam: SCamera, y: real, p: real)
    modifies cam
    ensures cam.State() == Initialised(m, old(cam.State()), y, p)
  {
    cam.front := Vec3(0.0, 0.0, -1.0);
    cam.position := Vec3(0.0, 0.0, 0.0);
    cam.up := Vec3(0.0, 1.0, 0.0);
    cam.worldUp := cam.up;
    cam.right := m.normalize(m.cross(cam.front, cam.worldUp));
    cam.yaw := y;
    cam.pitch := p;
  }

  /** InitCamera fixes the basis to the -z view with +y up, sets yaw and pitch to its
      arguments without clamping them, and leaves the mouse sensitivity alone. */
  lemma InitialisedBasis(m: Maths, s: CameraState, y: real, p: real)
    ensures var r := Initialised(m, s, y, p);
      && r.front == Vec3(0.0, 0.0, -1.0)
      && r.position == Origin
      && r.up == Vec3(0.0, 1.0, 0.0)
      && r.worldUp == r.up
      && r.right == m.normalize(m.cross(r.front, r.worldUp))
      && r.yaw == y && r.pitch == p
      && r.mouseSensitivity == s.mouseSensitivity
  {
  }

  /** With glm::cross being the true cross product, the initial right vector is the
      normalised +x axis. */
  lemma InitialisedRight(m: Maths, s: CameraState, y: real, p: real)
    requires m.cross(Vec3(0.0, 0.0, -1.0), Vec3(0.0, 1.0, 0.0)) == CrossProduct(Vec3(0.0, 0.0, -1.0), Vec3(0.0, 1.0, 0.0))
    ensures Initialised(m, s, y, p).right == m.normalize(Vec3(1.0, 0.0, 0.0))
  {
  }

  /** The clamp is idempotent. */
  lemma ClampPitchIdempotent(p: real)
    ensures ClampPitch(ClampPitch(p)) == ClampPitch(p)
  {
  }
}
