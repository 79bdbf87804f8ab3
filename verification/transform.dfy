/**
 * Coordinate frames (CVProcess.py, lines 94-95 and 107-110): the camera
 * translation is re-expressed in the robot's forward/left/up convention, and
 * the camera's position in the target's (field) frame is R^T * (-t), where R
 * is the rotation the pose solve returned. Both are linear maps over reals.
 */
module Transform {

  datatype Vec3 = Vec3(x: real, y: real, z: real)

  /** A 3x3 matrix given by its rows. */
  datatype Mat3 = Mat3(r0: Vec3, r1: Vec3, r2: Vec3)

  function Dot3(a: Vec3, b: Vec3): real
  {
    a.x * b.x + a.y * b.y + a.z * b.z
  }

  function Neg(v: Vec3): Vec3
  {
    Vec3(-v.x, -v.y, -v.z)
  }

  function Cross(a: Vec3, b: Vec3): Vec3
  {
    Vec3(a.y * b.z - a.z * b.y, a.z * b.x - a.x * b.z, a.x * b.y - a.y * b.x)
  }

  function Apply(m: Mat3, v: Vec3): Vec3
  {
    Vec3(Dot3(m.r0, v), Dot3(m.r1, v), Dot3(m.r2, v))
  }

  function Transpose(m: Mat3): Mat3
  {
    Mat3(Vec3(m.r0.x, m.r1.x, m.r2.x), Vec3(m.r0.y, m.r1.y, m.r2.y), Vec3(m.r0.z, m.r1.z, m.r2.z))
  }

  /** The rows of m are orthonormal, i.e. m * m^T is the identity. */
  predicate Orthonormal(m: Mat3)
  {
    Dot3(m.r0, m.r0) == 1.0 && Dot3(m.r1, m.r1) == 1.0 && Dot3(m.r2, m.r2) == 1.0 &&
    Dot3(m.r0, m.r1) == 0.0 && Dot3(m.r0, m.r2) == 0.0 && Dot3(m.r1, m.r2) == 0.0
  }

  function Det(m: Mat3): real
  {
    Dot3(m.r0, Cross(m.r1, m.r2))
  }

  /**
   * The robot-convention axes of line 108: the translation is multiplied
   * element-wise by (-1, -1, 1) and unpacked into (y, z, x).
   */
  function RobotFromCamera(t: Vec3): (r: Vec3)
    ensures r == Apply(RemapMatrix(), t)
  {
    var (y, z, x) := (t.x * -1.0, t.y * -1.0, t.z * 1.0);
    Vec3(x, y, z)
  }

  /** The same change of axes as a matrix: forward = t_z, left = -t_x, up = -t_y. */
  function RemapMatrix(): Mat3
  {
    Mat3(Vec3(0.0, 0.0, 1.0), Vec3(-1.0, 0.0, 0.0), Vec3(0.0, -1.0, 0.0))
  }

  /** The inverse change of axes, from robot convention back to camera axes. */
  function CameraFromRobot(r: Vec3): (t: Vec3)
    ensures t == Apply(Transpose(RemapMatrix()), r)
  {
    Vec3(-r.y, -r.z, r.x)
  }

  /** The remap is a proper rotation: orthonormal rows and determinant +1, not a reflection. */
  lemma RemapIsRotation()
    ensures Orthonormal(RemapMatrix()) && Det(RemapMatrix()) == 1.0
  {
  }

  lemma RemapRoundTrip(t: Vec3, r: Vec3)
    ensures CameraFromRobot(RobotFromCamera(t)) == t
    ensures RobotFromCamera(CameraFromRobot(r)) == r
  {
  }

  /** The remap keeps lengths, angles and handedness. */
  lemma RemapIsometry(a: Vec3, b: Vec3)
    ensures Dot3(RobotFromCamera(a), RobotFromCamera(b)) == Dot3(a, b)
    ensures Cross(RobotFromCamera(a), RobotFromCamera(b)) == RobotFromCamera(Cross(a, b))
  {
  }

  /** field_xyz of line 95: R^T * (-t), the camera position in the target frame. */
  function FieldPosition(rotation: Mat3, translation: Vec3): Vec3
  {
    Apply(Transpose(rotation), Neg(translation))
  }

  /** For a genuine rotation, applying R to the field position gives back -t. */
  lemma FieldPositionInverts(rotation: Mat3, translation: Vec3)
    requires Orthonormal(rotation)
    ensures Apply(rotation, FieldPosition(rotation, translation)) == Neg(translation)
  {
  }

  /** For a genuine rotation, the field position is as far from the origin as the camera translation. */
  lemma FieldPositionKeepsRange(rotation: Mat3, translation: Vec3)
    requires Orthonormal(rotation)
    ensures Dot3(FieldPosition(rotation, translation), FieldPosition(rotation, translation)) == Dot3(translation, translation)
  {
  }
}
