/** Vectors, quaternions and rigid transforms as plain values (Bullet's btVector3,
    btQuaternion and btTransform), over unbounded reals: float rounding is not modelled. */
module Linear {

  datatype Vec3 = Vec3(x: real, y: real, z: real)

  datatype Quat = Quat(x: real, y: real, z: real, w: real)

  /** A placement: a rotation and an origin. */
  datatype Transform = Transform(rotation: Quat, origin: Vec3)

  /** btQuaternion(0,0,0,1), the rotation that leaves every vector where it is. */
  const IdentityQuat: Quat := Quat(0.0, 0.0, 0.0, 1.0)

  const Zero: Vec3 := Vec3(0.0, 0.0, 0.0)

  function Add(u: Vec3, v: Vec3): Vec3
  {
    Vec3(u.x + v.x, u.y + v.y, u.z + v.z)
  }

  function Scale(k: real, v: Vec3): Vec3
  {
    Vec3(k * v.x, k * v.y, k * v.z)
  }
}
