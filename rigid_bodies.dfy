/** The three createDynamicRigidBody overloads of TangramPusherKin and the
    bodies they build. */
module RigidBodies {
  import opened Linear
  import opened Inertia

  /** The values read from the parameter map `m_params` by body construction
      and scene assembly. */
  datatype Params = Params(
    linDamping: real,
    angDamping: real,
    collisionMargin: real,
    frictionPusher: real,
    restitutionPusher: real,
    frictionPolygon: real,
    restitutionPolygon: real,
    useCustomInertiaTensor: real)

  /** Damping a body is built with: the two configured values, or whatever the
      engine's construction info holds when the source does not set them. */
  datatype Damping = EngineDefault | Configured(linear: real, angular: real)

  /** What a btRigidBody is built from, plus the two flags the source sets on it
      afterwards (kinematic collision flag, DISABLE_DEACTIVATION). */
  datatype Body = Body(
    mass: real,
    transform: Transform,
    inertia: Vec3,
    friction: real,
    restitution: real,
    damping: Damping,
    kinematic: bool,
    deactivationDisabled: bool)

  /** createDynamicRigidBody(transform, shape, mass, friction, restitution, inertia).
      `engineInertia` is the shape's own calculateLocalInertia. With the custom
      inertia toggle off, the box approximation is computed (line 145) and at
      once overwritten by the engine's inertia (line 146), so only the latter
      reaches the body; with the toggle on, the caller's inertia is kept. */
  function CreateDynamicRigidBodyWithInertia(
    params: Params, useCustomInertia: bool, transform: Transform, shape: HullShape,
    engineInertia: real -> Vec3, mass: real, friction: real, restitution: real, inertia: Vec3): (b: Body)
    ensures b.inertia == if useCustomInertia then inertia else engineInertia(mass)
    ensures b.mass == mass && b.transform == transform
    ensures b.friction == friction && b.restitution == restitution
    ensures b.damping == Configured(params.linDamping, params.angDamping)
    ensures !b.kinematic && b.deactivationDisabled
  {
    var chosen := if !useCustomInertia then engineInertia(mass) else inertia;
    Body(mass, transform, chosen, friction, restitution,
         Configured(params.linDamping, params.angDamping), false, true)
  }

  /** createDynamicRigidBody(transform, shape, mass, friction, restitution): the
      engine's inertia is passed on, so the body gets it whatever the toggle. */
  function CreateDynamicRigidBody(
    params: Params, useCustomInertia: bool, transform: Transform, shape: HullShape,
    engineInertia: real -> Vec3, mass: real, friction: real, restitution: real): (b: Body)
    ensures b.inertia == engineInertia(mass)
    ensures b.mass == mass && b.transform == transform
    ensures b.friction == friction && b.restitution == restitution
    ensures b.damping == Configured(params.linDamping, params.angDamping)
    ensures !b.kinematic && b.deactivationDisabled
  {
    var inertia := engineInertia(mass);
    CreateDynamicRigidBodyWithInertia(params, useCustomInertia, transform, shape, engineInertia,
                                      mass, friction, restitution, inertia)
  }

  /** createDynamicRigidBody(position, shape, mass, friction, restitution): the
      body is placed at `position` with the identity rotation (0,0,0,1). */
  function CreateDynamicRigidBodyAt(
    params: Params, useCustomInertia: bool, position: Vec3, shape: HullShape,
    engineInertia: real -> Vec3, mass: real, friction: real, restitution: real): (b: Body)
    ensures b.transform == Transform(Quat(0.0, 0.0, 0.0, 1.0), position)
    ensures b.inertia == engineInertia(mass) && b.mass == mass
    ensures b.friction == friction && b.restitution == restitution
    ensures b.damping == Configured(params.linDamping, params.angDamping)
    ensures b.deactivationDisabled && !b.kinematic
  {
    CreateDynamicRigidBody(params, useCustomInertia, Transform(IdentityQuat, position), shape,
                           engineInertia, mass, friction, restitution)
  }

  /** With the toggle off, the inertia handed in makes no difference to the body. */
  lemma ToggleOffDiscardsInertia(
    params: Params, transform: Transform, shape: HullShape, engineInertia: real -> Vec3,
    mass: real, friction: real, restitution: real, inertia1: Vec3, inertia2: Vec3)
    ensures CreateDynamicRigidBodyWithInertia(params, false, transform, shape, engineInertia, mass, friction, restitution, inertia1)
         == CreateDynamicRigidBodyWithInertia(params, false, transform, shape, engineInertia, mass, friction, restitution, inertia2)
  {
  }

  /** The two overloads without an inertia argument build the same body as the
      full one would with the engine's inertia, whichever way the toggle is set. */
  lemma OverloadsAgree(
    params: Params, useCustomInertia: bool, position: Vec3, shape: HullShape, engineInertia: real -> Vec3,
    mass: real, friction: real, restitution: real)
    ensures CreateDynamicRigidBodyAt(params, useCustomInertia, position, shape, engineInertia, mass, friction, restitution)
         == CreateDynamicRigidBodyWithInertia(params, useCustomInertia, Transform(IdentityQuat, position), shape,
                                              engineInertia, mass, friction, restitution, engineInertia(mass))
  {
  }
}
