/** initScene of TangramPusherKin: the scaled base quantities, the kinematic
    pusher, and the seven dynamic pieces with their masses and inertia. */
module Scene {
  import opened Linear
  import opened Inertia
  import opened RigidBodies

  /** SCALING: the global length scale. */
  const Scaling: real := 5.0

  /** The base length `a`, the height `h` and the unit mass `m`, all scaled. */
  const BaseLength: real := 0.1 * Scaling
  const Height: real := 0.018 * Scaling
  const UnitMass: real := 0.180 * Scaling * Scaling * Scaling

  datatype PieceKind = SmallTriangle | MediumTriangle | LargeTriangle | Square | Parallelogram

  /** The dynamic pieces in the order initScene adds them. */
  const Pieces: seq<PieceKind> :=
    [SmallTriangle, SmallTriangle, MediumTriangle, LargeTriangle, LargeTriangle, Square, Parallelogram]

  /** The mass of each piece as a multiple of the unit mass. */
  function MassMultiplier(k: PieceKind): nat
  {
    match k
    case SmallTriangle => 1
    case MediumTriangle => 2
    case LargeTriangle => 4
    case Square => 4
    case Parallelogram => 2
  }

  function PieceMass(k: PieceKind): real
  {
    MassMultiplier(k) as real * UnitMass
  }

  function TotalMass(kinds: seq<PieceKind>): real
  {
    if kinds == [] then 0.0 else PieceMass(kinds[0]) + TotalMass(kinds[1..])
  }

  /** The masses initScene passes, in order, are m, m, 2m, 4m, 4m, 4m, 2m with
      m = 0.180·SCALING³ = 22.5; together 18m. */
  lemma SceneMasses()
    ensures UnitMass == 22.5
    ensures |Pieces| == 7
    ensures PieceMass(Pieces[0]) == UnitMass && PieceMass(Pieces[1]) == UnitMass
    ensures PieceMass(Pieces[2]) == 2.0 * UnitMass
    ensures PieceMass(Pieces[3]) == 4.0 * UnitMass && PieceMass(Pieces[4]) == 4.0 * UnitMass
    ensures PieceMass(Pieces[5]) == 4.0 * UnitMass
    ensures PieceMass(Pieces[6]) == 2.0 * UnitMass
    ensures TotalMass(Pieces) == 18.0 * UnitMass
  {
  }

  /** g_use_custom_inertia: set when the parameter equals 1. */
  function UseCustomInertia(params: Params): bool
  {
    params.useCustomInertiaTensor == 1.0
  }

  /** The kinematic pusher at (2.5·a, a/2, 0): mass and inertia zero, the
      kinematic collision flag, never deactivated, damping left as the engine's
      construction info has it. */
  function PusherBody(params: Params): (b: Body)
    ensures b.mass == 0.0 && b.inertia == Zero
    ensures b.kinematic && b.deactivationDisabled
    ensures b.transform == Transform(Quat(0.0, 0.0, 0.0, 1.0), Vec3(1.25, 0.25, 0.0))
    ensures b.friction == params.frictionPusher && b.restitution == params.restitutionPusher
  {
    Body(0.0, Transform(IdentityQuat, Vec3(2.5 * BaseLength, BaseLength / 2.0, 0.0)), Zero,
         params.frictionPusher, params.restitutionPusher, EngineDefault, true, true)
  }

  /** The base length and height after lines 234-235 grow them by twice the
      collision margin; these are what the custom inertia tensors are computed from. */
  function InflatedBase(params: Params): real { BaseLength + 2.0 * params.collisionMargin }
  function InflatedHeight(params: Params): real { Height + 2.0 * params.collisionMargin }

  /** The seven dynamic pieces. The placements are hand-fitted literals of the
      source and are given here as `placements`; `shapes` gives each kind's hull,
      `engineInertia` its calculateLocalInertia, and `inertiaTensor` stands for
      Shapes::getInertiaTensor(kind, a, h, mass). */
  function SceneBodies(
    params: Params, placements: seq<Transform>, shapes: PieceKind -> HullShape,
    engineInertia: PieceKind -> real -> Vec3,
    inertiaTensor: (PieceKind, real, real, real) -> Vec3): (bodies: seq<Body>)
    requires |placements| == |Pieces|
    ensures |bodies| == |Pieces|
    ensures forall i :: 0 <= i < |bodies| ==>
      && bodies[i].mass == PieceMass(Pieces[i])
      && bodies[i].transform == placements[i]
      && bodies[i].friction == params.frictionPolygon
      && bodies[i].restitution == params.restitutionPolygon
      && bodies[i].damping == Configured(params.linDamping, params.angDamping)
      && !bodies[i].kinematic && bodies[i].deactivationDisabled
    ensures forall i :: 0 <= i < |bodies| ==>
      bodies[i].inertia
        == if UseCustomInertia(params)
           then inertiaTensor(Pieces[i], InflatedBase(params), InflatedHeight(params), PieceMass(Pieces[i]))
           else engineInertia(Pieces[i])(PieceMass(Pieces[i]))
  {
    seq(|Pieces|, i requires 0 <= i < |Pieces| =>
      var k := Pieces[i];
      CreateDynamicRigidBodyWithInertia(
        params, UseCustomInertia(params), placements[i], shapes(k), engineInertia(k),
        PieceMass(k), params.frictionPolygon, params.restitutionPolygon,
        inertiaTensor(k, InflatedBase(params), InflatedHeight(params), PieceMass(k))))
  }

  /** With the toggle off (any parameter value other than 1), the custom inertia
      tensors have no effect on the scene at all. */
  lemma DefaultSceneIgnoresCustomTensors(
    params: Params, placements: seq<Transform>, shapes: PieceKind -> HullShape,
    engineInertia: PieceKind -> real -> Vec3,
    t1: (PieceKind, real, real, real) -> Vec3, t2: (PieceKind, real, real, real) -> Vec3)
    requires |placements| == |Pieces|
    requires !UseCustomInertia(params)
    ensures SceneBodies(params, placements, shapes, engineInertia, t1)
         == SceneBodies(params, placements, shapes, engineInertia, t2)
  {
  }
}
