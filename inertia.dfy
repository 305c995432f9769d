/** getInertia of TangramPusherKin: the box approximation of a convex hull's
    inertia, and what it satisfies. */
module Inertia {
  import opened Linear

  /** What getInertia reads of a convex hull: the bounding box that getAabb
      reports for it under the identity transform, and its collision margin. */
  datatype HullShape = HullShape(aabbMin: Vec3, aabbMax: Vec3, margin: real)
  {
    /** Margin-inflated full extents along each axis. */
    function Lx(): real { aabbMax.x - aabbMin.x + 2.0 * margin }
    function Ly(): real { aabbMax.y - aabbMin.y + 2.0 * margin }
    function Lz(): real { aabbMax.z - aabbMin.z + 2.0 * margin }
  }

  /** The literal the source uses in place of 1/12. */
  function InertiaFactor(): real { 0.08333333 }

  /** The box-inertia formula the source writes out, on full extents `l`:
      mass·0.08333333·(ly²+lz², lx²+lz², lx²+ly²). */
  function BoxInertia(mass: real, l: Vec3): Vec3
  {
    Vec3(Moment(mass, l.y, l.z), Moment(mass, l.x, l.z), Moment(mass, l.x, l.y))
  }

  /** One diagonal component: mass·0.08333333·(a² + b²) for the two extents
      across the axis. */
  function Moment(mass: real, a: real, b: real): real
  {
    mass * InertiaFactor() * (a * a + b * b)
  }

  /** The margin-inflated extents of a hull's bounding box. */
  function Extents(shape: HullShape): Vec3
  {
    Vec3(shape.Lx(), shape.Ly(), shape.Lz())
  }

  /** getInertia: the box inertia of the bounding box, each full extent grown
      by twice the margin. */
  function GetInertia(shape: HullShape, mass: real): (r: Vec3)
    ensures r == BoxInertia(mass, Extents(shape))
  {
    var halfExtents := Scale(0.5, Vec3(shape.aabbMax.x - shape.aabbMin.x,
                                       shape.aabbMax.y - shape.aabbMin.y,
                                       shape.aabbMax.z - shape.aabbMin.z));
    var lx := 2.0 * (halfExtents.x + shape.margin);
    var ly := 2.0 * (halfExtents.y + shape.margin);
    var lz := 2.0 * (halfExtents.z + shape.margin);
    var x2, y2, z2 := lx * lx, ly * ly, lz * lz;
    var scaledmass := mass * InertiaFactor();
    Scale(scaledmass, Vec3(y2 + z2, x2 + z2, x2 + y2))
  }

  /** Every component is non-negative for a non-negative mass. */
  lemma InertiaNonNegative(shape: HullShape, mass: real)
    requires mass >= 0.0
    ensures GetInertia(shape, mass).x >= 0.0 && GetInertia(shape, mass).y >= 0.0 && GetInertia(shape, mass).z >= 0.0
  {
  }

  /** Equal extents give equal components. */
  lemma InertiaOfCube(shape: HullShape, mass: real)
    requires shape.Lx() == shape.Ly() == shape.Lz()
    ensures GetInertia(shape, mass).x == GetInertia(shape, mass).y == GetInertia(shape, mass).z
  {
  }

  /** The textbook box inertia (mass/12)·(ly²+lz², lx²+lz², lx²+ly²). */
  function ExactBoxInertia(shape: HullShape, mass: real): Vec3
  {
    Scale(mass / 12.0,
          Vec3(shape.Ly() * shape.Ly() + shape.Lz() * shape.Lz(),
               shape.Lx() * shape.Lx() + shape.Lz() * shape.Lz(),
               shape.Lx() * shape.Lx() + shape.Ly() * shape.Ly()))
  }

  /** getInertia is linear in the mass. */
  lemma InertiaLinearInMass(shape: HullShape, k: real, mass: real)
    ensures GetInertia(shape, k * mass) == Scale(k, GetInertia(shape, mass))
  {
  }

  /** The literal falls short of 1/12 by exactly 1/(3·10⁸), so getInertia
      undershoots the exact box inertia by mass/(3·10⁸) times each sum of squares. */
  lemma InertiaBelowExact(shape: HullShape, mass: real)
    ensures var g, e := GetInertia(shape, mass), ExactBoxInertia(shape, mass);
      && e.x - g.x == mass / 300000000.0 * (shape.Ly() * shape.Ly() + shape.Lz() * shape.Lz())
      && e.y - g.y == mass / 300000000.0 * (shape.Lx() * shape.Lx() + shape.Lz() * shape.Lz())
      && e.z - g.z == mass / 300000000.0 * (shape.Lx() * shape.Lx() + shape.Ly() * shape.Ly())
  {
  }

  /** The shape with every length (box corners, margin) multiplied by `s`. */
  function ScaledShape(shape: HullShape, s: real): HullShape
  {
    HullShape(Scale(s, shape.aabbMin), Scale(s, shape.aabbMax), s * shape.margin)
  }

  /** The box formula scales as mass·length²: extents times S and mass times S³
      give S⁵ times the inertia. */
  lemma BoxInertiaScaling(s: real, mass: real, l: Vec3)
    ensures BoxInertia(s * s * s * mass, Scale(s, l)) == Scale(s * s * s * s * s, BoxInertia(mass, l))
  {
  }

  /** Scaling the world by S (box corners and margin by S, masses by S³)
      scales getInertia's result by S⁵. */
  lemma InertiaScaling(shape: HullShape, s: real, mass: real)
    ensures GetInertia(ScaledShape(shape, s), s * s * s * mass)
         == Scale(s * s * s * s * s, GetInertia(shape, mass))
  {
    assert Extents(ScaledShape(shape, s)) == Scale(s, Extents(shape));
    BoxInertiaScaling(s, mass, Extents(shape));
  }

  /** Half extents (1,1,1), margin 0, mass 6: the result is 3.99999984 per axis,
      not the 4 that mass/12 would give. */
  lemma UnitCubeMassSix()
    ensures GetInertia(HullShape(Vec3(-1.0, -1.0, -1.0), Vec3(1.0, 1.0, 1.0), 0.0), 6.0)
         == Vec3(3.99999984, 3.99999984, 3.99999984)
  {
  }
}
