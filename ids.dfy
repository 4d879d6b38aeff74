/** Identifiers and small value types shared by the document model. */
module Ids {

  /** A UUID. The 128-bit value is modelled as a natural number; 0 is the nil UUID,
      which stands for "no reference" (for instance "no workplane"). */
  type Uuid = nat

  const NilUuid: Uuid := 0

  /** The source's `if (uuid)` test: true for every UUID but the nil one. */
  predicate IsSet(u: Uuid)
  {
    u != NilUuid
  }

  datatype Option<T> = None | Some(value: T)

  /** One point of an entity. Point 0 stands for the entity as a whole (a line's axis),
      points 1, 2, ... for its control points (endpoints, centre, ...). */
  datatype EntityAndPoint = EntityAndPoint(entity: Uuid, point: nat)

  /** A 3-vector of reals (glm::dvec3 without floating-point rounding). */
  datatype Vec3 = Vec3(x: real, y: real, z: real)

  const Origin: Vec3 := Vec3(0.0, 0.0, 0.0)
}
