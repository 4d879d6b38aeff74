/** The horizontal and vertical point-distance constraints: the distance between two
    points measured along the x or the y axis of a workplane. */
module PointDistanceHV {
  import opened Ids

  /** Which component of the distance vector the constraint measures. */
  datatype Axis = Horizontal | Vertical

  class ConstraintPointDistanceHV {
    const axis: Axis
    const uuid: Uuid
    var entity1: EntityAndPoint
    var entity2: EntityAndPoint
    var wrkpl: Uuid
    var distance: real
    var offset: Vec3

    constructor (axis: Axis, uu: Uuid, entity1: EntityAndPoint, entity2: EntityAndPoint,
                 wrkpl: Uuid, distance: real, offset: Vec3)
      ensures this.axis == axis && uuid == uu
      ensures this.entity1 == entity1 && this.entity2 == entity2 && this.wrkpl == wrkpl
      ensures this.distance == distance && this.offset == offset
    {
      this.axis := axis;
      uuid := uu;
      this.entity1 := entity1;
      this.entity2 := entity2;
      this.wrkpl := wrkpl;
      this.distance := distance;
      this.offset := offset;
    }

    /** The workplane as a whole, which the constraint depends on beside its points. */
    function WorkplaneAnchor(): EntityAndPoint
      reads this
    {
      EntityAndPoint(wrkpl, 0)
    }

    /** The entities and points the constraint refers to: those the common point-distance
        part refers to (`base`), and the workplane as a whole. */
    method ReferencedEntitiesAndPoints(base: set<EntityAndPoint>) returns (r: set<EntityAndPoint>)
      ensures EntityAndPoint(wrkpl, 0) in r && base <= r
      ensures forall x :: x in r ==> x in base || x == EntityAndPoint(wrkpl, 0)
      ensures |r| == if EntityAndPoint(wrkpl, 0) in base then |base| else |base| + 1
    {
      r := base;
      r := r + {WorkplaneAnchor()};
    }

    /** The measured distance: the x component of the distance vector for the horizontal
        constraint, the y component for the vertical one. */
    function MeasureDistance(v: Vec3): (m: real)
      reads this
      ensures axis == Horizontal ==> m == v.x
      ensures axis == Vertical ==> m == v.y
    {
      match axis
      case Horizontal => v.x
      case Vertical => v.y
    }

    /** A copy: a new object of the same variant with equal fields. */
    method Clone() returns (c: ConstraintPointDistanceHV)
      ensures fresh(c)
      ensures c.axis == axis && c.uuid == uuid
      ensures c.entity1 == entity1 && c.entity2 == entity2 && c.wrkpl == wrkpl
      ensures c.distance == distance && c.offset == offset
    {
      c := new ConstraintPointDistanceHV(axis, uuid, entity1, entity2, wrkpl, distance, offset);
    }
  }
}
