/** The part of the document the constrain tool reads and writes: the entity store,
    seen as each entity's kind and workplane, and the list of constraints it appends to. */
module DocumentModel {
  import opened Ids

  /** The entity kinds the selection classifiers distinguish; every further kind is OtherKind. */
  datatype EntityKind =
    | Workplane
    | Point2D
    | Point3D
    | Line2D
    | Line3D
    | Arc2D
    | Bezier2D
    | Circle2D
    | OtherKind

  /** What the tool sees of an entity: its kind and the workplane it lies in
      (NilUuid for an entity that lies in none, such as a 3D line or a workplane). */
  datatype Entity = Entity(kind: EntityKind, wrkpl: Uuid)

  /** The entity store, keyed by UUID; an entity's own UUID is its key. */
  type Entities = map<Uuid, Entity>

  /** The constraints the constrain tool can create, with the fields the tool assigns. */
  datatype Constraint =
    | Parallel(entity1: Uuid, entity2: Uuid, wrkpl: Uuid)
    | ArcLineTangent(arc: EntityAndPoint, line: Uuid)
    | BezierLineTangent(bezier: EntityAndPoint, line: Uuid)
    | ArcArcTangent(arc1: EntityAndPoint, arc2: EntityAndPoint)
    | BezierBezierTangentSymmetric(arc1: EntityAndPoint, arc2: EntityAndPoint)

  /** The entities a constraint refers to. */
  function Mentions(c: Constraint): set<Uuid>
  {
    match c
    case Parallel(e1, e2, _) => {e1, e2}
    case ArcLineTangent(a, l) => {a.entity, l}
    case BezierLineTangent(b, l) => {b.entity, l}
    case ArcArcTangent(a1, a2) => {a1.entity, a2.entity}
    case BezierBezierTangentSymmetric(a1, a2) => {a1.entity, a2.entity}
  }

  /** The document: its entity store and its constraints in creation order. */
  class Document {
    var entities: Entities
    var constraints: seq<Constraint>

    constructor (entities: Entities)
      ensures this.entities == entities && constraints == []
    {
      this.entities := entities;
      constraints := [];
    }

    /** Adds one constraint to the document (the constraint's fresh UUID and owning
        group are not part of this model). */
    method AddConstraint(c: Constraint)
      modifies this`constraints
      ensures constraints == old(constraints) + [c]
    {
      constraints := constraints + [c];
    }
  }
}
