# dune3d: selection-to-constraint layer, point-line distance datum, H/V distance, loft group

This project models, in Dafny, a slice of the document core of the dune3d CAD modeler:

- **The constrain tool behind "parallel" and the tangent constraints**
  (`ConstrainParallelTool`). It has four selection classifiers:
  - two parallel candidates;
  - two arcs or Bézier curves;
  - an arc and a 2D line;
  - a Bézier curve and a 2D line.

  Each classifier turns a two-item selection into a typed pair, or into no match. The tool also has
  its `can_begin` test and its `begin` step. `begin` tries the classifiers in a fixed order. A parallel
  pair always gets its parallel constraint in the current workplane, whatever workplanes the two
  entities lie in. In the three tangent branches (arc and line, Bézier and line, two curves), `begin`
  gives up when the two entities lie in different workplanes. Otherwise it searches endpoint pairs in
  the order (1,1), (1,2), (2,1), (2,2) and adds exactly one constraint, or none.
  - `Plan` is the specification of `begin`, written as a function.
  - `ToolConstrainParallel.Begin` is the method. It mutates the `Document` class and is proved
    equal to `Plan`.
  - The endpoint loops are the method `ScanEndpointPairs`. It is proved equal to
    `FirstCoincidentPair`.
- **The selection** (`Selection`). A `std::set<SelectableRef>` is seen through its iteration order.
  `SetOrderUnique` proves that a set has only one such order, so the order in which the user picked
  items is invisible to the tools.
- **`ConstraintPointLineDistance`** (`PointLineDistance`). The signed stored distance is shown as a
  non-negative datum. The setter keeps the sign. The datum range depends on whether a workplane is
  set.
- **`ConstraintPointDistanceHorizontal` / `ConstraintPointDistanceVertical`** (`PointDistanceHV`).
  Both are modelled as one class with an `Axis` tag. The model covers their referenced points, their
  measurement and `clone`.
- **`GroupLoft`** (`GroupLoftModel`). The model covers its fields and their defaults, and the
  operation getter and setter.

The model's types:
- Reals stand in for doubles.
- A UUID is a natural number, and 0 is the nil UUID.
- The document's entity store is a map from UUID to the entity's kind and workplane.
- Whether two entity points coincide is a parameter `near`. It replaces the source's
  `glm::length(a - b) < 1e-6` test on resolved coordinates.

Two points about what the classifiers do:
- The parallel classifier needs the lines to be selected as whole entities (point 0), not by an
  endpoint.
- The parallel and two-arc classifiers return their pair in the set's iteration order. They do not
  normalise it. Because a set has one iteration order, `{A, B}` and `{B, A}` still give the same
  pair (`SetOrderUnique`). Listing the two items the other way round swaps that pair
  (`TwoEntitiesSwap`, `TwoArcsSwap`).

## Model

| member | source | states |
|---|---|---|
| `Selection.SetOrderUnique` | src/core/tools/tool_constrain_parallel.cpp:19-26 | two strictly ordered listings with the same members are equal: a selection set has a single iteration order |
| `Selection.Listing` | src/core/tools/tool_constrain_parallel.cpp:22-26 | the iteration of a two-element set {a, b} is strictly ordered and holds exactly a and b |
| `Selection.ListingIgnoresPickOrder` | src/core/tools/tool_constrain_parallel.cpp:22-26 | the set {a, b} and the set {b, a} present the same sequence to the classifiers |
| `ConstrainParallelTool.TwoEntities` | src/core/tools/tool_constrain_parallel.cpp:19-44 | a match needs two entity handles and returns their UUIDs in selection order; every line in a match is a whole-entity handle, at least one item is a line, and a workplane only pairs with a 3D line; two whole lines of either dimension match, and a whole 3D line with a workplane matches in both orders whatever the workplane's point index |
| `ConstrainParallelTool.TwoArcs` | src/core/tools/tool_constrain_parallel.cpp:46-73 | matches exactly when two whole-entity handles name arcs or Bézier curves in any mix; returns them in selection order |
| `ConstrainParallelTool.ArcAndLine` | src/core/tools/tool_constrain_parallel.cpp:80-107 | matches exactly when two whole-entity handles name one arc and one 2D line in either order; the result always holds the arc first and the line second, and these are the two selected entities |
| `ConstrainParallelTool.BezierAndLine` | src/core/tools/tool_constrain_parallel.cpp:114-142 | matches exactly when two whole-entity handles name one Bézier curve and one 2D line in either order; the result always holds the curve first and the line second |
| `ConstrainParallelTool.ClassifiersNeedEntityPair` | src/core/tools/tool_constrain_parallel.cpp:19-142 | all four classifiers return no match unless the selection has exactly two items and both are entity handles |
| `ConstrainParallelTool.ClassifiersExclusive` | src/core/tools/tool_constrain_parallel.cpp:37-139 | no selection matches two classifiers, so begin's priority order never chooses between two matches |
| `ConstrainParallelTool.TwoEntitiesSwap` | src/core/tools/tool_constrain_parallel.cpp:37-41 | listing the two items the other way round swaps the returned pair and never changes whether it matches |
| `ConstrainParallelTool.TwoArcsSwap` | src/core/tools/tool_constrain_parallel.cpp:60-70 | listing the two items the other way round swaps the returned pair and never changes whether it matches |
| `ConstrainParallelTool.ArcAndLineOrderFree` | src/core/tools/tool_constrain_parallel.cpp:101-104 | arc-then-line and line-then-arc give the same canonical pair |
| `ConstrainParallelTool.BezierAndLineOrderFree` | src/core/tools/tool_constrain_parallel.cpp:136-139 | Bézier-then-line and line-then-Bézier give the same canonical pair |
| `ConstrainParallelTool.CanBeginWith` | src/core/tools/tool_constrain_parallel.cpp:144-157 | true only for a pair of entity handles; for the symmetric Bézier tangent id, true exactly for two whole Bézier curves; for any other id, true exactly for a parallel pair or for two whole entities of which one is an arc or Bézier curve and the other an arc, a Bézier curve or a 2D line |
| `ConstrainParallelTool.SymmetricCanBeginImpliesCanBegin` | src/core/tools/tool_constrain_parallel.cpp:144-157 | a selection the symmetric tool can start on is one every other id can start on |
| `ConstrainParallelTool.CanBeginOrderFree` | src/core/tools/tool_constrain_parallel.cpp:144-157 | whether the tool can start does not depend on the order of the two items |
| `ConstrainParallelTool.FirstCoincidentPair` | src/core/tools/tool_constrain_parallel.cpp:174-188 | returns no pair exactly when no endpoint of one entity meets an endpoint of the other; otherwise a coinciding endpoint pair such that no pair earlier in the order (1,1), (1,2), (2,1), (2,2) coincides |
| `ConstrainParallelTool.ScanEndpointPairs` | src/core/tools/tool_constrain_parallel.cpp:195-208 | the nested endpoint loops stop at the first coinciding pair in search order, or find none |
| `ConstrainParallelTool.CurveCurveTangent` | src/core/tools/tool_constrain_parallel.cpp:221-227 | the two-curve constraint is the symmetric Bézier tangent exactly for the symmetric tool id and the arc-arc tangent otherwise, storing the two given points in order |
| `ConstrainParallelTool.Plan` | src/core/tools/tool_constrain_parallel.cpp:159-236 | begin commits exactly when it adds a constraint; whatever it adds concerns exactly the two selected entities, needs some classifier to match, and is justified: a parallel constraint lies in the current workplane, and a tangent joins two entities of one workplane at coinciding endpoints; when no classifier matches, begin ends and adds nothing; conversely, a parallel pair always adds its parallel constraint, and a tangent pair in one workplane with a coinciding endpoint pair always commits |
| `ConstrainParallelTool.BeginParallel` | src/core/tools/tool_constrain_parallel.cpp:161-168 | a parallel pair always commits one parallel constraint between the two entities, in selection order and in the current workplane |
| `ConstrainParallelTool.BeginArcLine` | src/core/tools/tool_constrain_parallel.cpp:169-189 | for an arc and a line, begin ends and adds nothing when their workplanes differ or when no endpoints coincide; otherwise it adds one arc-line tangent at the arc endpoint of the first coinciding pair |
| `ConstrainParallelTool.BeginBezierLine` | src/core/tools/tool_constrain_parallel.cpp:190-209 | for a Bézier curve and a line, begin behaves as for an arc and a line and adds a Bézier-line tangent |
| `ConstrainParallelTool.BeginTwoArcs` | src/core/tools/tool_constrain_parallel.cpp:210-233 | for two curves, begin ends when their workplanes differ or no endpoints coincide; otherwise it stores both endpoints of the first coinciding pair, in a symmetric Bézier tangent for the symmetric id and in an arc-arc tangent for every other id |
| `ConstrainParallelTool.BeginArcLineOrderFree` | src/core/tools/tool_constrain_parallel.cpp:169-189 | for an arc and a line, the outcome of begin does not depend on the order of the two items |
| `ConstrainParallelTool.BeginBezierLineOrderFree` | src/core/tools/tool_constrain_parallel.cpp:190-209 | for a Bézier curve and a line, the outcome of begin does not depend on the order of the two items |
| `ConstrainParallelTool.ToolConstrainParallel.Begin` | src/core/tools/tool_constrain_parallel.cpp:159-236 | the response is the planned one, and the document's constraint list grows by exactly the planned constraint, or stays as it was |
| `DocumentModel.Document.AddConstraint` | src/core/tools/tool_constrain_parallel.cpp:162 | appends exactly one constraint to the document |
| `PointLineDistance.StoredAfterSetDatum` | src/document/constraint/constraint_point_line_distance.hpp:46-49 | the new stored distance is the datum when the old one is non-negative (zero included) and its negation otherwise: it has the datum's magnitude, keeps the old side for a positive datum and flips it for a negative one |
| `PointLineDistance.DatumRoundTrip` | src/document/constraint/constraint_point_line_distance.hpp:41-49 | after setting datum d, the datum reads back as abs(d), which is d when d is non-negative |
| `PointLineDistance.SetDatumTwice` | src/document/constraint/constraint_point_line_distance.hpp:46-49 | after a positive datum has been set, setting a second datum gives the same result as setting only the second one |
| `PointLineDistance.ConstraintPointLineDistance.constructor` | src/document/constraint/constraint_point_line_distance.hpp:21-27 | a new constraint has nil references, distance 1 and a zero offset, so its datum is 1 |
| `PointLineDistance.ConstraintPointLineDistance.GetType` | src/document/constraint/constraint_point_line_distance.hpp:15-19 | the type is always POINT_LINE_DISTANCE |
| `PointLineDistance.ConstraintPointLineDistance.DatumName` | src/document/constraint/constraint_point_line_distance.hpp:36-39 | the datum is always named "Distance" |
| `PointLineDistance.ConstraintPointLineDistance.DatumUnitOf` | src/document/constraint/constraint_point_line_distance.hpp:51-54 | the datum unit is always millimetres |
| `PointLineDistance.ConstraintPointLineDistance.IsMovable` | src/document/constraint/constraint_point_line_distance.hpp:64-67 | the constraint is always movable |
| `PointLineDistance.ConstraintPointLineDistance.Datum` | src/document/constraint/constraint_point_line_distance.hpp:41-44 | the datum is never negative and equals the stored distance up to its sign |
| `PointLineDistance.ConstraintPointLineDistance.SetDatum` | src/document/constraint/constraint_point_line_distance.hpp:46-49 | stores the datum with the old distance's sign, after which the datum reads back as abs(d); point, line, workplane and offset are untouched |
| `PointLineDistance.ConstraintPointLineDistance.DatumRange` | src/document/constraint/constraint_point_line_distance.hpp:56-62 | the upper bound is 1000; the lower bound is -1000 when a workplane is set and 0 when it is nil |
| `PointDistanceHV.ConstraintPointDistanceHV.ReferencedEntitiesAndPoints` | src/document/constraint/constraint_point_distance_hv.cpp:28-33 | the result is the base set together with the workplane anchor (workplane, 0) and nothing else; it grows by one exactly when the anchor was not yet in the base set |
| `PointDistanceHV.ConstraintPointDistanceHV.MeasureDistance` | src/document/constraint/constraint_point_distance_hv.cpp:13-21 | the horizontal variant measures the x component of the distance vector, the vertical variant the y component |
| `PointDistanceHV.ConstraintPointDistanceHV.Clone` | src/document/constraint/constraint_point_distance_hv.cpp:8-11 | gives a new object of the same variant whose fields all equal the original's |
| `GroupLoftModel.GroupLoft.constructor` | src/document/group/group_loft.hpp:28-36 | a new loft has no sources, is not ruled, uses union and has no messages |
| `GroupLoftModel.GroupLoft.GetType` | src/document/group/group_loft.hpp:17-21 | the type is always LOFT |
| `GroupLoftModel.GroupLoft.GetOperation` | src/document/group/group_loft.hpp:37-40 | returns the stored operation |
| `GroupLoftModel.GroupLoft.SetOperation` | src/document/group/group_loft.hpp:41-44 | after setting op, the getter returns op; sources, the ruled flag and the messages are untouched |

## Left out

- Floating point: doubles are reals, and the 1e-6 distance test on resolved coordinates is the abstract `near` parameter. Entity point resolution (`get_point`), `get_distance_vector`, `get_projected` and `get_origin` are not part of this model. The distance vector is an input of `MeasureDistance`.
- The debug trace printed inside the arc-and-line loop has no effect on the document and is omitted.
- The UUID and owning group that `add_constraint` gives a new constraint are omitted. `reset_selection_after_constrain` and the solve-pending marking are also omitted: their bodies are not part of this model.
- `update` only returns a default response and is not modelled.
- Looking up a UUID that is not in the document throws in the source, a programmer error. The classifiers instead require every selected entity handle to resolve (`Resolves`).
- The comparison operator of `SelectableRef` is not part of this model. The model takes it to be lexicographic on (kind, item, point). Only the `Selection` members (`SetOrderUnique`, `Listing`, `ListingIgnoresPickOrder`) and the precondition `SetOrder(selection)` of the `ToolConstrainParallel` constructor depend on it, and they need only that it is a strict total order.
- `ToolConstrainParallel.Begin` keeps the source's three endpoint loops as three calls of `ScanEndpointPairs`.
- The tool's current workplane, `get_workplane_uuid`, is a constructor input. `tool_common.cpp` is otherwise delegation to code that is not part of this model.
- `ConstraintPointDistanceHV.ReferencedEntitiesAndPoints`: the base point-distance class's own set is a parameter (`base`), because that class's body is not part of this model. For the same reason, the base fields (entity1, entity2, distance, offset) are assumed from the constraint's role.
- `GroupLoft`: the solid model, `update_solid_model`, `get_messages`, `get_source_groups`, the referenced and required entity and group sets, and JSON (de)serialisation are outside this model (they depend on the solid kernel or on other files). The solid-model pointer is therefore not a field of the model.
- Visitor `accept` dispatch, the `selection_util.hpp` declarations, `all_constraints.hpp` and the canvas renderer contain no logic to model.
