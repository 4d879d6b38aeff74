/** The constrain tool behind "parallel" and the tangent constraints: four selection
    classifiers that turn a two-item selection into a typed pair, the tool's can-begin
    test, and its begin step, which adds at most one constraint to the document. */
module ConstrainParallelTool {
  import opened Ids
  import opened Selection
  import opened DocumentModel

  // ---------------------------------------------------------------------------
  // Selections seen against the document

  /** Every entity handle in the selection names an entity of the store (looking up a
      missing UUID is a programmer error in the source, not a "no match"). */
  predicate Resolves(ents: Entities, sel: seq<SelectableRef>)
  {
    forall i :: 0 <= i < |sel| && sel[i].kind == EntityRef ==> sel[i].item in ents
  }

  /** Exactly two selected items, both entity handles. */
  predicate IsEntityPair(sel: seq<SelectableRef>)
  {
    |sel| == 2 && sel[0].kind == EntityRef && sel[1].kind == EntityRef
  }

  /** Exactly two selected items, both entity handles for entities as a whole (point 0). */
  predicate IsWholeEntityPair(sel: seq<SelectableRef>)
  {
    IsEntityPair(sel) && sel[0].point == 0 && sel[1].point == 0
  }

  /** The kind of the entity behind the i-th selected handle. */
  function KindAt(ents: Entities, sel: seq<SelectableRef>, i: nat): EntityKind
    requires Resolves(ents, sel) && i < |sel| && sel[i].kind == EntityRef
  {
    ents[sel[i].item].kind
  }

  predicate IsLine(k: EntityKind)
  {
    k == Line2D || k == Line3D
  }

  /** An arc or a Bézier curve: the entities with two endpoints that tangency applies to. */
  predicate IsCurve(k: EntityKind)
  {
    k == Arc2D || k == Bezier2D
  }

  // ---------------------------------------------------------------------------
  // The four classifiers

  /** Two entities that can be made parallel: two lines (2D or 3D) taken as a whole, or
      a 3D line taken as a whole and a workplane, in either order. The UUIDs come back in
      selection order. */
  function TwoEntities(ents: Entities, sel: seq<SelectableRef>): (r: Option<(Uuid, Uuid)>)
    requires Resolves(ents, sel)
    ensures r.Some? ==> IsEntityPair(sel) && r.value == (sel[0].item, sel[1].item)
    ensures r.Some? ==>
              && (IsLine(KindAt(ents, sel, 0)) || IsLine(KindAt(ents, sel, 1)))
              && (forall i :: 0 <= i < 2 && IsLine(KindAt(ents, sel, i)) ==> sel[i].point == 0)
              && (forall i :: 0 <= i < 2 && !IsLine(KindAt(ents, sel, i)) ==>
                    KindAt(ents, sel, i) == Workplane && KindAt(ents, sel, 1 - i) == Line3D)
    ensures IsWholeEntityPair(sel) && IsLine(KindAt(ents, sel, 0)) && IsLine(KindAt(ents, sel, 1))
            ==> r.Some?
    ensures (IsEntityPair(sel) && KindAt(ents, sel, 0) == Line3D && sel[0].point == 0
             && KindAt(ents, sel, 1) == Workplane) ==> r.Some?
    ensures (IsEntityPair(sel) && KindAt(ents, sel, 0) == Workplane
             && KindAt(ents, sel, 1) == Line3D && sel[1].point == 0) ==> r.Some?
  {
    if |sel| != 2 then None
    else if sel[0].kind != EntityRef then None
    else if sel[1].kind != EntityRef then None
    else
      var t1 := ents[sel[0].item].kind;
      var t2 := ents[sel[1].item].kind;
      if || (t1 == Line3D && sel[0].point == 0 && t2 == Workplane)
         || (t1 == Workplane && t2 == Line3D && sel[1].point == 0)
         || ((t1 == Line2D || t1 == Line3D) && (t2 == Line2D || t2 == Line3D)
             && sel[0].point == 0 && sel[1].point == 0)
      then Some((sel[0].item, sel[1].item))
      else None
  }

  /** Two arcs or Bézier curves (in any mix), each taken as a whole, in selection order. */
  function TwoArcs(ents: Entities, sel: seq<SelectableRef>): (r: Option<(Uuid, Uuid)>)
    requires Resolves(ents, sel)
    ensures r.Some? <==>
              IsWholeEntityPair(sel) && IsCurve(KindAt(ents, sel, 0)) && IsCurve(KindAt(ents, sel, 1))
    ensures r.Some? ==> r.value == (sel[0].item, sel[1].item)
  {
    if |sel| != 2 then None
    else if sel[0].kind != EntityRef then None
    else if sel[1].kind != EntityRef then None
    else if sel[0].point != 0 then None
    else if sel[1].point != 0 then None
    else
      var en1 := ents[sel[0].item];
      var en2 := ents[sel[1].item];
      if (en1.kind == Arc2D || en1.kind == Bezier2D) && (en2.kind == Arc2D || en2.kind == Bezier2D)
      then Some((sel[0].item, sel[1].item))
      else None
  }

  /** An arc and a 2D line, in canonical order whatever the selection order. */
  datatype ArcAndLinePair = ArcAndLinePair(arc: Uuid, line: Uuid)

  /** A Bézier curve and a 2D line, in canonical order whatever the selection order. */
  datatype BezierAndLinePair = BezierAndLinePair(bezier: Uuid, line: Uuid)

  /** One arc and one 2D line, each taken as a whole. */
  function ArcAndLine(ents: Entities, sel: seq<SelectableRef>): (r: Option<ArcAndLinePair>)
    requires Resolves(ents, sel)
    ensures r.Some? <==>
              && IsWholeEntityPair(sel)
              && ((KindAt(ents, sel, 0) == Arc2D && KindAt(ents, sel, 1) == Line2D)
                  || (KindAt(ents, sel, 0) == Line2D && KindAt(ents, sel, 1) == Arc2D))
    ensures r.Some? ==>
              && r.value.arc in ents && ents[r.value.arc].kind == Arc2D
              && r.value.line in ents && ents[r.value.line].kind == Line2D
              && {r.value.arc, r.value.line} == {sel[0].item, sel[1].item}
  {
    if |sel| != 2 then None
    else if sel[0].kind != EntityRef then None
    else if sel[1].kind != EntityRef then None
    else if sel[0].point != 0 then None
    else if sel[1].point != 0 then None
    else
      var en1 := ents[sel[0].item];
      var en2 := ents[sel[1].item];
      if en1.kind == Arc2D && en2.kind == Line2D then Some(ArcAndLinePair(sel[0].item, sel[1].item))
      else if en1.kind == Line2D && en2.kind == Arc2D then Some(ArcAndLinePair(sel[1].item, sel[0].item))
      else None
  }

  /** One Bézier curve and one 2D line, each taken as a whole. */
  function BezierAndLine(ents: Entities, sel: seq<SelectableRef>): (r: Option<BezierAndLinePair>)
    requires Resolves(ents, sel)
    ensures r.Some? <==>
              && IsWholeEntityPair(sel)
              && ((KindAt(ents, sel, 0) == Bezier2D && KindAt(ents, sel, 1) == Line2D)
                  || (KindAt(ents, sel, 0) == Line2D && KindAt(ents, sel, 1) == Bezier2D))
    ensures r.Some? ==>
              && r.value.bezier in ents && ents[r.value.bezier].kind == Bezier2D
              && r.value.line in ents && ents[r.value.line].kind == Line2D
              && {r.value.bezier, r.value.line} == {sel[0].item, sel[1].item}
  {
    if |sel| != 2 then None
    else if sel[0].kind != EntityRef then None
    else if sel[1].kind != EntityRef then None
    else if sel[0].point != 0 then None
    else if sel[1].point != 0 then None
    else
      var en1 := ents[sel[0].item];
      var en2 := ents[sel[1].item];
      if en1.kind == Bezier2D && en2.kind == Line2D then Some(BezierAndLinePair(sel[0].item, sel[1].item))
      else if en1.kind == Line2D && en2.kind == Bezier2D then Some(BezierAndLinePair(sel[1].item, sel[0].item))
      else None
  }

  // ---------------------------------------------------------------------------
  // Properties of the classifiers

  /** Every classifier needs exactly two selected items, both entity handles. */
  lemma ClassifiersNeedEntityPair(ents: Entities, sel: seq<SelectableRef>)
    requires Resolves(ents, sel)
    requires !IsEntityPair(sel)
    ensures TwoEntities(ents, sel).None? && TwoArcs(ents, sel).None?
    ensures ArcAndLine(ents, sel).None? && BezierAndLine(ents, sel).None?
  {
  }

  /** No selection matches two classifiers, so the order in which begin tries them
      never decides between two matches. */
  lemma ClassifiersExclusive(ents: Entities, sel: seq<SelectableRef>)
    requires Resolves(ents, sel)
    ensures TwoEntities(ents, sel).Some? ==>
              TwoArcs(ents, sel).None? && ArcAndLine(ents, sel).None? && BezierAndLine(ents, sel).None?
    ensures TwoArcs(ents, sel).Some? ==> ArcAndLine(ents, sel).None? && BezierAndLine(ents, sel).None?
    ensures ArcAndLine(ents, sel).Some? ==> BezierAndLine(ents, sel).None?
  {
  }

  /** Swapping the two selected items swaps the pair TwoEntities returns. */
  lemma TwoEntitiesSwap(ents: Entities, x: SelectableRef, y: SelectableRef)
    requires Resolves(ents, [x, y])
    ensures Resolves(ents, [y, x])
    ensures TwoEntities(ents, [y, x]) ==
              match TwoEntities(ents, [x, y])
              case None => None
              case Some(p) => Some((p.1, p.0))
  {
    assert Resolves(ents, [y, x]) by {
      assert forall i :: 0 <= i < 2 ==> [y, x][i] == [x, y][1 - i];
    }
  }

  /** Swapping the two selected items swaps the pair TwoArcs returns. */
  lemma TwoArcsSwap(ents: Entities, x: SelectableRef, y: SelectableRef)
    requires Resolves(ents, [x, y])
    ensures Resolves(ents, [y, x])
    ensures TwoArcs(ents, [y, x]) ==
              match TwoArcs(ents, [x, y])
              case None => None
              case Some(p) => Some((p.1, p.0))
  {
    assert Resolves(ents, [y, x]) by {
      assert forall i :: 0 <= i < 2 ==> [y, x][i] == [x, y][1 - i];
    }
  }

  /** Arc-then-line and line-then-arc give the same canonical pair. */
  lemma ArcAndLineOrderFree(ents: Entities, x: SelectableRef, y: SelectableRef)
    requires Resolves(ents, [x, y])
    ensures Resolves(ents, [y, x])
    ensures ArcAndLine(ents, [y, x]) == ArcAndLine(ents, [x, y])
  {
    assert Resolves(ents, [y, x]) by {
      assert forall i :: 0 <= i < 2 ==> [y, x][i] == [x, y][1 - i];
    }
  }

  /** Bézier-then-line and line-then-Bézier give the same canonical pair. */
  lemma BezierAndLineOrderFree(ents: Entities, x: SelectableRef, y: SelectableRef)
    requires Resolves(ents, [x, y])
    ensures Resolves(ents, [y, x])
    ensures BezierAndLine(ents, [y, x]) == BezierAndLine(ents, [x, y])
  {
    assert Resolves(ents, [y, x]) by {
      assert forall i :: 0 <= i < 2 ==> [y, x][i] == [x, y][1 - i];
    }
  }

  // ---------------------------------------------------------------------------
  // can_begin

  /** The id the tool was started with; only the symmetric Bézier tangent id changes
      what the tool does. */
  datatype ToolId = ConstrainBezierBezierTangentSymmetric | OtherToolId(code: nat)

  /** Some classifier matches the selection. */
  predicate AnyPatternMatches(ents: Entities, sel: seq<SelectableRef>)
    requires Resolves(ents, sel)
  {
    || TwoEntities(ents, sel).Some?
    || TwoArcs(ents, sel).Some?
    || ArcAndLine(ents, sel).Some?
    || BezierAndLine(ents, sel).Some?
  }

  /** Whether the tool can start on this selection. The symmetric Bézier tangent tool
      needs two whole Bézier curves; every other id needs a selection that some
      classifier accepts: two parallel candidates, or two whole entities of which one is
      an arc or Bézier curve and the other an arc, a Bézier curve or a 2D line. */
  function CanBeginWith(tool: ToolId, ents: Entities, sel: seq<SelectableRef>): (b: bool)
    requires Resolves(ents, sel)
    ensures b ==> IsEntityPair(sel)
    ensures tool == ConstrainBezierBezierTangentSymmetric ==>
              (b <==> IsWholeEntityPair(sel)
                      && KindAt(ents, sel, 0) == Bezier2D && KindAt(ents, sel, 1) == Bezier2D)
    ensures tool != ConstrainBezierBezierTangentSymmetric ==>
              (b <==> || TwoEntities(ents, sel).Some?
                      || (&& IsWholeEntityPair(sel)
                          && (IsCurve(KindAt(ents, sel, 0)) || IsCurve(KindAt(ents, sel, 1)))
                          && (IsCurve(KindAt(ents, sel, 0)) || KindAt(ents, sel, 0) == Line2D)
                          && (IsCurve(KindAt(ents, sel, 1)) || KindAt(ents, sel, 1) == Line2D)))
  {
    if tool == ConstrainBezierBezierTangentSymmetric then
      match TwoArcs(ents, sel)
      case None => false
      case Some(bezs) => ents[bezs.0].kind == Bezier2D && ents[bezs.1].kind == Bezier2D
    else
      AnyPatternMatches(ents, sel)
  }

  /** A selection the symmetric tool can start on is one every other id can start on. */
  lemma SymmetricCanBeginImpliesCanBegin(ents: Entities, sel: seq<SelectableRef>, other: ToolId)
    requires Resolves(ents, sel)
    requires other != ConstrainBezierBezierTangentSymmetric
    ensures CanBeginWith(ConstrainBezierBezierTangentSymmetric, ents, sel) ==> CanBeginWith(other, ents, sel)
  {
  }

  /** Whether the tool can start does not depend on the order of the two items. */
  lemma CanBeginOrderFree(tool: ToolId, ents: Entities, x: SelectableRef, y: SelectableRef)
    requires Resolves(ents, [x, y])
    ensures Resolves(ents, [y, x])
    ensures CanBeginWith(tool, ents, [y, x]) == CanBeginWith(tool, ents, [x, y])
  {
    TwoEntitiesSwap(ents, x, y);
    TwoArcsSwap(ents, x, y);
    ArcAndLineOrderFree(ents, x, y);
    BezierAndLineOrderFree(ents, x, y);
  }

  // ---------------------------------------------------------------------------
  // Endpoint search

  /** Whether two entity points are at the same place. The distance test of the source
      (length below 1e-6) is a parameter of the model. */
  type Near = (EntityAndPoint, EntityAndPoint) -> bool

  predicate Coincident(near: Near, a: Uuid, p: nat, b: Uuid, q: nat)
  {
    near(EntityAndPoint(a, p), EntityAndPoint(b, q))
  }

  predicate IsEndpoint(p: nat)
  {
    1 <= p <= 2
  }

  /** (p', q') comes before (p, q) in the search order (1,1), (1,2), (2,1), (2,2). */
  predicate Precedes(p': nat, q': nat, p: nat, q: nat)
  {
    p' < p || (p' == p && q' < q)
  }

  /** The first pair of endpoints (point of a, point of b), in the search order, that
      coincide; None when no endpoint of a meets an endpoint of b. */
  function FirstCoincidentPair(near: Near, a: Uuid, b: Uuid): (r: Option<(nat, nat)>)
    ensures r.None? <==>
              forall p, q :: IsEndpoint(p) && IsEndpoint(q) ==> !Coincident(near, a, p, b, q)
    ensures r.Some? ==>
              && IsEndpoint(r.value.0) && IsEndpoint(r.value.1)
              && Coincident(near, a, r.value.0, b, r.value.1)
              && forall p, q :: IsEndpoint(p) && IsEndpoint(q) && Precedes(p, q, r.value.0, r.value.1)
                   ==> !Coincident(near, a, p, b, q)
  {
    if Coincident(near, a, 1, b, 1) then Some((1, 1))
    else if Coincident(near, a, 1, b, 2) then Some((1, 2))
    else if Coincident(near, a, 2, b, 1) then Some((2, 1))
    else if Coincident(near, a, 2, b, 2) then Some((2, 2))
    else None
  }

  /** The nested loops of begin over the endpoints of a and b. */
  method ScanEndpointPairs(near: Near, a: Uuid, b: Uuid) returns (r: Option<(nat, nat)>)
    ensures r == FirstCoincidentPair(near, a, b)
  {
    for p := 1 to 3
      invariant forall p', q' :: 1 <= p' < p && IsEndpoint(q') ==> !Coincident(near, a, p', b, q')
    {
      for q := 1 to 3
        invariant forall q' :: 1 <= q' < q ==> !Coincident(near, a, p, b, q')
      {
        if Coincident(near, a, p, b, q) {
          return Some((p, q));
        }
      }
    }
    return None;
  }

  // ---------------------------------------------------------------------------
  // begin

  datatype ToolResponse = Commit | End

  /** What begin does: the response and the one constraint it adds, if any. */
  datatype Outcome = Outcome(response: ToolResponse, added: Option<Constraint>)

  const NoChange: Outcome := Outcome(End, None)

  /** The arc-and-line branch of begin; None when it does not decide and begin goes on. */
  function ArcLineStep(ents: Entities, sel: seq<SelectableRef>, near: Near): Option<Outcome>
    requires Resolves(ents, sel)
  {
    match ArcAndLine(ents, sel)
    case None => None
    case Some(al) =>
      if ents[al.arc].wrkpl != ents[al.line].wrkpl then Some(NoChange)
      else match FirstCoincidentPair(near, al.arc, al.line)
        case None => None
        case Some(pq) => Some(Outcome(Commit, Some(ArcLineTangent(EntityAndPoint(al.arc, pq.0), al.line))))
  }

  /** The Bézier-and-line branch of begin; None when it does not decide. */
  function BezierLineStep(ents: Entities, sel: seq<SelectableRef>, near: Near): Option<Outcome>
    requires Resolves(ents, sel)
  {
    match BezierAndLine(ents, sel)
    case None => None
    case Some(bl) =>
      if ents[bl.bezier].wrkpl != ents[bl.line].wrkpl then Some(NoChange)
      else match FirstCoincidentPair(near, bl.bezier, bl.line)
        case None => None
        case Some(pq) => Some(Outcome(Commit, Some(BezierLineTangent(EntityAndPoint(bl.bezier, pq.0), bl.line))))
  }

  /** The tangent constraint begin creates for two curves meeting at the given points:
      the symmetric Bézier tangent for the symmetric tool id, the arc-arc tangent otherwise. */
  function CurveCurveTangent(tool: ToolId, p1: EntityAndPoint, p2: EntityAndPoint): (c: Constraint)
    ensures c.BezierBezierTangentSymmetric? <==> tool == ConstrainBezierBezierTangentSymmetric
    ensures c.BezierBezierTangentSymmetric? || c.ArcArcTangent?
    ensures c.arc1 == p1 && c.arc2 == p2
  {
    if tool == ConstrainBezierBezierTangentSymmetric then BezierBezierTangentSymmetric(p1, p2)
    else ArcArcTangent(p1, p2)
  }

  /** The two-arcs branch of begin; None when it does not decide. */
  function TwoArcsStep(tool: ToolId, ents: Entities, sel: seq<SelectableRef>, near: Near): Option<Outcome>
    requires Resolves(ents, sel)
  {
    match TwoArcs(ents, sel)
    case None => None
    case Some(arcs) =>
      if ents[arcs.0].wrkpl != ents[arcs.1].wrkpl then Some(NoChange)
      else match FirstCoincidentPair(near, arcs.0, arcs.1)
        case None => None
        case Some(pq) =>
          Some(Outcome(Commit, Some(CurveCurveTangent(tool, EntityAndPoint(arcs.0, pq.0), EntityAndPoint(arcs.1, pq.1)))))
  }

  /** What a constraint begin adds guarantees: a parallel constraint lies in the current
      workplane; a tangent constraint joins two entities of one workplane at an endpoint
      of each that coincide (for a line, whichever endpoint met the curve). */
  predicate Justified(ents: Entities, near: Near, wrkpl: Uuid, c: Constraint)
  {
    match c
    case Parallel(_, _, w) => w == wrkpl
    case ArcLineTangent(a, l) =>
      && a.entity in ents && l in ents && ents[a.entity].wrkpl == ents[l].wrkpl
      && IsEndpoint(a.point) && exists q :: 1 <= q <= 2 && Coincident(near, a.entity, a.point, l, q)
    case BezierLineTangent(b, l) =>
      && b.entity in ents && l in ents && ents[b.entity].wrkpl == ents[l].wrkpl
      && IsEndpoint(b.point) && exists q :: 1 <= q <= 2 && Coincident(near, b.entity, b.point, l, q)
    case ArcArcTangent(a1, a2) =>
      && a1.entity in ents && a2.entity in ents && ents[a1.entity].wrkpl == ents[a2.entity].wrkpl
      && IsEndpoint(a1.point) && IsEndpoint(a2.point)
      && Coincident(near, a1.entity, a1.point, a2.entity, a2.point)
    case BezierBezierTangentSymmetric(a1, a2) =>
      && a1.entity in ents && a2.entity in ents && ents[a1.entity].wrkpl == ents[a2.entity].wrkpl
      && IsEndpoint(a1.point) && IsEndpoint(a2.point)
      && Coincident(near, a1.entity, a1.point, a2.entity, a2.point)
  }

  /** The effect of begin: the classifiers are tried in the order parallel, arc and line,
      Bézier and line, two arcs; the first branch that decides fixes the outcome. */
  function Plan(tool: ToolId, ents: Entities, sel: seq<SelectableRef>, wrkpl: Uuid, near: Near): (o: Outcome)
    requires Resolves(ents, sel)
    ensures o.response == Commit <==> o.added.Some?
    ensures o.added.Some? ==>
              && AnyPatternMatches(ents, sel)
              && IsEntityPair(sel)
              && Mentions(o.added.value) == {sel[0].item, sel[1].item}
              && Justified(ents, near, wrkpl, o.added.value)
    ensures !AnyPatternMatches(ents, sel) ==> o == NoChange
    ensures TwoEntities(ents, sel).Some? ==>
              o.added == Some(Parallel(sel[0].item, sel[1].item, wrkpl))
    ensures (match ArcAndLine(ents, sel)
             case None => false
             case Some(al) => ents[al.arc].wrkpl == ents[al.line].wrkpl
                              && FirstCoincidentPair(near, al.arc, al.line).Some?) ==> o.response == Commit
    ensures (match BezierAndLine(ents, sel)
             case None => false
             case Some(bl) => ents[bl.bezier].wrkpl == ents[bl.line].wrkpl
                              && FirstCoincidentPair(near, bl.bezier, bl.line).Some?) ==> o.response == Commit
    ensures (match TwoArcs(ents, sel)
             case None => false
             case Some(arcs) => ents[arcs.0].wrkpl == ents[arcs.1].wrkpl
                                && FirstCoincidentPair(near, arcs.0, arcs.1).Some?) ==> o.response == Commit
  {
    match TwoEntities(ents, sel)
    case Some(tp) => Outcome(Commit, Some(Parallel(tp.0, tp.1, wrkpl)))
    case None =>
      match ArcLineStep(ents, sel, near)
      case Some(o) => o
      case None =>
        match BezierLineStep(ents, sel, near)
        case Some(o) => o
        case None =>
          match TwoArcsStep(tool, ents, sel, near)
          case Some(o) => o
          case None => NoChange
  }

  /** Two parallel candidates: begin always commits one parallel constraint between
      them, in selection order, in the current workplane. */
  lemma BeginParallel(tool: ToolId, ents: Entities, sel: seq<SelectableRef>, wrkpl: Uuid, near: Near)
    requires Resolves(ents, sel)
    requires TwoEntities(ents, sel).Some?
    ensures Plan(tool, ents, sel, wrkpl, near) ==
              Outcome(Commit, Some(Parallel(sel[0].item, sel[1].item, wrkpl)))
  {
  }

  /** An arc and a line: nothing happens if they lie in different workplanes or share no
      endpoint; otherwise one tangent constraint at the first coinciding arc endpoint. */
  lemma BeginArcLine(tool: ToolId, ents: Entities, sel: seq<SelectableRef>, wrkpl: Uuid, near: Near)
    requires Resolves(ents, sel)
    requires ArcAndLine(ents, sel).Some?
    ensures var al := ArcAndLine(ents, sel).value;
            var pq := FirstCoincidentPair(near, al.arc, al.line);
            Plan(tool, ents, sel, wrkpl, near) ==
              if ents[al.arc].wrkpl != ents[al.line].wrkpl || pq.None? then NoChange
              else Outcome(Commit, Some(ArcLineTangent(EntityAndPoint(al.arc, pq.value.0), al.line)))
  {
    ClassifiersExclusive(ents, sel);
  }

  /** A Bézier curve and a line: as for an arc and a line. */
  lemma BeginBezierLine(tool: ToolId, ents: Entities, sel: seq<SelectableRef>, wrkpl: Uuid, near: Near)
    requires Resolves(ents, sel)
    requires BezierAndLine(ents, sel).Some?
    ensures var bl := BezierAndLine(ents, sel).value;
            var pq := FirstCoincidentPair(near, bl.bezier, bl.line);
            Plan(tool, ents, sel, wrkpl, near) ==
              if ents[bl.bezier].wrkpl != ents[bl.line].wrkpl || pq.None? then NoChange
              else Outcome(Commit, Some(BezierLineTangent(EntityAndPoint(bl.bezier, pq.value.0), bl.line)))
  {
    ClassifiersExclusive(ents, sel);
  }

  /** Two curves: as above, storing both endpoints; the symmetric tool id creates the
      symmetric Bézier tangent constraint and every other id the arc-arc tangent. */
  lemma BeginTwoArcs(tool: ToolId, ents: Entities, sel: seq<SelectableRef>, wrkpl: Uuid, near: Near)
    requires Resolves(ents, sel)
    requires TwoArcs(ents, sel).Some?
    ensures var pq := FirstCoincidentPair(near, sel[0].item, sel[1].item);
            Plan(tool, ents, sel, wrkpl, near) ==
              if ents[sel[0].item].wrkpl != ents[sel[1].item].wrkpl || pq.None? then NoChange
              else
                var p1 := EntityAndPoint(sel[0].item, pq.value.0);
                var p2 := EntityAndPoint(sel[1].item, pq.value.1);
                Outcome(Commit, Some(CurveCurveTangent(tool, p1, p2)))
  {
    ClassifiersExclusive(ents, sel);
  }

  /** For an arc and a line, what begin does does not depend on which was listed first. */
  lemma BeginArcLineOrderFree(tool: ToolId, ents: Entities, x: SelectableRef, y: SelectableRef,
                              wrkpl: Uuid, near: Near)
    requires Resolves(ents, [x, y])
    requires ArcAndLine(ents, [x, y]).Some?
    ensures Resolves(ents, [y, x])
    ensures Plan(tool, ents, [y, x], wrkpl, near) == Plan(tool, ents, [x, y], wrkpl, near)
  {
    ArcAndLineOrderFree(ents, x, y);
    BeginArcLine(tool, ents, [x, y], wrkpl, near);
    BeginArcLine(tool, ents, [y, x], wrkpl, near);
  }

  /** For a Bézier curve and a line, what begin does does not depend on which was listed first. */
  lemma BeginBezierLineOrderFree(tool: ToolId, ents: Entities, x: SelectableRef, y: SelectableRef,
                                 wrkpl: Uuid, near: Near)
    requires Resolves(ents, [x, y])
    requires BezierAndLine(ents, [x, y]).Some?
    ensures Resolves(ents, [y, x])
    ensures Plan(tool, ents, [y, x], wrkpl, near) == Plan(tool, ents, [x, y], wrkpl, near)
  {
    BezierAndLineOrderFree(ents, x, y);
    BeginBezierLine(tool, ents, [x, y], wrkpl, near);
    BeginBezierLine(tool, ents, [y, x], wrkpl, near);
  }

  // ---------------------------------------------------------------------------
  // The tool object

  /** The constrain tool, started with an id on the document's current selection and
      the current workplane. */
  class ToolConstrainParallel {
    const toolId: ToolId
    const doc: Document
    const selection: seq<SelectableRef>
    const workplane: Uuid

    constructor (toolId: ToolId, doc: Document, selection: seq<SelectableRef>, workplane: Uuid)
      requires SetOrder(selection)
      ensures this.toolId == toolId && this.doc == doc
      ensures this.selection == selection && this.workplane == workplane
    {
      this.toolId := toolId;
      this.doc := doc;
      this.selection := selection;
      this.workplane := workplane;
    }

    /** Runs the classifiers in order and adds at most one constraint to the document. */
    method Begin(near: Near) returns (response: ToolResponse)
      requires Resolves(doc.entities, selection)
      modifies doc`constraints
      ensures var o := Plan(toolId, doc.entities, selection, workplane, near);
              && response == o.response
              && doc.constraints == old(doc.constraints) + (if o.added.Some? then [o.added.value] else [])
    {
      var ents := doc.entities;
      var tp := TwoEntities(ents, selection);
      if tp.Some? {
        doc.AddConstraint(Parallel(tp.value.0, tp.value.1, workplane));
        return Commit;
      }
      var al := ArcAndLine(ents, selection);
      if al.Some? {
        if ents[al.value.arc].wrkpl != ents[al.value.line].wrkpl {
          return End;
        }
        var pq := ScanEndpointPairs(near, al.value.arc, al.value.line);
        if pq.Some? {
          doc.AddConstraint(ArcLineTangent(EntityAndPoint(al.value.arc, pq.value.0), al.value.line));
          return Commit;
        }
      }
      var bl := BezierAndLine(ents, selection);
      if bl.Some? {
        if ents[bl.value.bezier].wrkpl != ents[bl.value.line].wrkpl {
          return End;
        }
        var pq := ScanEndpointPairs(near, bl.value.bezier, bl.value.line);
        if pq.Some? {
          doc.AddConstraint(BezierLineTangent(EntityAndPoint(bl.value.bezier, pq.value.0), bl.value.line));
          return Commit;
        }
      }
      var arcs := TwoArcs(ents, selection);
      if arcs.Some? {
        if ents[arcs.value.0].wrkpl != ents[arcs.value.1].wrkpl {
          return End;
        }
        var pq := ScanEndpointPairs(near, arcs.value.0, arcs.value.1);
        if pq.Some? {
          var p1 := EntityAndPoint(arcs.value.0, pq.value.0);
          var p2 := EntityAndPoint(arcs.value.1, pq.value.1);
          doc.AddConstraint(CurveCurveTangent(toolId, p1, p2));
          return Commit;
        }
      }
      return End;
    }
  }
}
