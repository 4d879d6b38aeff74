/** What the user has selected: a std::set<SelectableRef>, seen by the tools through
    the set's iteration order. */
module Selection {
  import opened Ids

  /** What a selectable handle points at. */
  datatype RefKind = EntityRef | ConstraintRef | OtherRef

  /** A selectable handle: its kind, the UUID of the item and, for an entity, the point
      index (0 = the entity as a whole). */
  datatype SelectableRef = SelectableRef(kind: RefKind, item: Uuid, point: nat)

  function KindRank(k: RefKind): (r: nat)
    ensures r < 3
  {
    match k
    case EntityRef => 0
    case ConstraintRef => 1
    case OtherRef => 2
  }

  /** The ordering a std::set<SelectableRef> keeps its members in: lexicographic on
      (kind, item, point). */
  predicate RefLess(a: SelectableRef, b: SelectableRef)
  {
    || KindRank(a.kind) < KindRank(b.kind)
    || (KindRank(a.kind) == KindRank(b.kind) && a.item < b.item)
    || (KindRank(a.kind) == KindRank(b.kind) && a.item == b.item && a.point < b.point)
  }

  /** RefLess is a strict total order on selectable handles. */
  lemma RefLessStrictTotal(a: SelectableRef, b: SelectableRef)
    ensures !RefLess(a, a)
    ensures !(RefLess(a, b) && RefLess(b, a))
    ensures a != b ==> RefLess(a, b) || RefLess(b, a)
  {
    if KindRank(a.kind) == KindRank(b.kind) {
      assert a.kind == b.kind;
    }
  }

  /** `sel` lists the members of a selection set in the set's iteration order. */
  predicate SetOrder(sel: seq<SelectableRef>)
  {
    forall i, j :: 0 <= i < j < |sel| ==> RefLess(sel[i], sel[j])
  }

  /** A selection set has exactly one iteration order: two listings of the same set are
      the same sequence, so the order in which the user picked the items is not seen. */
  lemma {:induction false} SetOrderUnique(s1: seq<SelectableRef>, s2: seq<SelectableRef>)
    requires SetOrder(s1) && SetOrder(s2)
    requires forall x :: x in s1 <==> x in s2
    ensures s1 == s2
    decreases |s1|
  {
    if s2 != [] {
      assert s2[0] in s2;
    }
    if s1 == [] {
    } else {
      assert s1[0] in s1;
      assert s2 != [];
      assert s2[0] in s2;
      var k :| 0 <= k < |s2| && s2[k] == s1[0];
      var m :| 0 <= m < |s1| && s1[m] == s2[0];
      if k != 0 {
        assert RefLess(s2[0], s2[k]);
        if m != 0 {
          assert RefLess(s1[0], s1[m]);
          RefLessStrictTotal(s1[0], s2[0]);
        }
        assert false;
      }
      assert s1[0] == s2[0];
      forall x
        ensures x in s1[1..] <==> x in s2[1..]
      {
        if x in s1[1..] {
          var i :| 1 <= i < |s1| && s1[i] == x;
          assert RefLess(s1[0], s1[i]);
          RefLessStrictTotal(s1[0], x);
          assert x in s2 && x != s2[0];
        }
        if x in s2[1..] {
          var i :| 1 <= i < |s2| && s2[i] == x;
          assert RefLess(s2[0], s2[i]);
          RefLessStrictTotal(s2[0], x);
          assert x in s1 && x != s1[0];
        }
      }
      SetOrderUnique(s1[1..], s2[1..]);
      assert s1 == [s1[0]] + s1[1..] && s2 == [s2[0]] + s2[1..];
    }
  }

  /** The iteration of the two-element selection set {a, b}. */
  function Listing(a: SelectableRef, b: SelectableRef): (sel: seq<SelectableRef>)
    requires a != b
    ensures SetOrder(sel) && |sel| == 2
    ensures forall x :: x in sel <==> x == a || x == b
  {
    RefLessStrictTotal(a, b);
    if RefLess(a, b) then [a, b] else [b, a]
  }

  /** Picking a then b, or b then a, gives the tools the same selection. */
  lemma ListingIgnoresPickOrder(a: SelectableRef, b: SelectableRef)
    requires a != b
    ensures Listing(a, b) == Listing(b, a)
  {
    SetOrderUnique(Listing(a, b), Listing(b, a));
  }
}
