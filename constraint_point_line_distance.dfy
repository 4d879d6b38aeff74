/** The point-to-line distance constraint and its editable datum: the stored distance
    is signed (the sign says on which side of the line the point lies), the datum the
    user edits is its magnitude. */
module PointLineDistance {
  import opened Ids

  datatype ConstraintType = PointLineDistanceType | OtherConstraintType
  datatype DatumUnit = MM | Degree

  function Abs(x: real): real
  {
    if x >= 0.0 then x else -x
  }

  /** The stored distance after the user sets the datum to d: d carries the sign the
      stored distance had, a stored zero counting as positive. */
  function StoredAfterSetDatum(stored: real, d: real): (r: real)
    ensures Abs(r) == Abs(d)
    ensures d > 0.0 ==> (r > 0.0 <==> stored >= 0.0)
    ensures d > 0.0 ==> (r < 0.0 <==> stored < 0.0)
    ensures d == 0.0 ==> r == 0.0
    ensures d < 0.0 ==> (r > 0.0 <==> stored < 0.0)
  {
    d * (if stored >= 0.0 then 1.0 else -1.0)
  }

  /** Setting a non-negative datum and reading it back gives that datum; any datum reads
      back as its magnitude. */
  lemma DatumRoundTrip(stored: real, d: real)
    ensures Abs(StoredAfterSetDatum(stored, d)) == Abs(d)
    ensures d >= 0.0 ==> Abs(StoredAfterSetDatum(stored, d)) == d
  {
  }

  /** Setting the datum twice is the same as setting it once with the second value,
      as long as the first value was not zero (a zero loses the sign). */
  lemma SetDatumTwice(stored: real, d1: real, d2: real)
    requires d1 > 0.0
    ensures StoredAfterSetDatum(StoredAfterSetDatum(stored, d1), d2) == StoredAfterSetDatum(stored, d2)
  {
  }

  class ConstraintPointLineDistance {
    const uuid: Uuid
    var point: EntityAndPoint
    var line: Uuid
    var wrkpl: Uuid
    var distance: real
    var offset: Vec3

    /** A new constraint: no references yet, distance 1, offset zero. */
    constructor (uu: Uuid)
      ensures uuid == uu && point == EntityAndPoint(NilUuid, 0) && line == NilUuid && wrkpl == NilUuid
      ensures distance == 1.0 && offset == Origin
      ensures Datum() == 1.0
    {
      uuid := uu;
      point := EntityAndPoint(NilUuid, 0);
      line := NilUuid;
      wrkpl := NilUuid;
      distance := 1.0;
      offset := Origin;
    }

    function GetType(): (t: ConstraintType)
      ensures t == PointLineDistanceType
    {
      PointLineDistanceType
    }

    function DatumName(): (n: string)
      ensures n == "Distance"
    {
      "Distance"
    }

    function DatumUnitOf(): (u: DatumUnit)
      ensures u == MM
    {
      MM
    }

    function IsMovable(): (m: bool)
      ensures m
    {
      true
    }

    /** The datum shown to the user: never negative, and the stored distance up to its sign. */
    function Datum(): (d: real)
      reads this
      ensures d >= 0.0
      ensures d == distance || d == -distance
    {
      Abs(distance)
    }

    /** Sets the datum, keeping the side of the line the point is on. */
    method SetDatum(d: real)
      modifies this`distance
      ensures distance == StoredAfterSetDatum(old(distance), d)
      ensures Datum() == Abs(d) && (d >= 0.0 ==> Datum() == d)
      ensures point == old(point) && line == old(line) && wrkpl == old(wrkpl) && offset == old(offset)
    {
      distance := d * (if distance >= 0.0 then 1.0 else -1.0);
      DatumRoundTrip(old(distance), d);
    }

    /** The values the datum may take: in a workplane the distance is signed and may go
        down to -1000, in 3D it is a length from 0; the upper bound is 1000 either way. */
    function DatumRange(): (r: (real, real))
      reads this
      ensures r.0 < r.1 && r.1 == 1000.0
      ensures IsSet(wrkpl) <==> r.0 < 0.0
      ensures r.0 == (if IsSet(wrkpl) then -1000.0 else 0.0)
    {
      if IsSet(wrkpl) then (-1000.0, 1000.0) else (0.0, 1000.0)
    }
  }
}
