/** The loft group: a solid through a sequence of profiles, each a workplane of a source
    group, combined with the solid so far by a boolean operation. */
module GroupLoftModel {
  import opened Ids

  /** The group kinds; only the loft matters here. */
  datatype GroupType = Loft | OtherGroupType

  /** How the group's solid is combined with the solid of the groups before it. */
  datatype Operation = Union | Difference | Intersection

  /** One profile of the loft: a workplane and the group that holds its sketch. */
  datatype Source = Source(wrkpl: Uuid, group: Uuid)

  /** A status message of the group's last solid-model update. */
  datatype StatusMessage = StatusMessage(text: string)

  class GroupLoft {
    const uuid: Uuid
    var sources: seq<Source>
    var ruled: bool
    var operation: Operation
    var loftMessages: seq<StatusMessage>

    /** A new loft: no profiles, smooth (not ruled), combined by union. */
    constructor (uu: Uuid)
      ensures uuid == uu && sources == [] && !ruled && operation == Union && loftMessages == []
      ensures GetOperation() == Union
    {
      uuid := uu;
      sources := [];
      ruled := false;
      operation := Union;
      loftMessages := [];
    }

    function GetType(): (t: GroupType)
      ensures t == Loft
    {
      Loft
    }

    /** The boolean operation the group currently uses. */
    function GetOperation(): (op: Operation)
      reads this
      ensures op == operation
    {
      operation
    }

    /** Changes the boolean operation and nothing else. */
    method SetOperation(op: Operation)
      modifies this`operation
      ensures GetOperation() == op
      ensures sources == old(sources) && ruled == old(ruled) && loftMessages == old(loftMessages)
    {
      operation := op;
    }
  }
}
