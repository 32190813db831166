/**
 * A log-frame element on the client (LogFrameElementDTO): a property map
 * written by keyed setters, a separate indicator list, and a client-side
 * id that is the server id when there is one and otherwise a temporary
 * id generated from the clock on first use and remembered under "tmpid".
 */
module LogFrame {
  import opened Wrappers
  import JavaInt

  /** The element's group and its indicators, carried without inspection. */
  datatype LogFrameGroup = LogFrameGroup(groupId: int)
  datatype IndicatorDTO = IndicatorDTO(indicatorId: int)

  /** A value of the property map; `NullValue` is a stored or missing null. */
  datatype PropValue = IntValue(i: int) | TextValue(s: string) | GroupValue(group: LogFrameGroup) | NullValue

  function IntOrNull(v: Option<int>): PropValue {
    if v.Some? then IntValue(v.value) else NullValue
  }

  function TextOrNull(v: Option<string>): PropValue {
    if v.Some? then TextValue(v.value) else NullValue
  }

  function GroupOrNull(v: Option<LogFrameGroup>): PropValue {
    if v.Some? then GroupValue(v.value) else NullValue
  }

  /** The value stored under `key`, null when nothing is. */
  function Lookup(m: map<string, PropValue>, key: string): PropValue {
    if key in m then m[key] else NullValue
  }

  class LogFrameElementDTO {
    var properties: map<string, PropValue>
    /** The indicator list; `None` is a null list. */
    var indicators: Option<seq<IndicatorDTO>>

    /** Each known key holds a value of the type its setter stores, or null. */
    ghost predicate Valid()
      reads this
    {
      && (Lookup(properties, "id").IntValue? || Lookup(properties, "id").NullValue?)
      && (Lookup(properties, "tmpid").IntValue? || Lookup(properties, "tmpid").NullValue?)
      && (Lookup(properties, "code").IntValue? || Lookup(properties, "code").NullValue?)
      && (Lookup(properties, "position").IntValue? || Lookup(properties, "position").NullValue?)
      && (Lookup(properties, "risks").TextValue? || Lookup(properties, "risks").NullValue?)
      && (Lookup(properties, "assumptions").TextValue? || Lookup(properties, "assumptions").NullValue?)
      && (Lookup(properties, "group").GroupValue? || Lookup(properties, "group").NullValue?)
    }

    constructor ()
      ensures Valid()
      ensures properties == map[] && GetIndicators() == Some([])
      ensures GetId() == -1 && ClientId() == None
    {
      properties := map[];
      indicators := Some([]);
    }

    /** The boxed server id: the stored "id", or null. */
    function ServerId(): (r: Option<int>)
      reads this
      ensures r.Some? <==> Lookup(properties, "id").IntValue?
      ensures r.Some? ==> r.value == Lookup(properties, "id").i
    {
      match Lookup(properties, "id")
      case IntValue(i) => Some(i)
      case _ => None
    }

    /** The boxed temporary id: the stored "tmpid", or null. */
    function TemporaryId(): (r: Option<int>)
      reads this
      ensures r.Some? <==> Lookup(properties, "tmpid").IntValue?
      ensures r.Some? ==> r.value == Lookup(properties, "tmpid").i
    {
      match Lookup(properties, "tmpid")
      case IntValue(i) => Some(i)
      case _ => None
    }

    /** The id `GetClientSideId` answers without generating one: the server id, else the temporary id. */
    function ClientId(): (r: Option<int>)
      reads this
      ensures r.Some? <==> Lookup(properties, "id").IntValue? || Lookup(properties, "tmpid").IntValue?
      ensures Lookup(properties, "id").IntValue? ==> r == Some(Lookup(properties, "id").i)
      ensures !Lookup(properties, "id").IntValue? && Lookup(properties, "tmpid").IntValue? ==>
                r == Some(Lookup(properties, "tmpid").i)
    {
      if ServerId().Some? then ServerId() else TemporaryId()
    }

    /** The stored id, or -1 when none is stored. */
    function GetId(): (id: int)
      reads this
      requires Valid()
      ensures Lookup(properties, "id") == NullValue ==> id == -1
      ensures Lookup(properties, "id") == IntValue(id) || Lookup(properties, "id") == NullValue
    {
      if ServerId().Some? then ServerId().value else -1
    }

    method SetId(id: int)
      requires Valid()
      modifies this`properties
      ensures Valid()
      ensures properties == old(properties)["id" := IntValue(id)]
      ensures GetId() == id && ServerId() == Some(id)
    {
      properties := properties["id" := IntValue(id)];
    }

    function GetCode(): (code: Option<int>)
      reads this
      requires Valid()
      ensures IntOrNull(code) == Lookup(properties, "code")
    {
      var v := Lookup(properties, "code");
      if v.IntValue? then Some(v.i) else None
    }

    method SetCode(code: Option<int>)
      requires Valid()
      modifies this`properties
      ensures Valid()
      ensures properties == old(properties)["code" := IntOrNull(code)]
      ensures GetCode() == code
    {
      properties := properties["code" := IntOrNull(code)];
    }

    function GetPosition(): (position: Option<int>)
      reads this
      requires Valid()
      ensures IntOrNull(position) == Lookup(properties, "position")
    {
      var v := Lookup(properties, "position");
      if v.IntValue? then Some(v.i) else None
    }

    method SetPosition(position: Option<int>)
      requires Valid()
      modifies this`properties
      ensures Valid()
      ensures properties == old(properties)["position" := IntOrNull(position)]
      ensures GetPosition() == position
    {
      properties := properties["position" := IntOrNull(position)];
    }

    function GetRisks(): (risks: Option<string>)
      reads this
      requires Valid()
      ensures TextOrNull(risks) == Lookup(properties, "risks")
    {
      var v := Lookup(properties, "risks");
      if v.TextValue? then Some(v.s) else None
    }

    method SetRisks(risks: Option<string>)
      requires Valid()
      modifies this`properties
      ensures Valid()
      ensures properties == old(properties)["risks" := TextOrNull(risks)]
      ensures GetRisks() == risks
    {
      properties := properties["risks" := TextOrNull(risks)];
    }

    function GetAssumptions(): (assumptions: Option<string>)
      reads this
      requires Valid()
      ensures TextOrNull(assumptions) == Lookup(properties, "assumptions")
    {
      var v := Lookup(properties, "assumptions");
      if v.TextValue? then Some(v.s) else None
    }

    method SetAssumptions(assumptions: Option<string>)
      requires Valid()
      modifies this`properties
      ensures Valid()
      ensures properties == old(properties)["assumptions" := TextOrNull(assumptions)]
      ensures GetAssumptions() == assumptions
    {
      properties := properties["assumptions" := TextOrNull(assumptions)];
    }

    function GetGroup(): (group: Option<LogFrameGroup>)
      reads this
      requires Valid()
      ensures GroupOrNull(group) == Lookup(properties, "group")
    {
      var v := Lookup(properties, "group");
      if v.GroupValue? then Some(v.group) else None
    }

    method SetGroup(group: Option<LogFrameGroup>)
      requires Valid()
      modifies this`properties
      ensures Valid()
      ensures properties == old(properties)["group" := GroupOrNull(group)]
      ensures GetGroup() == group
    {
      properties := properties["group" := GroupOrNull(group)];
    }

    /** The element's own list, null included. */
    function GetIndicators(): (list: Option<seq<IndicatorDTO>>)
      reads this
      ensures list == indicators
    {
      indicators
    }

    method SetIndicators(list: Option<seq<IndicatorDTO>>)
      modifies this`indicators
      ensures GetIndicators() == list
    {
      indicators := list;
    }

    /**
     * The client-side id: the server id when there is one, else the
     * temporary id when there is one; with neither, a temporary id is made
     * from the clock reading `now` (milliseconds, narrowed to `int`),
     * stored under "tmpid" and returned. Afterwards the element has a
     * client id and it is the one returned.
     */
    method GetClientSideId(now: int) returns (id: int)
      requires Valid()
      modifies this`properties
      ensures Valid()
      ensures old(ServerId()).Some? ==> id == old(ServerId()).value && properties == old(properties)
      ensures old(ServerId()).None? && old(TemporaryId()).Some? ==>
                id == old(TemporaryId()).value && properties == old(properties)
      ensures old(ClientId()).None? ==>
                id == JavaInt.Wrap(now) && properties == old(properties)["tmpid" := IntValue(id)]
      ensures ClientId() == Some(id)
    {
      var server := ServerId();
      if server.Some? {
        id := server.value;
      } else {
        var temporary := TemporaryId();
        if temporary.Some? {
          id := temporary.value;
        } else {
          id := GenerateClientSideId(now);
        }
      }
    }

    /** Makes a temporary id from the clock reading and stores it under "tmpid". */
    method GenerateClientSideId(now: int) returns (id: int)
      requires Valid()
      modifies this`properties
      ensures Valid()
      ensures id == JavaInt.Wrap(now)
      ensures properties == old(properties)["tmpid" := IntValue(id)]
      ensures TemporaryId() == Some(id)
    {
      id := JavaInt.Wrap(now);
      properties := properties["tmpid" := IntValue(id)];
    }
  }

  /**
   * Asking twice gives the same client-side id whatever the clock says,
   * and the two calls together change no more than the first alone: nothing
   * when the element already had a client id, else only "tmpid".
   */
  method ClientSideIdIsStable(e: LogFrameElementDTO, now1: int, now2: int) returns (first: int, second: int)
    requires e.Valid()
    modifies e`properties
    ensures e.Valid()
    ensures first == second
    ensures old(e.ClientId()).Some? ==> first == old(e.ClientId()).value && e.properties == old(e.properties)
    ensures old(e.ClientId()).None? ==> e.properties == old(e.properties)["tmpid" := IntValue(first)]
  {
    first := e.GetClientSideId(now1);
    ghost var between := e.properties;
    second := e.GetClientSideId(now2);
    assert e.properties == between;
  }
}
