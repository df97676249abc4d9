/**
  * The projector: each surviving port becomes a string-keyed attribute map.
  * `id`, `occupied`, `device_id` and `label` are always present; `description`,
  * `name` and `tag_ids` are present only when the port has them.
  */
module Projection {
  import opened Outcomes
  import opened Ports

  /** The values an attribute map can hold. */
  datatype Value = IntValue(i: int) | StringValue(s: string) | BoolValue(b: bool) | IntListValue(xs: seq<int>)

  type Attributes = map<string, Value>

  /** The keys every projected port carries. */
  const AlwaysKeys: set<string> := {"id", "occupied", "device_id", "label"}

  /** The identifiers of `tags`, appended one by one in order. */
  function TagIds(tags: seq<Tag>): (ids: seq<int>)
    ensures |ids| == |tags|
    ensures forall i | 0 <= i < |tags| :: ids[i] == tags[i].id
    decreases |tags|
  {
    if |tags| == 0 then []
    else TagIds(tags[..|tags| - 1]) + [tags[|tags| - 1].id]
  }

  /** The attribute map of one port, filled in the order the read fills it. */
  function ProjectPort(p: Port): (a: Attributes)
    ensures AlwaysKeys <= a.Keys
    ensures a.Keys <= AlwaysKeys + {"description", "name", "tag_ids"}
    ensures a["id"] == IntValue(p.id)
    ensures a["occupied"] == BoolValue(p.occupied)
    ensures a["device_id"] == IntValue(p.deviceId)
    ensures a["label"] == StringValue(p.portLabel)
    ensures "description" in a <==> p.description != ""
    ensures "description" in a ==> a["description"] == StringValue(p.description)
    ensures "name" in a <==> p.name.Some?
    ensures "name" in a ==> a["name"] == StringValue(p.name.value)
    ensures "tag_ids" in a <==> p.tags.Some?
    ensures "tag_ids" in a ==>
              && a["tag_ids"].IntListValue?
              && |a["tag_ids"].xs| == |p.tags.value|
              && forall i | 0 <= i < |p.tags.value| :: a["tag_ids"].xs[i] == p.tags.value[i].id
  {
    var withId := map["id" := IntValue(p.id)];
    var withDescription :=
      if p.description != "" then withId["description" := StringValue(p.description)] else withId;
    var withOccupied := withDescription["occupied" := BoolValue(p.occupied)];
    var withName :=
      if p.name.Some? then withOccupied["name" := StringValue(p.name.value)] else withOccupied;
    var withTags :=
      if p.tags.Some? then withName["tag_ids" := IntListValue(TagIds(p.tags.value))] else withName;
    withTags["device_id" := IntValue(p.deviceId)]["label" := StringValue(p.portLabel)]
  }

  /** What of a port is observable once it is projected: everything except the tags' other fields. */
  datatype PortView = PortView(
    id: int,
    description: string,
    occupied: bool,
    portLabel: string,
    name: Option<string>,
    deviceId: int,
    tagIds: Option<seq<int>>)

  function View(p: Port): PortView
  {
    PortView(p.id, p.description, p.occupied, p.portLabel, p.name, p.deviceId,
             if p.tags.Some? then Some(TagIds(p.tags.value)) else None)
  }

  /**
    * Reads a port back from an attribute map; an absent `description` reads as
    * the empty string. `None` if a mandatory key is missing or ill-typed.
    */
  function Unproject(a: Attributes): Option<PortView>
  {
    if && "id" in a && a["id"].IntValue?
       && "occupied" in a && a["occupied"].BoolValue?
       && "device_id" in a && a["device_id"].IntValue?
       && "label" in a && a["label"].StringValue?
       && ("description" in a ==> a["description"].StringValue?)
       && ("name" in a ==> a["name"].StringValue?)
       && ("tag_ids" in a ==> a["tag_ids"].IntListValue?)
    then
      Some(PortView(
        a["id"].i,
        if "description" in a then a["description"].s else "",
        a["occupied"].b,
        a["label"].s,
        if "name" in a then Some(a["name"].s) else None,
        a["device_id"].i,
        if "tag_ids" in a then Some(a["tag_ids"].xs) else None))
    else None
  }

  /** Projection loses nothing but the tags' non-identifier fields. */
  lemma ProjectPortRoundTrip(p: Port)
    ensures Unproject(ProjectPort(p)) == Some(View(p))
  {
  }

  /** The loop of the read that appends one attribute map per port. */
  function ProjectAll(ports: seq<Port>): (out: seq<Attributes>)
    ensures |out| == |ports|
    ensures forall i | 0 <= i < |ports| :: out[i] == ProjectPort(ports[i])
    decreases |ports|
  {
    if |ports| == 0 then []
    else ProjectAll(ports[..|ports| - 1]) + [ProjectPort(ports[|ports| - 1])]
  }
}
