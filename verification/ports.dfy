/** The records the remote inventory service returns, and the errors a read can end with. */
module Ports {
  import opened Outcomes

  /** A tag attached to a port. Only its `id` survives projection. */
  datatype Tag = Tag(id: int, name: string, slug: string)

  /**
    * A front or rear port as listed by the service. Both kinds carry the same
    * fields. `name` and `tags` are nil-able in the service's records, so they
    * are optional here; `description` and `label` are plain strings.
    */
  datatype Port = Port(
    id: int,
    description: string,
    occupied: bool,
    portLabel: string,   // the port's `label` field (`label` is a Dafny keyword)
    name: Option<string>,
    deviceId: int,
    tags: Option<seq<Tag>>)

  /** The body of a successful list call: the reported count and the records. */
  datatype Payload = Payload(count: int, results: seq<Port>)

  /** Which of the two data sources is reading. */
  datatype PortKind = Front | Rear

  /** The computed attribute under which each data source publishes its list. */
  function OutputAttribute(kind: PortKind): (name: string)
    ensures name == "front_ports" || name == "rear_ports"
    ensures kind.Front? <==> name == "front_ports"
  {
    match kind
    case Front => "front_ports"
    case Rear => "rear_ports"
  }

  /** The ways a read can fail. */
  datatype Error =
    | UnsupportedFilter(key: string)   // a filter entry named none of the recognised keys
    | Transport(message: string)       // the list call itself failed; passed on as is
    | NoResult                         // the list call succeeded but reported a count of zero

  const UnsupportedSuffix: string := "' is not a supported filter parameter"

  /** The text of the error the data source returns. */
  function Message(e: Error): (m: string)
    ensures e.UnsupportedFilter? ==>
              && |m| == |e.key| + 1 + |UnsupportedSuffix|
              && m[0] == '\''
              && m[1..|e.key| + 1] == e.key
              && m[|e.key| + 1..] == UnsupportedSuffix
    ensures e.NoResult? ==> m == "no result"
    ensures e.Transport? ==> m == e.message
  {
    match e
    case UnsupportedFilter(k) => "'" + k + UnsupportedSuffix
    case Transport(msg) => msg
    case NoResult => "no result"
  }

  /** The unsupported-filter message names the offending key: two keys give the same message only if they are equal. */
  lemma UnsupportedMessageNamesKey(k1: string, k2: string)
    ensures Message(UnsupportedFilter(k1)) == Message(UnsupportedFilter(k2)) <==> k1 == k2
  {
  }

  /** The zero-count error never reads like an unsupported-filter error. */
  lemma NoResultDiffersFromUnsupported(k: string)
    ensures Message(NoResult) != Message(UnsupportedFilter(k))
  {
  }
}
