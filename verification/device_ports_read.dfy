/**
  * The read of the `device-front-ports` and `device-rear-ports` data sources:
  * build the query from the filters, take the list call's response, reject a
  * zero count, post-filter by name, project. The list call is a parameter
  * `fetch` from query parameters to the service's response.
  */
module DevicePortsRead {
  import opened Outcomes
  import opened Ports
  import opened QueryFilters
  import opened NameFilter
  import opened Projection

  /** The remote list call: a payload, or the transport error's message. */
  type Fetcher = Params -> Result<Payload, string>

  /** What a successful read publishes: the computed attribute's name and its list. */
  datatype Published = Published(attribute: string, ports: seq<Attributes>)

  /**
    * The read dereferences every port name when a `name_regex` is set; it can
    * only be carried through when, whenever that point is reached, every
    * fetched port has a name.
    */
  predicate CanRead(filters: seq<FilterEntry>, nameRegex: string, fetch: Fetcher)
  {
    match BuildParams(filters)
    case Failure(_) => true
    case Success(params) =>
      match fetch(params)
      case Failure(_) => true
      case Success(payload) => payload.count == 0 || nameRegex == "" || AllNamed(payload.results)
  }

  function Read(kind: PortKind, filters: seq<FilterEntry>, nameRegex: string, matches: Matcher, fetch: Fetcher)
    : (r: Result<Published, Error>)
    requires CanRead(filters, nameRegex, fetch)
    ensures !AllSupported(filters) ==>
              && r.Failure?
              && exists j | 0 <= j < |filters| ::
                   && !IsSupported(filters[j].name)
                   && AllSupported(filters[..j])
                   && r.error == UnsupportedFilter(filters[j].name)
    ensures AllSupported(filters) ==>
              var response := fetch(BuildParams(filters).value);
              && (response.Failure? ==> r == Failure(Transport(response.error)))
              && (response.Success? && response.value.count == 0 ==> r == Failure(NoResult))
              && (response.Success? && response.value.count != 0 ==> r.Success?)
    ensures r.Success? ==>
              var results := fetch(BuildParams(filters).value).value.results;
              && r.value.attribute == OutputAttribute(kind)
              && exists kept ::
                   && IsSubsequence(kept, results)
                   && r.value.ports == ProjectAll(kept)
                   && (nameRegex == "" ==> kept == results)
                   && (nameRegex != "" ==>
                         && (forall i | 0 <= i < |kept| :: NameMatches(matches, nameRegex, kept[i]))
                         && (forall i | 0 <= i < |results| ::
                               NameMatches(matches, nameRegex, results[i]) ==> results[i] in kept)
                         && (forall p: Port :: multiset(kept)[p] ==
                               if NameMatches(matches, nameRegex, p) then multiset(results)[p] else 0))
  {
    match BuildParams(filters)
    case Failure(e) => Failure(e)
    case Success(params) =>
      match fetch(params)
      case Failure(message) => Failure(Transport(message))
      case Success(payload) =>
        if payload.count == 0 then Failure(NoResult)
        else
          var kept := FilterByName(matches, nameRegex, payload.results);
          Success(Published(OutputAttribute(kind), ProjectAll(kept)))
  }

  /** The `device-front-ports` data source. */
  function ReadFrontPorts(filters: seq<FilterEntry>, nameRegex: string, matches: Matcher, fetch: Fetcher)
    : (r: Result<Published, Error>)
    requires CanRead(filters, nameRegex, fetch)
    ensures r.Success? ==> r.value.attribute == "front_ports"
  {
    Read(Front, filters, nameRegex, matches, fetch)
  }

  /** The `device-rear-ports` data source. */
  function ReadRearPorts(filters: seq<FilterEntry>, nameRegex: string, matches: Matcher, fetch: Fetcher)
    : (r: Result<Published, Error>)
    requires CanRead(filters, nameRegex, fetch)
    ensures r.Success? ==> r.value.attribute == "rear_ports"
  {
    Read(Rear, filters, nameRegex, matches, fetch)
  }

  /** The two data sources behave identically except for the attribute they publish under. */
  lemma FrontRearAgree(filters: seq<FilterEntry>, nameRegex: string, matches: Matcher, fetch: Fetcher)
    requires CanRead(filters, nameRegex, fetch)
    ensures ReadFrontPorts(filters, nameRegex, matches, fetch).Success? <==>
            ReadRearPorts(filters, nameRegex, matches, fetch).Success?
    ensures ReadFrontPorts(filters, nameRegex, matches, fetch).Failure? ==>
            ReadFrontPorts(filters, nameRegex, matches, fetch) == ReadRearPorts(filters, nameRegex, matches, fetch)
    ensures ReadFrontPorts(filters, nameRegex, matches, fetch).Success? ==>
            ReadFrontPorts(filters, nameRegex, matches, fetch).value.ports ==
            ReadRearPorts(filters, nameRegex, matches, fetch).value.ports
  {
  }

  /** An unsupported filter fails the read before the list call: the response cannot matter. */
  lemma UnsupportedFilterSkipsFetch(kind: PortKind, filters: seq<FilterEntry>, nameRegex: string,
                                    matches: Matcher, fetch1: Fetcher, fetch2: Fetcher)
    requires !AllSupported(filters)
    ensures CanRead(filters, nameRegex, fetch1) && CanRead(filters, nameRegex, fetch2)
    ensures Read(kind, filters, nameRegex, matches, fetch1) == Read(kind, filters, nameRegex, matches, fetch2)
  {
  }

  /** A zero count is an error whatever the results list holds. */
  lemma ZeroCountIgnoresResults(kind: PortKind, filters: seq<FilterEntry>, nameRegex: string,
                                matches: Matcher, fetch: Fetcher, results: seq<Port>)
    requires AllSupported(filters)
    requires fetch(BuildParams(filters).value) == Success(Payload(0, results))
    ensures CanRead(filters, nameRegex, fetch)
    ensures Read(kind, filters, nameRegex, matches, fetch) == Failure(NoResult)
  {
  }

  /**
    * Filter `device_name = "sw1"`, a response of count 2 with ports "fp1" and
    * "fp2", no `name_regex`: two maps, in order, with exactly the expected keys.
    */
  lemma DeviceNameScenario(matches: Matcher)
    ensures
      var filters := [FilterEntry("device_name", "sw1")];
      var fp1 := Port(1, "", true, "A", Some("fp1"), 10, Some([]));
      var fp2 := Port(2, "", false, "B", Some("fp2"), 10, Some([Tag(3, "t3", "t3")]));
      var fetch: Fetcher := (p: Params) =>
        if p == Params(None, Some("sw1"), None) then Success(Payload(2, [fp1, fp2])) else Failure("unexpected query");
      && CanRead(filters, "", fetch)
      && Read(Front, filters, "", matches, fetch) ==
         Success(Published("front_ports", [
           map["id" := IntValue(1), "occupied" := BoolValue(true), "name" := StringValue("fp1"),
               "tag_ids" := IntListValue([]), "device_id" := IntValue(10), "label" := StringValue("A")],
           map["id" := IntValue(2), "occupied" := BoolValue(false), "name" := StringValue("fp2"),
               "tag_ids" := IntListValue([3]), "device_id" := IntValue(10), "label" := StringValue("B")]]))
  {
    var filters := [FilterEntry("device_name", "sw1")];
    var fp1 := Port(1, "", true, "A", Some("fp1"), 10, Some([]));
    var fp2 := Port(2, "", false, "B", Some("fp2"), 10, Some([Tag(3, "t3", "t3")]));
    BuildParamsLastWins(filters);
    var params := BuildParams(filters).value;
    assert GetSlot(params, DeviceIdSlot) == None;
    assert GetSlot(params, DeviceSlot) == Some("sw1");
    assert GetSlot(params, NameSlot) == None;
    assert params == Params(None, Some("sw1"), None);
    var m1 := map["id" := IntValue(1), "occupied" := BoolValue(true), "name" := StringValue("fp1"),
                  "tag_ids" := IntListValue([]), "device_id" := IntValue(10), "label" := StringValue("A")];
    var m2 := map["id" := IntValue(2), "occupied" := BoolValue(false), "name" := StringValue("fp2"),
                  "tag_ids" := IntListValue([3]), "device_id" := IntValue(10), "label" := StringValue("B")];
    assert ProjectPort(fp1) == m1 by {
      assert ProjectPort(fp1).Keys == m1.Keys;
    }
    assert ProjectPort(fp2) == m2 by {
      assert ProjectPort(fp2).Keys == m2.Keys;
      assert ProjectPort(fp2)["tag_ids"].xs == [3];
    }
    assert ProjectAll([fp1, fp2]) == [m1, m2];
  }
}
