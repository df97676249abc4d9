# NetBox device front/rear ports data sources — Dafny model

This project models the read operation of the two Terraform data sources
`netbox_device_front_ports` and `netbox_device_rear_ports`. Each one lists a
device's front or rear ports from the NetBox inventory service. It can narrow
the list by a name regular expression, and it publishes each port as an
attribute map. Both reads run the same four steps:

1. **Query builder** (`QueryFilters`). It folds the `filter` entries, in the
   order they are processed, into three optional string parameters:
   `device_id` fills `DeviceID`, `device_name` fills `Device` and `name`
   fills `Name`. The value is copied verbatim and the last entry for a key
   wins. The first entry with any other name stops the read with
   `'<name>' is not a supported filter parameter`.
2. **Zero-count guard** (`DevicePortsRead.Read`). A successful list response
   that reports `count == 0` becomes the error `no result`, whatever its
   results list holds. A failed list call passes its error on unchanged.
3. **Name post-filter** (`NameFilter`). With a non-empty `name_regex`, it keeps
   exactly the ports whose name matches, in their original order. Otherwise
   the results pass through unchanged.
4. **Projector** (`Projection`). It emits one attribute map per surviving
   port, in order. `id`, `occupied`, `device_id` and `label` are always
   present. `description` is present only when non-empty. `name` is present
   only when the port has one. `tag_ids` is present only when the port's tag
   list is non-nil, and then holds the tags' IDs in order.

The two data sources share one generic model, `DevicePortsRead.Read`, which is
parameterised by `Ports.PortKind`. `ReadFrontPorts` and `ReadRearPorts`
instantiate it. The two source files are line-for-line identical apart from
the port type and the published attribute name (`front_ports` /
`rear_ports`). So the line numbers cited below for the front-port file hold
for the rear-port file too.

Abstractions:
- The remote list call (`DcimFrontPortsList` / `DcimRearPortsList`) is a
  parameter `fetch: Params -> Result<Payload, string>`. It receives exactly the
  parameters the query builder produced. A transport failure is its error
  message.
- The regular-expression engine is a parameter `matches(pattern, name)`.
  `NameFilter.ContainsLiteral` is one concrete matcher, for patterns without
  metacharacters. It is used only in an example.
- Filters are a sequence in processing order. The source iterates a Terraform
  set, whose order it does not control. The "last one wins" property is stated
  for whatever order that is.

Three behaviours of the code are easy to misread:
- **Unnamed ports with a pattern.** An unnamed port is not treated as
  non-matching. Line 121 dereferences every name, so such a port would crash
  the read. The model therefore requires every fetched port to be named
  whenever that line is reached (`DevicePortsRead.CanRead`, and
  `NameFilter.AllNamed` on `KeepMatching`).
- **Empty tag list.** An empty but non-nil tag list still emits `tag_ids`,
  with an empty list (lines 140-146). Only a nil tag list omits the key.
  `DevicePortsRead.DeviceNameScenario` shows both cases.
- **Empty `name_regex`.** The code reads `name_regex` with `GetOk`, which
  reports an empty string as unset. So an empty pattern means "no filtering"
  (`NameFilter.FilterByName`).

## Model

| member | source | states |
|---|---|---|
| Ports.OutputAttribute | netbox/data_source_netbox_device_front_ports.go:155 | front ports publish under `front_ports`, rear ports under `rear_ports` |
| Ports.Message | netbox/data_source_netbox_device_front_ports.go:102-115 | the unsupported-filter message is the key quoted and followed by the fixed suffix; a zero count reads `no result`; a transport error keeps its own text |
| Ports.UnsupportedMessageNamesKey | netbox/data_source_netbox_device_front_ports.go:103 | the unsupported-filter message identifies the offending key: two messages are equal iff the keys are |
| Ports.NoResultDiffersFromUnsupported | netbox/data_source_netbox_device_front_ports.go:113-115 | the zero-count error is distinguishable from every unsupported-filter error |
| QueryFilters.ParseKey | netbox/data_source_netbox_device_front_ports.go:95-103 | a filter name selects a slot iff it is `device_id`, `device_name` or `name`, and the selected slot's key is that name |
| QueryFilters.ParseSlotKey | netbox/data_source_netbox_device_front_ports.go:95-101 | each slot's key dispatches back to that slot |
| QueryFilters.SetSlot | netbox/data_source_netbox_device_front_ports.go:96-101 | an assignment sets its own slot to the value and leaves the other two slots unchanged |
| QueryFilters.ApplyFilter | netbox/data_source_netbox_device_front_ports.go:92-104 | one entry fails iff its name is unsupported, with an error naming it; otherwise the slot whose key equals the name gets the value verbatim and no other slot changes |
| QueryFilters.LastValue | netbox/data_source_netbox_device_front_ports.go:91-101 | reference definition of "last one wins": unset iff no entry has the key, otherwise the value of an entry with that key after which no entry has the key |
| QueryFilters.LastValueCons | netbox/data_source_netbox_device_front_ports.go:91-101 | a later entry for a key overrides an earlier one, so the forward loop and the backward reference agree |
| QueryFilters.BuildParamsFrom | netbox/data_source_netbox_device_front_ports.go:89-106 | the filter loop succeeds iff every name is supported; on failure the error names the first unsupported entry, all entries before it being supported |
| QueryFilters.BuildParamsFromSlots | netbox/data_source_netbox_device_front_ports.go:91-105 | after the loop each slot is its starting value overridden by the last entry for its key |
| QueryFilters.BuildParams | netbox/data_source_netbox_device_front_ports.go:87-106 | fresh parameters folded over all entries: succeeds iff every name is supported; on failure names the first unsupported entry; on success each slot is the last value given for its key |
| QueryFilters.BuildParamsLastWins | netbox/data_source_netbox_device_front_ports.go:87-106 | from fresh parameters, each slot holds exactly the last value given for its key, and is unset iff its key never appears |
| NameFilter.KeepMatching | netbox/data_source_netbox_device_front_ports.go:118-124 | the regex loop returns an order-preserving subsequence of the results, no longer than them, in which every port matches, and which contains every matching port |
| NameFilter.KeepMatchingMultiplicity | netbox/data_source_netbox_device_front_ports.go:120-124 | a matching port is kept as many times as it occurs; a non-matching port never appears |
| NameFilter.KeepMatchingAppend | netbox/data_source_netbox_device_front_ports.go:120-124 | filtering a concatenation is the concatenation of the filtered parts, so relative order is never changed |
| NameFilter.KeepMatchingAllMatch | netbox/data_source_netbox_device_front_ports.go:120-124 | when every name matches, the whole list is kept |
| NameFilter.KeepMatchingIdempotent | netbox/data_source_netbox_device_front_ports.go:118-124 | filtering twice with the same pattern equals filtering once |
| NameFilter.FilterByName | netbox/data_source_netbox_device_front_ports.go:117-127 | without a pattern the results pass through unchanged; with one, the output is an order-preserving subsequence of matching ports in which every matching port occurs exactly as often as in the results |
| NameFilter.EthExample | netbox/data_source_netbox_device_front_ports.go:118-124 | names `eth0`, `eth1`, `mgmt0` with pattern `eth` keep `eth0` then `eth1` |
| Projection.TagIds | netbox/data_source_netbox_device_front_ports.go:141-145 | the tag IDs have one entry per tag, the i-th being the i-th tag's ID |
| Projection.ProjectPort | netbox/data_source_netbox_device_front_ports.go:131-149 | `id`, `occupied`, `device_id`, `label` always present with the port's values; `description` iff non-empty, `name` iff non-nil, `tag_ids` iff tags non-nil and then the ordered tag IDs; no other key |
| Projection.ProjectPortRoundTrip | netbox/data_source_netbox_device_front_ports.go:131-149 | a port can be read back from its map, losing only the non-ID fields of its tags |
| Projection.ProjectAll | netbox/data_source_netbox_device_front_ports.go:129-152 | exactly one map per filtered port, in the same order |
| DevicePortsRead.Read | netbox/data_source_netbox_device_front_ports.go:87-155 | an unsupported filter fails with an error naming the first unsupported entry; a transport error passes through; a zero count fails with `no result`; otherwise the read succeeds, publishing the maps of an order-preserving subsequence of the results that is the whole list without a pattern, and with one holds only matching ports, each as often as it occurs in the results |
| DevicePortsRead.ReadFrontPorts | netbox/data_source_netbox_device_front_ports.go:84-155 | the front-ports read publishes under `front_ports` |
| DevicePortsRead.ReadRearPorts | netbox/data_source_netbox_device_rear_ports.go:84-155 | the rear-ports read publishes under `rear_ports` |
| DevicePortsRead.FrontRearAgree | netbox/data_source_netbox_device_rear_ports.go:87-152 | both data sources succeed on the same inputs, fail with the same error and publish the same list |
| DevicePortsRead.UnsupportedFilterSkipsFetch | netbox/data_source_netbox_device_front_ports.go:102-108 | with an unsupported filter the outcome does not depend on the list call's response at all |
| DevicePortsRead.ZeroCountIgnoresResults | netbox/data_source_netbox_device_front_ports.go:113-115 | a successful response with count zero yields `no result` whatever its results |
| DevicePortsRead.DeviceNameScenario | netbox/data_source_netbox_device_front_ports.go:87-155 | filter `device_name = sw1` queries `Device = sw1` only; two ports come back as two maps in order with exactly the expected keys and values |

## Left out

- Schema builders (`dataSourceNetboxDeviceFrontPorts`, `dataSourceNetboxDeviceRearPorts`, lines 15-82): declarative framework configuration with no behaviour of their own.
- The remote list call and its transport: modelled as the `fetch` parameter; retries, timeouts and authentication belong to the client library.
- Regular-expression compilation, matching and the `name_regex` validation (lines 39, 119, 121): matching is the `matches` parameter. A pattern that fails to compile is rejected by the schema validation before the read, so the read has no error case for it.
- `d.SetId(id.UniqueId())` and `d.Set` (lines 154-155): the identifier is non-deterministic by design and `d.Set` is framework state. The read returns the attribute name and the list it would publish. The claim that two reads get different identifiers is therefore not modelled.
- The `interface{}` type assertions (lines 85, 90-94): Go dynamic typing that the Dafny datatypes make unnecessary.
- 64-bit integer width of IDs, counts and tag IDs: the values are only copied, never computed with, so unbounded `int` loses nothing.
- Nil pointer dereferences that crash the Go read rather than return an error are excluded by preconditions or by the data model. These are a nil `Name` while a pattern is active, a nil `Count`, and a nil `Device`. `Count` and `Device` are required fields of the service's records and are plain values here.
- NameFilter.KeepMatching: requires every port to be named rather than describing the crash an unnamed port causes at line 121.
- DevicePortsRead.Read: requires, through `CanRead`, every fetched port to be named whenever a non-empty `name_regex` reaches the filter loop, for the same reason.
