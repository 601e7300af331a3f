# nre-darwin-py response mapping, in Dafny

This project models the response-mapping core of `nredarwin/webservice.py`, a
client for the National Rail Darwin "Live Departure Boards" SOAP service. It
has two parts:

- **The mapping layer.** The decoded SOAP reply is turned into entity objects:
  - `StationBoard`, with its train, bus and ferry service lists and its NRCC
    disruption messages;
  - `ServiceItem`, one board row, with its origins and destinations;
  - `ServiceLocation`, with its display string;
  - `ServiceDetails`, with its previous and subsequent calling points;
  - `CallingPoint`.
- **The query logic of `DarwinLdbSession`.** It picks the remote operation
  from the include flags, chooses the filter arguments, and translates a
  service fault into `WebServiceError`.

The decoded reply is a schema-less tree (`Wire.Value`): text, booleans, nodes
with named fields, and lists. Python attribute access on it is modelled
exactly:
- a guarded `getattr` of a missing field reads as absent (`None`);
- an unguarded access of a missing field raises `AttributeError`.

The entity constructors are pure functions. `ServiceLocation` and
`CallingPoint` only map fields and cannot fail, so theirs return the entity
itself. The others return `Result<Entity, MappingError>`, and each exception
the Python code lets escape is a `Failure`:
- `MissingAttribute`: an unguarded access of a missing field;
- `NotIterable`: iterating a boolean or a single node;
- `NonStringText`: `str()` of a location whose name is not a string;
- `UnrenderedValue`: `%s` of a list or node.

The field mapper itself never fails. The SOAP transport is a function
parameter `call: Request -> Reply`. A reply is a decoded tree, a `WebFault`,
or any other transport error, which the session does not catch.

Modules:
- `Results`: `Option` and `Result`.
- `Seqs`: map, fallible map, flatten and join on sequences, with their lemmas.
- `Wire`: the reply tree and Python's attribute, iteration, truthiness and `%s` semantics.
- `Fields`: the table-driven field mapper.
- `Locations`, `Services`, `Boards`: the entities.
- `Session`: the query logic.
- `Examples`: concrete replies and what the model makes of them. The
  Manchester board and row are rebuilt from the unit tests' assertions,
  because the recorded XML replies are not part of this model. The other
  trees are small hand-built replies, each showing one behaviour.

Two behaviours of the code a reader may not expect:

- **The source gates both location lists on the origin.** `ServiceItem`
  builds both its origin list and its destination list only when the *origin*
  node has a `location` field (webservice.py line 276 tests
  `soap_data.origin`).
  - So a row whose origin has no locations gets no destinations either.
  - When the origin has locations, a missing destination raises.
  - `Services.ServiceItemFrom` states this, and
    `Examples.DestinationsFollowOriginPresence` exhibits it.
- **A calling-point sub-list without `callingPoint` raises.** The read
  happens outside the `try`; it does not yield an empty list.

The repository's tests use entities that `webservice.py` does not define:
`CallingPointList`, the departure-board classes, and `location_name`/`crs` on
service details. These are not modelled.

## Model

| member | source | states |
|---|---|---|
| `Fields.MapFields` | nredarwin/webservice.py:76-82 | The key set is exactly the table's internal names. For a table with distinct internal names, each attribute holds the wire value of its paired wire field, or None when that field is absent. Mapping never fails. |
| `Fields.ExtendedEntry` | nredarwin/webservice.py:266-269 | A table extended by concatenation reads every parent entry from the same wire field as the parent table does. |
| `Wire.Display` | nredarwin/webservice.py:368 | `"%s"` of an absent attribute is "None" and of a string is the string itself. It fails exactly for lists and nodes. |
| `Locations.ServiceLocationFrom` | nredarwin/webservice.py:331-336 | A location maps exactly location_name, crs, via and future_change_to from their wire fields, and never fails. |
| `Locations.CallingPointFrom` | nredarwin/webservice.py:454-459 | A calling point maps exactly location_name, crs, et and at from their wire fields, and never fails. |
| `Locations.LocationString` | nredarwin/webservice.py:366-370 | A truthy via gives "name via", where an absent name reads "None". A falsy or absent via gives exactly the name, and fails when the name is not a string. |
| `Locations.LocationStringFromWire` | nredarwin/webservice.py:366-370 | For a location read from a reply with a string `locationName`, a non-empty string `via` gives name, one space, via. An absent or empty `via` gives exactly the name. |
| `Services.LocationsIn` | nredarwin/webservice.py:275 | One location per iterated element, in order. It fails exactly when the value is not iterable. |
| `Services.ServiceItemFrom` | nredarwin/webservice.py:271-276 | The nine row fields are mapped. A missing origin raises. With no origin locations, both lists are empty. Otherwise both lists come from the iterated origin and destination locations, and a missing destination raises. |
| `Services.FormatLocations` | nredarwin/webservice.py:320-321 | Succeeds iff every location has a string form. An empty list gives "". A single location gives its own string. |
| `Services.FormatLocationsAppend` | nredarwin/webservice.py:320-321 | The text of two concatenated non-empty lists is the two texts joined by exactly one ", ". |
| `Services.OriginText` | nredarwin/webservice.py:313-318 | The origins' text succeeds iff each origin has a string form. It is "" with no origins, and the single origin's string with one. |
| `Services.DestinationText` | nredarwin/webservice.py:306-311 | Same as `OriginText`, for the destinations. |
| `Services.SublistPoints` | nredarwin/webservice.py:399 | A sub-list without `callingPoint` raises the missing-attribute error. Otherwise its points are the iterated `callingPoint` value. |
| `Services.CallingPointsAt` | nredarwin/webservice.py:391-401 | The list is empty when either the key or its `callingPointList` is absent. Otherwise it succeeds iff the lists iterate and every sub-list has iterable calling points. |
| `Services.CallingPointsFlatten` | nredarwin/webservice.py:397-401 | The flattened list has the sum of the sub-list lengths. Point i of sub-list k is `CallingPoint` of wire point i of sub-list k, placed after all points of earlier sub-lists. |
| `Services.ServiceDetailsFrom` | nredarwin/webservice.py:385-389 | The twelve detail fields are mapped. Succeeds iff both calling-point collections do. The first failure is reported, previous before subsequent. On success, both lists are exactly the collected ones. |
| `Services.SharedFieldsAgree` | nredarwin/webservice.py:377-383 | A row and a details record built from the same reply read every shared base field identically. |
| `Boards.ServiceRows` | nredarwin/webservice.py:106-113 | The list is empty when the mode or its `service` field is absent. Otherwise it has one row per iterated element, in order, and aborts with an iteration failure or with the first failing row. |
| `Boards.NrccMessages` | nredarwin/webservice.py:115-119 | The messages are `nrccMessages.message`, passed through unmodified, or the empty list when either level is absent. |
| `Boards.StationBoardFrom` | nredarwin/webservice.py:103-119 | The board fields are mapped. Succeeds iff all three service lists do; the first failure is reported, in train, bus, ferry order. The lists and messages are those described above. |
| `Session.SelectOperation` | nredarwin/webservice.py:41-48 | The chosen operation lists departures iff requested and arrivals iff requested. Neither flag gives the ValueError with its exact message. |
| `Session.FilterArgs` | nredarwin/webservice.py:51-56 | There are no filter keywords when no filter is given. Otherwise there are exactly filterCrs and filterType, with "to" iff a destination is given, and the destination's code taking precedence. |
| `Session.PlanStationBoard` | nredarwin/webservice.py:50-56 | The request carries the selected operation, `crs`, `numRows=rows` and exactly the filter keywords. It is an invalid argument iff neither flag is set. |
| `Session.Answer` | nredarwin/webservice.py:57-60 | A WebFault becomes WebServiceError, and any other transport error passes through. A response succeeds iff wrapping it does, and then yields exactly the wrapped entity. |
| `Session.GetStationBoard` | nredarwin/webservice.py:34-61 | Neither flag gives the ValueError. Otherwise the reply to the planned request decides the result: a fault is WebServiceError, another transport error passes through, and a response gives exactly `StationBoard(response)` or its mapping error. |
| `Session.GetServiceDetailsFor` | nredarwin/webservice.py:64-72 | A fault on the `GetServiceDetails(serviceID)` call is WebServiceError, and another transport error passes through. A response gives exactly `ServiceDetails(response)` or its mapping error. |
| `Session.NoCallWithoutBoardKind` | nredarwin/webservice.py:41-48 | With neither flag set, the result does not depend on the transport: the error is raised before any call. |
| `Session.OneRequestPerBoard` | nredarwin/webservice.py:50-61 | Two transports that agree on the planned request give the same board: the board depends on the transport only through its reply to the planned request. |
| `Session.DestinationFilterWins` | nredarwin/webservice.py:51-54 | With a destination filter given, the origin filter does not affect the request. |
| `Examples.BothFiltersSendDestination` | nredarwin/webservice.py:51-54 | The departure query with both filters sends only `filterCrs` of the destination with `filterType` "to". |
| `Examples.ManchesterRowFields` | test_nredarwin.py:35-48 | The test row maps platform, operator name, operator code, the absent sta/eta as None, std, etd, the circular-route flag and the service id. |
| `Examples.ManchesterRowTexts` | test_nredarwin.py:45-46 | The test row's destination text is "Middlesbrough" and its origin text is "Manchester Airport". |
| `Examples.ManchesterDestination` | test_nredarwin.py:58-63 | The test row has exactly one destination. Its location name is "Middlesbrough", its crs is "MBR", and its via is absent. |
| `Examples.ManchesterBoardMaps` | test_nredarwin.py:31-66 | The test board has crs "MAN", its station name, the one train row, empty bus and ferry lists, and the message passed through. |
| `Examples.DestinationsFollowOriginPresence` | nredarwin/webservice.py:275-276 | A row whose origin has no locations has no destinations, even though its destination lists one. |
| `Examples.MissingOriginAbortsBoard` | nredarwin/webservice.py:275 | A board whose bus row lacks `origin` fails as a whole with the missing-attribute error. |
| `Examples.SplitServiceFlattens` | nredarwin/webservice.py:397-401 | A service that divides, with lists of two points and one point, has the three subsequent calling points in order and no previous ones. |

## Left out

- The SOAP client is not modelled: its construction, the timeout, the access-token header, and the WSDL and API-key environment fallback (nredarwin/webservice.py:17-29). The transport is the `call` parameter instead.
- The `log.warn` when both filters are given (nredarwin/webservice.py:53) is not modelled. It is logging only; the filter choice is modelled.
- The `NotImplementedError` placeholder properties (nredarwin/webservice.py:186-200) are not modelled, because they carry no behaviour.
- The read-only property getters and the `__str__` methods of `StationBoard` and `ServiceItem` are not modelled. They are plain field reads.
- Iterating a single node is modelled as `NotIterable`. suds iterates the node's (name, value) pairs, and their meaning is not modelled.
- Wire.Display: `%s` of a list or a nested node never fails in Python, but the model reports it as `UnrenderedValue`, because the repr text is not modelled.
- Numbers and dates are modelled as text. suds decodes Darwin times and codes as strings; any other leaf type is outside the model.
- `Fields.MapFields`: it states the field-by-field property only for tables whose internal names are distinct. That is true of every table in the source. For a repeated name, the later entry would win.
- `Session.GetStationBoard`: `rows` and the CRS codes are passed through without validation, as in the source. Their Python types are not checked.
- `nredarwin/cli.py` and `example.py` (argument parsing, console input, table and CSV output) are not part of this model.
- `tests/soap.py` and `setup.py` (the fixture loader and packaging) are not part of this model.
- The classes and fields that only the tests use (`DepartureBoard`, `DepartureBoardWithDetails`, `CallingPointList`, `st`, `length`, and `location_name`/`crs` on service details) are not part of this model. The source file does not define them.
