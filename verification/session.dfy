/** The query orchestrator (`DarwinLdbSession`): turns a caller's board or
    service query into one remote request, translates a service fault into
    `WebServiceError`, and wraps a successful reply as an entity.

    The SOAP transport is a parameter `call` from request to reply; building
    the client, the access-token header and the timeout are outside the
    model. */
module Session {
  import opened Results
  import opened Wire
  import opened Services
  import opened Boards

  /** The remote operations of the LDB service that the session invokes. */
  datatype Operation =
    | GetArrivalDepartureBoard
    | GetDepartureBoard
    | GetArrivalBoard
    | GetServiceDetails

  /** Whether a board operation lists departures, and whether it lists arrivals. */
  predicate ListsDepartures(op: Operation)
  {
    op == GetArrivalDepartureBoard || op == GetDepartureBoard
  }

  predicate ListsArrivals(op: Operation)
  {
    op == GetArrivalDepartureBoard || op == GetArrivalBoard
  }

  /** A keyword argument of a remote call. */
  datatype Arg = TextArg(text: string) | IntArg(number: int)

  datatype Request = Request(operation: Operation, args: map<string, Arg>)

  /** What the transport returns: the decoded response, a service fault
      (suds `WebFault`), or any other transport failure (timeout, refused
      connection), which the session does not catch. */
  datatype Reply = Response(tree: Value) | WebFault | TransportError(reason: string)

  datatype QueryError =
    | InvalidArgument(message: string)    // ValueError, raised before any request
    | WebServiceError                     // the translated service fault
    | MappingFailed(cause: MappingError)  // raised while wrapping the reply
    | TransportFailed(reason: string)     // passed through untranslated

  const NoBoardMessage := "get_station_board must have either include_departures or include_arrivals set to True"

  /** The board operation for the two include flags; neither flag is an
      invalid argument. */
  function SelectOperation(includeDepartures: bool, includeArrivals: bool): (r: Result<Operation, QueryError>)
    ensures r.Failure? <==> !includeDepartures && !includeArrivals
    ensures r.Failure? ==> r.error == InvalidArgument(NoBoardMessage)
    ensures r.Success? ==>
      && ListsDepartures(r.value) == includeDepartures
      && ListsArrivals(r.value) == includeArrivals
      && r.value != GetServiceDetails
  {
    if includeDepartures && includeArrivals then Success(GetArrivalDepartureBoard)
    else if includeDepartures then Success(GetDepartureBoard)
    else if includeArrivals then Success(GetArrivalBoard)
    else Failure(InvalidArgument(NoBoardMessage))
  }

  /** Python truthiness of an optional CRS filter: None and "" are not given. */
  predicate Given(filter: Option<string>)
  {
    filter.Some? && filter.value != ""
  }

  /** The filter keywords: the destination filter wins over the origin filter,
      and at most one filter is sent. */
  function FilterArgs(destinationCrs: Option<string>, originCrs: Option<string>): (r: map<string, Arg>)
    ensures r.Keys == (if Given(destinationCrs) || Given(originCrs) then {"filterCrs", "filterType"} else {})
    ensures "filterType" in r ==> (r["filterType"] == TextArg("to") <==> Given(destinationCrs))
    ensures "filterType" in r ==> (r["filterType"] == TextArg("from") <==> !Given(destinationCrs))
    ensures "filterCrs" in r ==>
      r["filterCrs"] == TextArg(if Given(destinationCrs) then destinationCrs.value else originCrs.value)
  {
    if Given(destinationCrs) then
      map["filterCrs" := TextArg(destinationCrs.value), "filterType" := TextArg("to")]
    else if Given(originCrs) then
      map["filterCrs" := TextArg(originCrs.value), "filterType" := TextArg("from")]
    else
      map[]
  }

  /** The request `get_station_board` sends: the selected operation with
      `crs`, `numRows` and the filter keywords. */
  function PlanStationBoard(crs: string, rows: int, includeDepartures: bool, includeArrivals: bool,
                            destinationCrs: Option<string>, originCrs: Option<string>): (r: Result<Request, QueryError>)
    ensures r.Failure? <==> !includeDepartures && !includeArrivals
    ensures r.Failure? ==> r.error == InvalidArgument(NoBoardMessage)
    ensures r.Success? ==>
      && ListsDepartures(r.value.operation) == includeDepartures
      && ListsArrivals(r.value.operation) == includeArrivals
    ensures r.Success? ==> r.value.args.Keys == {"crs", "numRows"} + FilterArgs(destinationCrs, originCrs).Keys
    ensures r.Success? ==> r.value.args["crs"] == TextArg(crs) && r.value.args["numRows"] == IntArg(rows)
    ensures r.Success? ==>
      forall k :: k in FilterArgs(destinationCrs, originCrs) ==> r.value.args[k] == FilterArgs(destinationCrs, originCrs)[k]
  {
    var op :- SelectOperation(includeDepartures, includeArrivals);
    Success(Request(op, map["crs" := TextArg(crs), "numRows" := IntArg(rows)] + FilterArgs(destinationCrs, originCrs)))
  }

  /** The `try: ... except WebFault: raise WebServiceError` around a remote
      call, followed by wrapping the reply with `build`. */
  function Answer<T>(reply: Reply, build: Value -> Result<T, MappingError>): (r: Result<T, QueryError>)
    ensures reply.WebFault? ==> r == Failure(WebServiceError)
    ensures reply.TransportError? ==> r == Failure(TransportFailed(reply.reason))
    ensures reply.Response? ==> (r.Success? <==> build(reply.tree).Success?)
    ensures reply.Response? && r.Success? ==> build(reply.tree) == Success(r.value)
    ensures reply.Response? && r.Failure? ==> r.error == MappingFailed(build(reply.tree).error)
  {
    match reply
    case WebFault => Failure(WebServiceError)
    case TransportError(reason) => Failure(TransportFailed(reason))
    case Response(tree) =>
      match build(tree)
      case Success(entity) => Success(entity)
      case Failure(e) => Failure(MappingFailed(e))
  }

  /** `get_station_board`: plans the request (raising before any call when
      neither flag is set), makes exactly that call and wraps its reply. */
  function GetStationBoard(call: Request -> Reply, crs: string, rows: int := 10,
                           includeDepartures: bool := true, includeArrivals: bool := false,
                           destinationCrs: Option<string> := None, originCrs: Option<string> := None)
    : (r: Result<StationBoard, QueryError>)
    ensures !includeDepartures && !includeArrivals ==> r == Failure(InvalidArgument(NoBoardMessage))
    ensures includeDepartures || includeArrivals ==>
      var reply := call(PlanStationBoard(crs, rows, includeDepartures, includeArrivals, destinationCrs, originCrs).value);
      && (reply.WebFault? ==> r == Failure(WebServiceError))
      && (reply.Response? ==> (r.Success? <==> StationBoardFrom(reply.tree).Success?))
      && (reply.Response? && r.Success? ==> StationBoardFrom(reply.tree) == Success(r.value))
      && (reply.Response? && r.Failure? ==> r.error == MappingFailed(StationBoardFrom(reply.tree).error))
      && (reply.TransportError? ==> r == Failure(TransportFailed(reply.reason)))
  {
    var request :- PlanStationBoard(crs, rows, includeDepartures, includeArrivals, destinationCrs, originCrs);
    Answer(call(request), StationBoardFrom)
  }

  /** The request `get_service_details` sends. */
  function ServiceDetailsRequest(serviceId: string): Request
  {
    Request(GetServiceDetails, map["serviceID" := TextArg(serviceId)])
  }

  /** `get_service_details`: one `GetServiceDetails` call with `serviceID`,
      its fault translated, its reply wrapped as service details. */
  function GetServiceDetailsFor(call: Request -> Reply, serviceId: string): (r: Result<ServiceDetails, QueryError>)
    ensures call(ServiceDetailsRequest(serviceId)).WebFault? ==> r == Failure(WebServiceError)
    ensures call(ServiceDetailsRequest(serviceId)).Response? ==>
      (r.Success? <==> ServiceDetailsFrom(call(ServiceDetailsRequest(serviceId)).tree).Success?)
    ensures call(ServiceDetailsRequest(serviceId)).Response? && r.Success? ==>
      ServiceDetailsFrom(call(ServiceDetailsRequest(serviceId)).tree) == Success(r.value)
    ensures call(ServiceDetailsRequest(serviceId)).Response? && r.Failure? ==>
      r.error == MappingFailed(ServiceDetailsFrom(call(ServiceDetailsRequest(serviceId)).tree).error)
    ensures call(ServiceDetailsRequest(serviceId)).TransportError? ==>
      r == Failure(TransportFailed(call(ServiceDetailsRequest(serviceId)).reason))
  {
    Answer(call(ServiceDetailsRequest(serviceId)), ServiceDetailsFrom)
  }

  /** With neither flag set the transport is never consulted: any two
      transports give the same InvalidArgument error. */
  lemma NoCallWithoutBoardKind(call1: Request -> Reply, call2: Request -> Reply, crs: string, rows: int,
                               destinationCrs: Option<string>, originCrs: Option<string>)
    ensures GetStationBoard(call1, crs, rows, false, false, destinationCrs, originCrs)
         == GetStationBoard(call2, crs, rows, false, false, destinationCrs, originCrs)
         == Failure(InvalidArgument(NoBoardMessage))
  {
  }

  /** The board depends on the transport only through its reply to the one
      planned request: exactly one remote call is made. */
  lemma OneRequestPerBoard(call1: Request -> Reply, call2: Request -> Reply, crs: string, rows: int,
                           includeDepartures: bool, includeArrivals: bool,
                           destinationCrs: Option<string>, originCrs: Option<string>)
    requires includeDepartures || includeArrivals
    requires var request := PlanStationBoard(crs, rows, includeDepartures, includeArrivals, destinationCrs, originCrs).value;
      call1(request) == call2(request)
    ensures GetStationBoard(call1, crs, rows, includeDepartures, includeArrivals, destinationCrs, originCrs)
         == GetStationBoard(call2, crs, rows, includeDepartures, includeArrivals, destinationCrs, originCrs)
  {
  }

  /** A given destination filter makes the origin filter irrelevant. */
  lemma DestinationFilterWins(crs: string, rows: int, includeDepartures: bool, includeArrivals: bool,
                              destination: string, origin1: Option<string>, origin2: Option<string>)
    requires destination != ""
    ensures PlanStationBoard(crs, rows, includeDepartures, includeArrivals, Some(destination), origin1)
         == PlanStationBoard(crs, rows, includeDepartures, includeArrivals, Some(destination), origin2)
  {
  }
}
