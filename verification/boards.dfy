/** The station board (`StationBoard`): the station's identity, one list of
    service rows per transport mode, and the NRCC disruption messages. */
module Boards {
  import opened Results
  import opened Wire
  import opened Fields
  import opened Services
  import Seqs

  datatype StationBoard = StationBoard(
    attrs: Attributes,
    trainServices: seq<ServiceItem>,
    busServices: seq<ServiceItem>,
    ferryServices: seq<ServiceItem>,
    nrccMessages: Value)

  const StationBoardFields: FieldTable := [
    ("generated_at", "generatedAt"),
    ("crs", "crs"),
    ("location_name", "locationName")
  ]

  /** The wire names of the three service lists, in the order they are read. */
  const TrainServices := "trainServices"
  const BusServices := "busServices"
  const FerryServices := "ferryServices"

  /** One service list: `[ServiceItem(s) for s in v.<key>.service]`, or the
      empty list when `key` or its `service` field is absent. Iterating the
      rows, or building a row, may raise; that aborts the list. */
  function ServiceRows(v: Value, key: string): (r: Result<seq<ServiceItem>, MappingError>)
    ensures GetPath(v, key, "service").None? ==> r == Success([])
    ensures GetPath(v, key, "service").Some? && Iterate(GetPath(v, key, "service").value).Failure? ==>
      r == Failure(Iterate(GetPath(v, key, "service").value).error)
    ensures GetPath(v, key, "service").Some? && Iterate(GetPath(v, key, "service").value).Success? ==>
      var rows := Iterate(GetPath(v, key, "service").value).value;
      && (r.Success? <==> forall i :: 0 <= i < |rows| ==> ServiceItemFrom(rows[i]).Success?)
      && (r.Success? ==> |r.value| == |rows|)
      && (r.Success? ==> forall i :: 0 <= i < |rows| ==> ServiceItemFrom(rows[i]) == Success(r.value[i]))
      && (r.Failure? ==> exists k :: 0 <= k < |rows| && ServiceItemFrom(rows[k]) == Failure(r.error)
                                    && forall j :: 0 <= j < k ==> ServiceItemFrom(rows[j]).Success?)
  {
    match GetPath(v, key, "service")
    case None => Success([])
    case Some(rows) =>
      var items :- Iterate(rows);
      Seqs.MapAll(ServiceItemFrom, items)
  }

  /** `nrccMessages.message`, passed through unmodified, or the empty list
      when either level is absent. */
  function NrccMessages(v: Value): (r: Value)
    ensures GetPath(v, "nrccMessages", "message").Some? ==> r == v.fields["nrccMessages"].fields["message"]
    ensures GetPath(v, "nrccMessages", "message").None? ==> r == Items([])
  {
    if HasAttr(v, "nrccMessages") && HasAttr(v.fields["nrccMessages"], "message") then
      v.fields["nrccMessages"].fields["message"]
    else
      Items([])
  }

  /** `StationBoard(v)`: maps the board fields, then reads the train, bus and
      ferry lists in that order (the first that raises aborts), then the
      messages. */
  function StationBoardFrom(v: Value): (r: Result<StationBoard, MappingError>)
    ensures r.Success? <==>
      && ServiceRows(v, TrainServices).Success?
      && ServiceRows(v, BusServices).Success?
      && ServiceRows(v, FerryServices).Success?
    ensures ServiceRows(v, TrainServices).Failure? ==> r == Failure(ServiceRows(v, TrainServices).error)
    ensures ServiceRows(v, TrainServices).Success? && ServiceRows(v, BusServices).Failure? ==>
      r == Failure(ServiceRows(v, BusServices).error)
    ensures (ServiceRows(v, TrainServices).Success? && ServiceRows(v, BusServices).Success?
             && ServiceRows(v, FerryServices).Failure?) ==>
      r == Failure(ServiceRows(v, FerryServices).error)
    ensures r.Success? ==> r.value.attrs.Keys == InternalNames(StationBoardFields)
    ensures r.Success? ==> MappedFrom(r.value.attrs, StationBoardFields, v)
    ensures r.Success? ==>
      && Success(r.value.trainServices) == ServiceRows(v, TrainServices)
      && Success(r.value.busServices) == ServiceRows(v, BusServices)
      && Success(r.value.ferryServices) == ServiceRows(v, FerryServices)
    ensures r.Success? ==> r.value.nrccMessages == NrccMessages(v)
  {
    assert DistinctNames(StationBoardFields);
    var attrs := MapFields(StationBoardFields, v);
    var train :- ServiceRows(v, TrainServices);
    var bus :- ServiceRows(v, BusServices);
    var ferry :- ServiceRows(v, FerryServices);
    Success(StationBoard(attrs, train, bus, ferry, NrccMessages(v)))
  }
}
