/** Service entities: `ServiceItem` (one row of a station board) and
    `ServiceDetails` (the full record of one service at one location).

    Both extend the shared base field table. A service item also holds its
    origin and destination locations; service details hold the previous and
    subsequent calling points, flattened across every calling-point list. */
module Services {
  import opened Results
  import opened Wire
  import opened Fields
  import opened Locations
  import Seqs

  datatype ServiceItem = ServiceItem(
    attrs: Attributes,
    origins: seq<ServiceLocation>,
    destinations: seq<ServiceLocation>)

  datatype ServiceDetails = ServiceDetails(
    attrs: Attributes,
    previousCallingPoints: seq<CallingPoint>,
    subsequentCallingPoints: seq<CallingPoint>)

  /** The fields both service types share (`ServiceDetailsBase.field_mapping`). */
  const ServiceDetailsBaseFields: FieldTable := [
    ("sta", "sta"),
    ("eta", "eta"),
    ("std", "std"),
    ("etd", "etd"),
    ("platform", "platform"),
    ("operator_name", "operator"),
    ("operator_code", "operatorCode")
  ]

  const ServiceItemExtraFields: FieldTable := [
    ("is_circular_route", "isCircularRoute"),
    ("service_id", "serviceID")
  ]

  const ServiceItemFields: FieldTable := ServiceDetailsBaseFields + ServiceItemExtraFields

  const ServiceDetailsExtraFields: FieldTable := [
    ("is_cancelled", "isCancelled"),
    ("disruption_reason", "disruptionReason"),
    ("overdue_message", "overdueMessage"),
    ("ata", "ata"),
    ("atd", "atd")
  ]

  const ServiceDetailsFields: FieldTable := ServiceDetailsBaseFields + ServiceDetailsExtraFields

  /** `[ServiceLocation(l) for l in v]`. */
  function LocationsIn(v: Value): (r: Result<seq<ServiceLocation>, MappingError>)
    ensures r.Success? <==> Iterate(v).Success?
    ensures r.Success? ==> |r.value| == |Iterate(v).value|
    ensures r.Success? ==> forall i :: 0 <= i < |r.value| ==> r.value[i] == ServiceLocationFrom(Iterate(v).value[i])
  {
    var ls :- Iterate(v);
    Success(Seqs.Map(ServiceLocationFrom, ls))
  }

  /** `ServiceItem(v)`. The base and item fields are mapped; then the origin
      node is read without a guard (a missing `origin` raises), and both the
      origin and the destination lists are built only when the ORIGIN node
      has a `location` field. In that case the destination's `location` is
      read without a guard as well. */
  function ServiceItemFrom(v: Value): (r: Result<ServiceItem, MappingError>)
    ensures !HasAttr(v, "origin") ==> r == Failure(MissingAttribute("origin"))
    ensures r.Success? ==> r.value.attrs.Keys == InternalNames(ServiceItemFields)
    ensures r.Success? ==> MappedFrom(r.value.attrs, ServiceItemFields, v)
    ensures HasAttr(v, "origin") && GetPath(v, "origin", "location").None? ==>
      r.Success? && r.value.origins == [] && r.value.destinations == []
    ensures GetPath(v, "origin", "location").Some? ==>
      (r.Success? <==>
        && LocationsIn(GetPath(v, "origin", "location").value).Success?
        && GetPath(v, "destination", "location").Some?
        && LocationsIn(GetPath(v, "destination", "location").value).Success?)
    ensures GetPath(v, "origin", "location").Some? && r.Success? ==>
      && LocationsIn(GetPath(v, "origin", "location").value) == Success(r.value.origins)
      && LocationsIn(GetPath(v, "destination", "location").value) == Success(r.value.destinations)
    ensures GetPath(v, "origin", "location").Some? && LocationsIn(GetPath(v, "origin", "location").value).Success?
      ==> (!HasAttr(v, "destination") ==> r == Failure(MissingAttribute("destination")))
  {
    assert DistinctNames(ServiceItemFields);
    var attrs := MapFields(ServiceItemFields, v);
    var origin :- Require(v, "origin");
    if HasAttr(origin, "location") then
      var origins :- LocationsIn(origin.fields["location"]);
      var destination :- Require(v, "destination");
      var destinationLocations :- Require(destination, "location");
      var destinations :- LocationsIn(destinationLocations);
      Success(ServiceItem(attrs, origins, destinations))
    else
      Success(ServiceItem(attrs, [], []))
  }

  /** `ServiceItem._location_formatter`: the string forms of the locations
      joined with ", "; raises if any location has no string form. */
  function FormatLocations(ls: seq<ServiceLocation>): (r: Result<string, MappingError>)
    ensures r.Success? <==> forall i :: 0 <= i < |ls| ==> LocationString(ls[i]).Success?
    ensures |ls| == 0 ==> r == Success("")
    ensures |ls| == 1 ==> r == LocationString(ls[0])
  {
    var texts :- Seqs.MapAll(LocationString, ls);
    Success(Seqs.Join(", ", texts))
  }

  /** The text of a concatenation of location lists is the two texts joined
      by one ", ": each location contributes its own string, in order. */
  lemma FormatLocationsAppend(a: seq<ServiceLocation>, b: seq<ServiceLocation>)
    requires |a| > 0 && |b| > 0
    requires FormatLocations(a).Success? && FormatLocations(b).Success?
    ensures FormatLocations(a + b) == Success(FormatLocations(a).value + ", " + FormatLocations(b).value)
  {
    var ta := Seqs.MapAll(LocationString, a).value;
    var tb := Seqs.MapAll(LocationString, b).value;
    assert forall i :: 0 <= i < |a + b| ==> LocationString((a + b)[i]).Success? by {
      forall i | 0 <= i < |a + b| ensures LocationString((a + b)[i]).Success? {
        if i < |a| { assert (a + b)[i] == a[i]; } else { assert (a + b)[i] == b[i - |a|]; }
      }
    }
    var tab := Seqs.MapAll(LocationString, a + b).value;
    assert tab == ta + tb by {
      forall i | 0 <= i < |a + b| ensures tab[i] == (ta + tb)[i] {
        if i < |a| { assert (a + b)[i] == a[i]; } else { assert (a + b)[i] == b[i - |a|]; }
      }
    }
    Seqs.JoinAppend(", ", ta, tb);
  }

  /** `ServiceItem.origin_text`. */
  function OriginText(s: ServiceItem): (r: Result<string, MappingError>)
    ensures r.Success? <==> forall i :: 0 <= i < |s.origins| ==> LocationString(s.origins[i]).Success?
    ensures s.origins == [] ==> r == Success("")
    ensures |s.origins| == 1 ==> r == LocationString(s.origins[0])
  {
    FormatLocations(s.origins)
  }

  /** `ServiceItem.destination_text`. */
  function DestinationText(s: ServiceItem): (r: Result<string, MappingError>)
    ensures r.Success? <==> forall i :: 0 <= i < |s.destinations| ==> LocationString(s.destinations[i]).Success?
    ensures s.destinations == [] ==> r == Success("")
    ensures |s.destinations| == 1 ==> r == LocationString(s.destinations[0])
  {
    FormatLocations(s.destinations)
  }

  /** `sublist.callingPoint`, iterated: read without a guard, so a sub-list
      without calling points raises. */
  function SublistPoints(sublist: Value): (r: Result<seq<Value>, MappingError>)
    ensures !HasAttr(sublist, "callingPoint") ==> r == Failure(MissingAttribute("callingPoint"))
    ensures HasAttr(sublist, "callingPoint") ==> r == Iterate(sublist.fields["callingPoint"])
  {
    var points :- Require(sublist, "callingPoint");
    Iterate(points)
  }

  /** `ServiceDetails._calling_point_list(v, key)`: every calling point of
      every list under `key.callingPointList`, in encounter order; empty when
      either level is absent. */
  function CallingPointsAt(v: Value, key: string): (r: Result<seq<CallingPoint>, MappingError>)
    ensures GetPath(v, key, "callingPointList").None? ==> r == Success([])
    ensures GetPath(v, key, "callingPointList").Some? ==>
      var lists := GetPath(v, key, "callingPointList").value;
      (r.Success? <==>
        Iterate(lists).Success? &&
        forall i :: 0 <= i < |Iterate(lists).value| ==> SublistPoints(Iterate(lists).value[i]).Success?)
  {
    match GetPath(v, key, "callingPointList")
    case None => Success([])
    case Some(lists) =>
      var sublists :- Iterate(lists);
      var groups :- Seqs.MapAll(SublistPoints, sublists);
      Success(Seqs.Map(CallingPointFrom, Seqs.Flatten(groups)))
  }

  /** `ServiceDetails(v)`: the base and details fields are mapped, then the
      previous and then the subsequent calling points are collected; the
      first collection that raises aborts the construction. */
  function ServiceDetailsFrom(v: Value): (r: Result<ServiceDetails, MappingError>)
    ensures r.Success? <==>
      CallingPointsAt(v, "previousCallingPoints").Success? && CallingPointsAt(v, "subsequentCallingPoints").Success?
    ensures CallingPointsAt(v, "previousCallingPoints").Failure? ==>
      r == Failure(CallingPointsAt(v, "previousCallingPoints").error)
    ensures (CallingPointsAt(v, "previousCallingPoints").Success?
             && CallingPointsAt(v, "subsequentCallingPoints").Failure?) ==>
      r == Failure(CallingPointsAt(v, "subsequentCallingPoints").error)
    ensures r.Success? ==> r.value.attrs.Keys == InternalNames(ServiceDetailsFields)
    ensures r.Success? ==> MappedFrom(r.value.attrs, ServiceDetailsFields, v)
    ensures r.Success? ==>
      && CallingPointsAt(v, "previousCallingPoints") == Success(r.value.previousCallingPoints)
      && CallingPointsAt(v, "subsequentCallingPoints") == Success(r.value.subsequentCallingPoints)
  {
    assert DistinctNames(ServiceDetailsFields);
    var attrs := MapFields(ServiceDetailsFields, v);
    var previous :- CallingPointsAt(v, "previousCallingPoints");
    var subsequent :- CallingPointsAt(v, "subsequentCallingPoints");
    Success(ServiceDetails(attrs, previous, subsequent))
  }

  /** Flattening keeps every calling point and their order: with `groups[k]`
      the wire points of sub-list `k`, the result has one calling point per
      wire point (the sum of the sub-list lengths), and point `i` of sub-list
      `k` sits after all points of the earlier sub-lists. */
  lemma CallingPointsFlatten(v: Value, key: string, sublists: seq<Value>, groups: seq<seq<Value>>)
    requires GetPath(v, key, "callingPointList").Some?
    requires Iterate(GetPath(v, key, "callingPointList").value) == Success(sublists)
    requires |groups| == |sublists|
    requires forall k :: 0 <= k < |sublists| ==> SublistPoints(sublists[k]) == Success(groups[k])
    ensures CallingPointsAt(v, key).Success?
    ensures |CallingPointsAt(v, key).value| == Seqs.TotalLength(groups)
    ensures forall k: int :: 0 <= k < |groups| ==>
      Seqs.Offset(groups, k) + |groups[k]| <= |CallingPointsAt(v, key).value|
    ensures forall k: int, i: int :: 0 <= k < |groups| && 0 <= i < |groups[k]| ==>
      CallingPointsAt(v, key).value[Seqs.Offset(groups, k) + i] == CallingPointFrom(groups[k][i])
  {
    var all := Seqs.MapAll(SublistPoints, sublists);
    assert all.Success?;
    assert all.value == groups;
    var points := Seqs.Map(CallingPointFrom, Seqs.Flatten(groups));
    assert CallingPointsAt(v, key) == Success(points);
    Seqs.FlattenPositions(groups);
  }

  /** A service row and the service details built from the same response
      read every shared base field (times, platform, operator) identically:
      both tables extend the base table, so entry `k` is the same pair. */
  lemma SharedFieldsAgree(v: Value, k: nat)
    requires ServiceItemFrom(v).Success? && ServiceDetailsFrom(v).Success?
    requires k < |ServiceDetailsBaseFields|
    ensures var name := ServiceDetailsBaseFields[k].0;
      Attr(ServiceItemFrom(v).value.attrs, name) == Attr(ServiceDetailsFrom(v).value.attrs, name)
  {
    var item := ServiceItemFrom(v).value.attrs;
    var details := ServiceDetailsFrom(v).value.attrs;
    ExtendedEntry(item, ServiceDetailsBaseFields, ServiceItemExtraFields, v, k);
    ExtendedEntry(details, ServiceDetailsBaseFields, ServiceDetailsExtraFields, v, k);
  }
}
