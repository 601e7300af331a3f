/** Location entities: `ServiceLocation` (an origin or destination of a
    service) and `CallingPoint` (one stop on a route). Both are plain
    field-mapper consumers; a service location also has a display string. */
module Locations {
  import opened Results
  import opened Wire
  import opened Fields

  datatype ServiceLocation = ServiceLocation(attrs: Attributes)

  datatype CallingPoint = CallingPoint(attrs: Attributes)

  const ServiceLocationFields: FieldTable := [
    ("location_name", "locationName"),
    ("crs", "crs"),
    ("via", "via"),
    ("future_change_to", "futureChangeTo")
  ]

  const CallingPointFields: FieldTable := [
    ("location_name", "locationName"),
    ("crs", "crs"),
    ("et", "et"),
    ("at", "at")
  ]

  /** `ServiceLocation(v)`: maps the four location fields; never raises. */
  function ServiceLocationFrom(v: Value): (r: ServiceLocation)
    ensures r.attrs.Keys == InternalNames(ServiceLocationFields)
    ensures MappedFrom(r.attrs, ServiceLocationFields, v)
  {
    assert DistinctNames(ServiceLocationFields);
    ServiceLocation(MapFields(ServiceLocationFields, v))
  }

  /** `CallingPoint(v)`: maps the four calling-point fields; never raises. */
  function CallingPointFrom(v: Value): (r: CallingPoint)
    ensures r.attrs.Keys == InternalNames(CallingPointFields)
    ensures MappedFrom(r.attrs, CallingPointFields, v)
  {
    assert DistinctNames(CallingPointFields);
    CallingPoint(MapFields(CallingPointFields, v))
  }

  function LocationName(l: ServiceLocation): Option<Value> { Attr(l.attrs, "location_name") }

  function Via(l: ServiceLocation): Option<Value> { Attr(l.attrs, "via") }

  /** `str(location)` (`ServiceLocation.__str__`): "name via" when the via
      text is truthy, otherwise the location name itself, which must then be
      a string for `str` to succeed. */
  function LocationString(l: ServiceLocation): (r: Result<string, MappingError>)
    ensures !Truthy(Via(l)) ==>
      (r.Success? <==> LocationName(l).Some? && LocationName(l).value.Text?)
    ensures !Truthy(Via(l)) && r.Success? ==> r.value == LocationName(l).value.text
    ensures Truthy(Via(l)) ==>
      (r.Success? <==> Display(LocationName(l)).Success? && Display(Via(l)).Success?)
    ensures Truthy(Via(l)) && LocationName(l).Some? && LocationName(l).value.Text? && Via(l).value.Text? ==>
      r == Success(LocationName(l).value.text + " " + Via(l).value.text)
    ensures Truthy(Via(l)) && LocationName(l).None? && Via(l).value.Text? ==>
      r == Success("None " + Via(l).value.text)
  {
    if Truthy(Via(l)) then
      var name :- Display(LocationName(l));
      var via :- Display(Via(l));
      assert "None" + " " == "None ";
      Success(name + " " + via)
    else
      match LocationName(l)
      case Some(Text(name)) => Success(name)
      case _ => Failure(NonStringText)
  }

  /** The display string of a location read from the wire: the wire
      `locationName`, then one space and the wire `via` when that is a
      non-empty string; an absent or empty `via` adds nothing. The other
      location fields never affect it. */
  lemma LocationStringFromWire(v: Value, name: string)
    requires GetAttr(v, "locationName") == Some(Text(name))
    ensures GetAttr(v, "via").Some? && GetAttr(v, "via").value.Text? && GetAttr(v, "via").value.text != "" ==>
      LocationString(ServiceLocationFrom(v)) == Success(name + " " + GetAttr(v, "via").value.text)
    ensures GetAttr(v, "via").None? || GetAttr(v, "via") == Some(Text("")) ==>
      LocationString(ServiceLocationFrom(v)) == Success(name)
  {
    var l := ServiceLocationFrom(v);
    MappedAttr(l.attrs, ServiceLocationFields, v, 0);
    MappedAttr(l.attrs, ServiceLocationFields, v, 2);
    assert LocationName(l) == Some(Text(name));
    assert Via(l) == GetAttr(v, "via");
  }
}
