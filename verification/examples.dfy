/** Concrete responses and the behaviours the mapping layer shows on them.

    The Manchester board and row are rebuilt from what the repository's
    unit tests assert about them (the recorded XML replies are not part of
    this model), so they carry only the fields those assertions mention. The
    other trees are small hand-built replies that exhibit one behaviour each. */
module Examples {
  import opened Results
  import opened Wire
  import opened Fields
  import opened Locations
  import opened Services
  import opened Boards
  import opened Session
  import Seqs

  function Place(name: string, crs: string): Value
  {
    Node(map["locationName" := Text(name), "crs" := Text(crs)])
  }

  const Nrcc := "Trains through Wembley Central&nbsp;are being delayed by up to&nbsp;40 minutes. More details can be found in <A href=\"    http://nationalrail.co.uk/service_disruptions/88961.aspx\">Latest Travel News.</A>"

  /** The first train row of the Manchester Piccadilly departure board, as
      far as the tests describe it. */
  const ManchesterRow := Node(map[
    "platform" := Text("1"),
    "operator" := Text("First TransPennine Express"),
    "operatorCode" := Text("TP"),
    "std" := Text("11:57"),
    "etd" := Text("On time"),
    "isCircularRoute" := Flag(false),
    "serviceID" := Text("u0bRc9iGz6QPJPk0ipljgg=="),
    "origin" := Node(map["location" := Items([Place("Manchester Airport", "MIA")])]),
    "destination" := Node(map["location" := Items([Place("Middlesbrough", "MBR")])])
  ])

  const ManchesterBoard := Node(map[
    "crs" := Text("MAN"),
    "locationName" := Text("Manchester Piccadilly"),
    "trainServices" := Node(map["service" := Items([ManchesterRow])]),
    "nrccMessages" := Node(map["message" := Items([Text(Nrcc)])])
  ])

  /** What a service row's attributes read, given the wire fields it has. */
  lemma RowAttributes(v: Value)
    requires ServiceItemFrom(v).Success?
    ensures var row := ServiceItemFrom(v).value;
      && Attr(row.attrs, "sta") == GetAttr(v, "sta")
      && Attr(row.attrs, "eta") == GetAttr(v, "eta")
      && Attr(row.attrs, "std") == GetAttr(v, "std")
      && Attr(row.attrs, "etd") == GetAttr(v, "etd")
      && Attr(row.attrs, "platform") == GetAttr(v, "platform")
      && Attr(row.attrs, "operator_name") == GetAttr(v, "operator")
      && Attr(row.attrs, "operator_code") == GetAttr(v, "operatorCode")
      && Attr(row.attrs, "is_circular_route") == GetAttr(v, "isCircularRoute")
      && Attr(row.attrs, "service_id") == GetAttr(v, "serviceID")
  {
    var row := ServiceItemFrom(v).value;
    MappedAttr(row.attrs, ServiceItemFields, v, 0);
    MappedAttr(row.attrs, ServiceItemFields, v, 1);
    MappedAttr(row.attrs, ServiceItemFields, v, 2);
    MappedAttr(row.attrs, ServiceItemFields, v, 3);
    MappedAttr(row.attrs, ServiceItemFields, v, 4);
    MappedAttr(row.attrs, ServiceItemFields, v, 5);
    MappedAttr(row.attrs, ServiceItemFields, v, 6);
    MappedAttr(row.attrs, ServiceItemFields, v, 7);
    MappedAttr(row.attrs, ServiceItemFields, v, 8);
  }

  /** The wire fields of the test row. */
  lemma ManchesterRowWire()
    ensures GetAttr(ManchesterRow, "platform") == Some(Text("1"))
    ensures GetAttr(ManchesterRow, "operator") == Some(Text("First TransPennine Express"))
    ensures GetAttr(ManchesterRow, "operatorCode") == Some(Text("TP"))
    ensures GetAttr(ManchesterRow, "sta") == None
    ensures GetAttr(ManchesterRow, "eta") == None
    ensures GetAttr(ManchesterRow, "std") == Some(Text("11:57"))
    ensures GetAttr(ManchesterRow, "etd") == Some(Text("On time"))
    ensures GetAttr(ManchesterRow, "isCircularRoute") == Some(Flag(false))
    ensures GetAttr(ManchesterRow, "serviceID") == Some(Text("u0bRc9iGz6QPJPk0ipljgg=="))
    ensures GetPath(ManchesterRow, "origin", "location") == Some(Items([Place("Manchester Airport", "MIA")]))
    ensures GetPath(ManchesterRow, "destination", "location") == Some(Items([Place("Middlesbrough", "MBR")]))
  {
  }

  /** The row of the station-board test maps every asserted field; the
      absent arrival times read as None. */
  lemma ManchesterRowFields()
    ensures ServiceItemFrom(ManchesterRow).Success?
    ensures var row := ServiceItemFrom(ManchesterRow).value;
      && Attr(row.attrs, "platform") == Some(Text("1"))
      && Attr(row.attrs, "operator_name") == Some(Text("First TransPennine Express"))
      && Attr(row.attrs, "operator_code") == Some(Text("TP"))
      && Attr(row.attrs, "sta") == None && Attr(row.attrs, "eta") == None
      && Attr(row.attrs, "std") == Some(Text("11:57"))
      && Attr(row.attrs, "etd") == Some(Text("On time"))
      && Attr(row.attrs, "is_circular_route") == Some(Flag(false))
      && Attr(row.attrs, "service_id") == Some(Text("u0bRc9iGz6QPJPk0ipljgg=="))
  {
    ManchesterRowWire();
    RowAttributes(ManchesterRow);
  }

  /** A location with a name and no via prints as the bare name. */
  lemma PlaceText(name: string, crs: string)
    ensures Via(ServiceLocationFrom(Place(name, crs))) == None
    ensures LocationString(ServiceLocationFrom(Place(name, crs))) == Success(name)
  {
    var l := ServiceLocationFrom(Place(name, crs));
    assert ServiceLocationFields[0] == ("location_name", "locationName");
    assert ServiceLocationFields[2] == ("via", "via");
    assert MappedFrom(l.attrs, ServiceLocationFields, Place(name, crs));
  }

  /** The location test: the test row's one destination is Middlesbrough,
      with crs MBR and no via. */
  lemma ManchesterDestination()
    ensures ServiceItemFrom(ManchesterRow).Success?
    ensures var d := ServiceItemFrom(ManchesterRow).value.destinations;
      && |d| == 1
      && LocationName(d[0]) == Some(Text("Middlesbrough"))
      && Attr(d[0].attrs, "crs") == Some(Text("MBR"))
      && Via(d[0]) == None
  {
    ManchesterRowWire();
    SingleLocationRow(ManchesterRow, Place("Manchester Airport", "MIA"), Place("Middlesbrough", "MBR"));
    PlaceFields("Middlesbrough", "MBR");
  }

  /** A place's location reads its name and crs, and has no via. */
  lemma PlaceFields(name: string, crs: string)
    ensures var l := ServiceLocationFrom(Place(name, crs));
      && LocationName(l) == Some(Text(name))
      && Attr(l.attrs, "crs") == Some(Text(crs))
      && Via(l) == None
  {
    PlaceWire(name, crs);
    LocationFields(Place(name, crs));
  }

  lemma PlaceWire(name: string, crs: string)
    ensures GetAttr(Place(name, crs), "locationName") == Some(Text(name))
    ensures GetAttr(Place(name, crs), "crs") == Some(Text(crs))
    ensures GetAttr(Place(name, crs), "via") == None
  {
  }

  /** What a location's name, crs and via read, given its wire fields. */
  lemma LocationFields(v: Value)
    ensures var l := ServiceLocationFrom(v);
      && LocationName(l) == GetAttr(v, "locationName")
      && Attr(l.attrs, "crs") == GetAttr(v, "crs")
      && Via(l) == GetAttr(v, "via")
  {
    var l := ServiceLocationFrom(v);
    MappedAttr(l.attrs, ServiceLocationFields, v, 0);
    MappedAttr(l.attrs, ServiceLocationFields, v, 1);
    MappedAttr(l.attrs, ServiceLocationFields, v, 2);
  }

  /** The row's origin and destination texts are the single location names. */
  lemma ManchesterRowTexts()
    ensures ServiceItemFrom(ManchesterRow).Success?
    ensures var row := ServiceItemFrom(ManchesterRow).value;
      && DestinationText(row) == Success("Middlesbrough")
      && OriginText(row) == Success("Manchester Airport")
  {
    ManchesterRowWire();
    SingleLocationTexts(ManchesterRow, "Manchester Airport", "MIA", "Middlesbrough", "MBR");
  }

  /** A row with one plain origin and one plain destination has those names
      as its texts. */
  lemma SingleLocationTexts(v: Value, origin: string, originCrs: string, destination: string, destinationCrs: string)
    requires GetPath(v, "origin", "location") == Some(Items([Place(origin, originCrs)]))
    requires GetPath(v, "destination", "location") == Some(Items([Place(destination, destinationCrs)]))
    ensures ServiceItemFrom(v).Success?
    ensures DestinationText(ServiceItemFrom(v).value) == Success(destination)
    ensures OriginText(ServiceItemFrom(v).value) == Success(origin)
  {
    SingleLocationRow(v, Place(origin, originCrs), Place(destination, destinationCrs));
    PlaceText(origin, originCrs);
    PlaceText(destination, destinationCrs);
  }

  lemma SingleLocationRow(v: Value, origin: Value, destination: Value)
    requires GetPath(v, "origin", "location") == Some(Items([origin]))
    requires GetPath(v, "destination", "location") == Some(Items([destination]))
    ensures ServiceItemFrom(v).Success?
    ensures ServiceItemFrom(v).value.origins == [ServiceLocationFrom(origin)]
    ensures ServiceItemFrom(v).value.destinations == [ServiceLocationFrom(destination)]
  {
    var row := ServiceItemFrom(v).value;
    assert row.origins == [ServiceLocationFrom(origin)];
  }

  /** The wire fields of the test board. */
  lemma ManchesterBoardWire()
    ensures GetAttr(ManchesterBoard, "crs") == Some(Text("MAN"))
    ensures GetAttr(ManchesterBoard, "locationName") == Some(Text("Manchester Piccadilly"))
    ensures GetPath(ManchesterBoard, TrainServices, "service") == Some(Items([ManchesterRow]))
    ensures GetPath(ManchesterBoard, BusServices, "service") == None
    ensures GetPath(ManchesterBoard, FerryServices, "service") == None
    ensures GetPath(ManchesterBoard, "nrccMessages", "message") == Some(Items([Text(Nrcc)]))
  {
  }

  /** What a board's identity attributes read, given the wire fields it has. */
  lemma BoardAttributes(v: Value)
    requires StationBoardFrom(v).Success?
    ensures var b := StationBoardFrom(v).value;
      && Attr(b.attrs, "generated_at") == GetAttr(v, "generatedAt")
      && Attr(b.attrs, "crs") == GetAttr(v, "crs")
      && Attr(b.attrs, "location_name") == GetAttr(v, "locationName")
  {
    var b := StationBoardFrom(v).value;
    MappedAttr(b.attrs, StationBoardFields, v, 0);
    MappedAttr(b.attrs, StationBoardFields, v, 1);
    MappedAttr(b.attrs, StationBoardFields, v, 2);
  }

  /** The station-board test: the board's identity, its one train row, the
      empty bus and ferry lists and the message passed through unmodified.
      (The rebuilt board has no `generatedAt`, which no test asserts.) */
  lemma ManchesterBoardMaps()
    ensures StationBoardFrom(ManchesterBoard).Success?
    ensures var b := StationBoardFrom(ManchesterBoard).value;
      && Attr(b.attrs, "crs") == Some(Text("MAN"))
      && Attr(b.attrs, "location_name") == Some(Text("Manchester Piccadilly"))
      && b.trainServices == [ServiceItemFrom(ManchesterRow).value]
      && b.busServices == [] && b.ferryServices == []
      && b.nrccMessages == Items([Text(Nrcc)])
  {
    ManchesterRowFields();
    ManchesterBoardWire();
    OneTrainBoard(ManchesterBoard, ManchesterRow, Items([Text(Nrcc)]));
  }

  /** A board with one train row and no bus or ferry lists. */
  lemma OneTrainBoard(v: Value, row: Value, messages: Value)
    requires ServiceItemFrom(row).Success?
    requires GetPath(v, TrainServices, "service") == Some(Items([row]))
    requires GetPath(v, BusServices, "service") == None
    requires GetPath(v, FerryServices, "service") == None
    requires GetPath(v, "nrccMessages", "message") == Some(messages)
    ensures StationBoardFrom(v).Success?
    ensures var b := StationBoardFrom(v).value;
      && Attr(b.attrs, "crs") == GetAttr(v, "crs")
      && Attr(b.attrs, "location_name") == GetAttr(v, "locationName")
      && Attr(b.attrs, "generated_at") == GetAttr(v, "generatedAt")
      && b.trainServices == [ServiceItemFrom(row).value]
      && b.busServices == [] && b.ferryServices == []
      && b.nrccMessages == messages
  {
    SingleRow(v, TrainServices, row);
    BoardAttributes(v);
  }

  lemma MapAllOne<A, B, E>(f: A -> Result<B, E>, x: A)
    requires f(x).Success?
    ensures Seqs.MapAll(f, [x]) == Success([f(x).value])
  {
    var r := Seqs.MapAll(f, [x]);
    assert r.Success?;
    assert |r.value| == 1 && f([x][0]) == Success(r.value[0]);
    assert r.value == [r.value[0]];
  }

  lemma SingleRow(v: Value, key: string, row: Value)
    requires ServiceItemFrom(row).Success?
    requires GetPath(v, key, "service") == Some(Items([row]))
    ensures ServiceRows(v, key) == Success([ServiceItemFrom(row).value])
  {
    MapAllOne(ServiceItemFrom, row);
  }

  /** As written, the destination list is read only when the ORIGIN node has
      locations: a row whose origin has none loses its listed destination. */
  lemma DestinationsFollowOriginPresence()
    ensures var row := Node(map[
        "origin" := Node(map[]),
        "destination" := Node(map["location" := Items([Place("Middlesbrough", "MBR")])])]);
      ServiceItemFrom(row).Success? && ServiceItemFrom(row).value.destinations == []
  {
  }

  /** A row without an `origin` element makes the whole board raise. */
  lemma MissingOriginAbortsBoard()
    ensures var board := Node(map["busServices" := Node(map["service" := Items([Node(map[])])])]);
      StationBoardFrom(board) == Failure(MissingAttribute("origin"))
  {
    var board := Node(map["busServices" := Node(map["service" := Items([Node(map[])])])]);
    assert Iterate(GetPath(board, BusServices, "service").value) == Success([Node(map[])]);
  }

  const Leeds := Place("Leeds", "LDS")
  const York := Place("York", "YRK")
  const Hull := Place("Hull", "HUL")
  const SplitFirst := Node(map["callingPoint" := Items([Leeds, York])])
  const SplitSecond := Node(map["callingPoint" := Items([Hull])])
  const SplitService := Node(map["subsequentCallingPoints" := Node(map["callingPointList" := Items([SplitFirst, SplitSecond])])])

  lemma SplitServiceWire()
    ensures GetPath(SplitService, "previousCallingPoints", "callingPointList") == None
    ensures GetPath(SplitService, "subsequentCallingPoints", "callingPointList") == Some(Items([SplitFirst, SplitSecond]))
    ensures SublistPoints(SplitFirst) == Success([Leeds, York])
    ensures SublistPoints(SplitSecond) == Success([Hull])
  {
  }

  /** Two calling-point lists under `key` give their points concatenated. */
  lemma TwoSublists(v: Value, key: string, first: Value, second: Value, p: seq<Value>, q: seq<Value>)
    requires GetPath(v, key, "callingPointList") == Some(Items([first, second]))
    requires SublistPoints(first) == Success(p) && SublistPoints(second) == Success(q)
    ensures CallingPointsAt(v, key) == Success(Seqs.Map(CallingPointFrom, p + q))
  {
    var groups := [p, q];
    var all := Seqs.MapAll(SublistPoints, [first, second]);
    assert all.Success?;
    assert all.value == groups;
    assert groups[1..] == [q] && groups[1..][1..] == [];
    assert Seqs.Flatten(groups[1..][1..]) == [];
    assert Seqs.Flatten(groups[1..]) == q + [];
    assert q + [] == q;
    assert Seqs.Flatten(groups) == p + q;
  }

  /** A service that splits: two subsequent lists of 2 and 1 points give 3
      subsequent calling points, in order. */
  lemma SplitServiceFlattens()
    ensures ServiceDetailsFrom(SplitService).Success?
    ensures ServiceDetailsFrom(SplitService).value.previousCallingPoints == []
    ensures ServiceDetailsFrom(SplitService).value.subsequentCallingPoints
         == [CallingPointFrom(Leeds), CallingPointFrom(York), CallingPointFrom(Hull)]
  {
    SplitPrevious();
    SplitSubsequent();
    DetailsFromPoints(SplitService, [], [CallingPointFrom(Leeds), CallingPointFrom(York), CallingPointFrom(Hull)]);
  }

  lemma SplitPrevious()
    ensures CallingPointsAt(SplitService, "previousCallingPoints") == Success([])
  {
    SplitServiceWire();
  }

  lemma SplitSubsequent()
    ensures CallingPointsAt(SplitService, "subsequentCallingPoints")
         == Success([CallingPointFrom(Leeds), CallingPointFrom(York), CallingPointFrom(Hull)])
  {
    SplitServiceWire();
    ThreePoints(SplitService, "subsequentCallingPoints", SplitFirst, SplitSecond, Leeds, York, Hull);
  }

  /** Sub-lists of two and one points give the three points in order. */
  lemma ThreePoints(v: Value, key: string, first: Value, second: Value, a: Value, b: Value, c: Value)
    requires GetPath(v, key, "callingPointList") == Some(Items([first, second]))
    requires SublistPoints(first) == Success([a, b]) && SublistPoints(second) == Success([c])
    ensures CallingPointsAt(v, key) == Success([CallingPointFrom(a), CallingPointFrom(b), CallingPointFrom(c)])
  {
    TwoSublists(v, key, first, second, [a, b], [c]);
    assert [a, b] + [c] == [a, b, c];
    MapThree(CallingPointFrom, a, b, c);
  }

  lemma MapThree<A, B>(f: A -> B, a: A, b: A, c: A)
    ensures Seqs.Map(f, [a, b, c]) == [f(a), f(b), f(c)]
  {
    var m := Seqs.Map(f, [a, b, c]);
    assert |m| == 3 && m[0] == f(a) && m[1] == f(b) && m[2] == f(c);
  }

  lemma DetailsFromPoints(v: Value, previous: seq<CallingPoint>, subsequent: seq<CallingPoint>)
    requires CallingPointsAt(v, "previousCallingPoints") == Success(previous)
    requires CallingPointsAt(v, "subsequentCallingPoints") == Success(subsequent)
    ensures ServiceDetailsFrom(v).Success?
    ensures ServiceDetailsFrom(v).value.previousCallingPoints == previous
    ensures ServiceDetailsFrom(v).value.subsequentCallingPoints == subsequent
  {
  }

  /** Both filters given: only the destination filter is sent, as "to". */
  lemma BothFiltersSendDestination()
    ensures PlanStationBoard("MAN", 10, true, false, Some("LDS"), Some("EUS"))
         == Success(Request(GetDepartureBoard, map[
              "crs" := TextArg("MAN"), "numRows" := IntArg(10),
              "filterCrs" := TextArg("LDS"), "filterType" := TextArg("to")]))
  {
    var filters := FilterArgs(Some("LDS"), Some("EUS"));
    assert filters == map["filterCrs" := TextArg("LDS"), "filterType" := TextArg("to")];
    var base := map["crs" := TextArg("MAN"), "numRows" := IntArg(10)];
    assert base + filters == map["crs" := TextArg("MAN"), "numRows" := IntArg(10),
      "filterCrs" := TextArg("LDS"), "filterType" := TextArg("to")];
  }
}
