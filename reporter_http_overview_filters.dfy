/** `HttpOverviewDashboardFiltersDTO` of the reporter API
    (http_overview_dashboard_filters/http_overview_dashboard_filters.rs): the endpoints,
    request methods and response codes a dashboard can filter by. */
module ReporterHttpOverviewFilters {
  import opened Wrappers
  import opened Ion
  import opened IonWriter
  import opened IonReader
  import opened Codec
  import IonBytes

  const DATA_TYPE: string := "http_overview_dashboard_filters"

  datatype HttpOverviewDashboardFiltersDTO = HttpOverviewDashboardFiltersDTO(endpoints: seq<string>, httpRequestMethods: seq<string>, httpResponseCodes: seq<string>)

  /** The wire layout: one struct holding "endpoints", "http_request_methods" and "http_response_codes", in that order. */
  function ToElem(x: HttpOverviewDashboardFiltersDTO): Elem
  {
    Struct([Field("endpoints", List(MapElems(x.endpoints, StringElem))),
            Field("http_request_methods", List(MapElems(x.httpRequestMethods, StringElem))),
            Field("http_response_codes", List(MapElems(x.httpResponseCodes, StringElem)))])
  }

  function ToBytes(x: HttpOverviewDashboardFiltersDTO): seq<byte>
  {
    IonBytes.Serialize([ToElem(x)])
  }

  /** What decode reads from the children of the root, by position. */
  function FromChildren(v: seq<Elem>): Option<HttpOverviewDashboardFiltersDTO>
  {
    var endpoints :- ListOf(v, AsString);
    var httpRequestMethods :- ListOf(endpoints.rest, AsString);
    var httpResponseCodes :- ListOf(httpRequestMethods.rest, AsString);
    Some(HttpOverviewDashboardFiltersDTO(endpoints.value, httpRequestMethods.value, httpResponseCodes.value))
  }

  function FromStream(s: seq<Elem>): Option<HttpOverviewDashboardFiltersDTO>
  {
    var v :- Root(s);
    FromChildren(v)
  }

  function FromBytes(b: seq<byte>): Option<HttpOverviewDashboardFiltersDTO>
  {
    var s :- IonBytes.Parse(b);
    FromStream(s)
  }

  method Encode(x: HttpOverviewDashboardFiltersDTO) returns (bytes: seq<byte>)
    ensures bytes == ToBytes(x)
  {
    var w := new Writer();
    w.StepIn(StructType);
    ghost var layout := ToElem(x).fields;
    Started(w, layout);
    PutStrings(w, "endpoints", x.endpoints, layout);
    PutStrings(w, "http_request_methods", x.httpRequestMethods, layout);
    PutStrings(w, "http_response_codes", x.httpResponseCodes, layout);
    bytes := Finish(w, layout);
  }

  /** The body of decode after the reader is built; it steps back out of
      the root struct. */
  method Read(rd: Reader) returns (r: Option<HttpOverviewDashboardFiltersDTO>)
    requires rd.Valid() && Fresh(rd)
    modifies rd
    ensures r == FromStream(old(rd.levels[0].rest))
    ensures rd.Valid() && (r.Some? ==> rd.Depth() == 0)
  {
    var item := rd.Next();
    var ok := rd.StepIn();
    if !ok {
      return None;
    }
    var endpoints :- NextStrings(rd);
    var httpRequestMethods :- NextStrings(rd);
    var httpResponseCodes :- NextStrings(rd);
    ok := rd.StepOut();
    return Some(HttpOverviewDashboardFiltersDTO(endpoints, httpRequestMethods, httpResponseCodes));
  }

  method Decode(data: seq<byte>) returns (r: Option<HttpOverviewDashboardFiltersDTO>)
    ensures r == FromBytes(data)
  {
    var s := IonBytes.Parse(data);
    if s.None? {
      return None;
    }
    var rd := new Reader(s.value);
    r := Read(rd);
  }

  lemma RoundTrip(x: HttpOverviewDashboardFiltersDTO)
    ensures FromBytes(ToBytes(x)) == Some(x)
  {
    IonBytes.ParseSerialize([ToElem(x)]);
    var v := Children(ToElem(x));
    assert v == [List(MapElems(x.endpoints, StringElem))] + ([List(MapElems(x.httpRequestMethods, StringElem))] + ([List(MapElems(x.httpResponseCodes, StringElem))] + []));
    ListOfElems(x.endpoints, StringElem, AsString, [List(MapElems(x.httpRequestMethods, StringElem))] + ([List(MapElems(x.httpResponseCodes, StringElem))] + []));
    ListOfElems(x.httpRequestMethods, StringElem, AsString, [List(MapElems(x.httpResponseCodes, StringElem))] + []);
    ListOfElems(x.httpResponseCodes, StringElem, AsString, []);
  }
}
