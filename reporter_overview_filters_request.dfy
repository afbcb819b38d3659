/** `NetworkOverviewDashboardFiltersRequestDTO` of the reporter API
    (network_overview_dashboard_filters/network_overview_dashboard_filters_request.rs): a time range. */
module ReporterOverviewFiltersRequest {
  import opened Wrappers
  import opened Ion
  import opened IonWriter
  import opened IonReader
  import opened Codec
  import IonBytes

  const DATA_TYPE: string := "network-overview-dashboard-filters-request"

  datatype NetworkOverviewDashboardFiltersRequestDTO = NetworkOverviewDashboardFiltersRequestDTO(startDateTime: i64, endDateTime: i64)

  /** The wire layout: one struct holding "start_date_time" and "end_date_time", in that order. */
  function ToElem(x: NetworkOverviewDashboardFiltersRequestDTO): Elem
  {
    Struct([Field("start_date_time", Int(x.startDateTime)),
            Field("end_date_time", Int(x.endDateTime))])
  }

  function ToBytes(x: NetworkOverviewDashboardFiltersRequestDTO): seq<byte>
  {
    IonBytes.Serialize([ToElem(x)])
  }

  /** What decode reads from the children of the root, by position. */
  function FromChildren(v: seq<Elem>): Option<NetworkOverviewDashboardFiltersRequestDTO>
  {
    var startDateTime :- Scalar(v, AsI64);
    var endDateTime :- Scalar(startDateTime.rest, AsI64);
    Some(NetworkOverviewDashboardFiltersRequestDTO(startDateTime.value, endDateTime.value))
  }

  function FromStream(s: seq<Elem>): Option<NetworkOverviewDashboardFiltersRequestDTO>
  {
    var v :- Root(s);
    FromChildren(v)
  }

  function FromBytes(b: seq<byte>): Option<NetworkOverviewDashboardFiltersRequestDTO>
  {
    var s :- IonBytes.Parse(b);
    FromStream(s)
  }

  method Encode(x: NetworkOverviewDashboardFiltersRequestDTO) returns (bytes: seq<byte>)
    ensures bytes == ToBytes(x)
  {
    var w := new Writer();
    w.StepIn(StructType);
    ghost var layout := ToElem(x).fields;
    Started(w, layout);
    PutI64(w, "start_date_time", x.startDateTime, layout);
    PutI64(w, "end_date_time", x.endDateTime, layout);
    bytes := Finish(w, layout);
  }

  /** The body of decode after the reader is built; it never steps out of
      the root struct. */
  method Read(rd: Reader) returns (r: Option<NetworkOverviewDashboardFiltersRequestDTO>)
    requires rd.Valid() && Fresh(rd)
    modifies rd
    ensures r == FromStream(old(rd.levels[0].rest))
    ensures rd.Valid() && (r.Some? ==> rd.Depth() == 1)
  {
    var item := rd.Next();
    var ok := rd.StepIn();
    if !ok {
      return None;
    }
    var startDateTime :- NextI64(rd);
    var endDateTime :- NextI64(rd);
    return Some(NetworkOverviewDashboardFiltersRequestDTO(startDateTime, endDateTime));
  }

  method Decode(data: seq<byte>) returns (r: Option<NetworkOverviewDashboardFiltersRequestDTO>)
    ensures r == FromBytes(data)
  {
    var s := IonBytes.Parse(data);
    if s.None? {
      return None;
    }
    var rd := new Reader(s.value);
    r := Read(rd);
  }

  lemma RoundTrip(x: NetworkOverviewDashboardFiltersRequestDTO)
    ensures FromBytes(ToBytes(x)) == Some(x)
  {
    IonBytes.ParseSerialize([ToElem(x)]);
    assert Children(ToElem(x)) == [Int(x.startDateTime), Int(x.endDateTime)];
  }
}
