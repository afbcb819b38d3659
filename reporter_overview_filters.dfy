/** `NetworkOverviewDashboardFiltersDTO` of the reporter API
    (network_overview_dashboard_filters/network_overview_dashbord_filters.rs): filter
    entries, each carried as the blob of its own encoding. */
module ReporterOverviewFilters {
  import opened Wrappers
  import opened Ion
  import opened IonWriter
  import opened IonReader
  import opened Codec
  import IonBytes
  import ReporterFilterEntry

  const DATA_TYPE: string := "network-overview-dashboard-filters"

  datatype NetworkOverviewDashboardFiltersDTO = NetworkOverviewDashboardFiltersDTO(entries: seq<ReporterFilterEntry.FilterEntryDTO>)

  /** The wire layout: one struct holding the single field "entries". */
  function ToElem(x: NetworkOverviewDashboardFiltersDTO): Elem
  {
    Struct([Field("entries", List(MapElems(x.entries, ReporterFilterEntry.BlobOf)))])
  }

  function ToBytes(x: NetworkOverviewDashboardFiltersDTO): seq<byte>
  {
    IonBytes.Serialize([ToElem(x)])
  }

  /** What decode reads from the children of the root, by position. */
  function FromChildren(v: seq<Elem>): Option<NetworkOverviewDashboardFiltersDTO>
  {
    var entries :- ListOf(v, ReporterFilterEntry.FromBlob);
    Some(NetworkOverviewDashboardFiltersDTO(entries.value))
  }

  function FromStream(s: seq<Elem>): Option<NetworkOverviewDashboardFiltersDTO>
  {
    var v :- Root(s);
    FromChildren(v)
  }

  function FromBytes(b: seq<byte>): Option<NetworkOverviewDashboardFiltersDTO>
  {
    var s :- IonBytes.Parse(b);
    FromStream(s)
  }

  method Encode(x: NetworkOverviewDashboardFiltersDTO) returns (bytes: seq<byte>)
    ensures bytes == ToBytes(x)
  {
    var w := new Writer();
    w.StepIn(StructType);
    ghost var layout := ToElem(x).fields;
    Started(w, layout);
    var entriesBytes := ReporterFilterEntry.EncodeAll(x.entries);
    assert MapElems(entriesBytes, BlobElem) == MapElems(x.entries, ReporterFilterEntry.BlobOf);
    PutBlobs(w, "entries", entriesBytes, layout);
    bytes := Finish(w, layout);
  }

  /** The body of decode after the reader is built; it steps back out of
      the root struct. */
  method Read(rd: Reader) returns (r: Option<NetworkOverviewDashboardFiltersDTO>)
    requires rd.Valid() && Fresh(rd)
    modifies rd
    ensures r == FromStream(old(rd.levels[0].rest))
    ensures rd.Valid() && (r.Some? ==> rd.Depth() == 0)
  {
    var item := rd.Next();
    var ok := rd.StepIn();
    if !ok {
      return None;
    }
    var entries :- ReporterFilterEntry.NextAll(rd);
    ok := rd.StepOut();
    return Some(NetworkOverviewDashboardFiltersDTO(entries));
  }

  method Decode(data: seq<byte>) returns (r: Option<NetworkOverviewDashboardFiltersDTO>)
    ensures r == FromBytes(data)
  {
    var s := IonBytes.Parse(data);
    if s.None? {
      return None;
    }
    var rd := new Reader(s.value);
    r := Read(rd);
  }

  lemma RoundTrip(x: NetworkOverviewDashboardFiltersDTO)
    ensures FromBytes(ToBytes(x)) == Some(x)
  {
    IonBytes.ParseSerialize([ToElem(x)]);
    var v := Children(ToElem(x));
    assert v == [List(MapElems(x.entries, ReporterFilterEntry.BlobOf))] + [];
    forall k | 0 <= k < |x.entries|
      ensures ReporterFilterEntry.FromBlob(ReporterFilterEntry.BlobOf(x.entries[k])) == Some(x.entries[k])
    {
      ReporterFilterEntry.BlobRoundTrip(x.entries[k]);
    }
    ListOfElems(x.entries, ReporterFilterEntry.BlobOf, ReporterFilterEntry.FromBlob, []);
  }
}
