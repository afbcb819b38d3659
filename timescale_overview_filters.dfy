/** `OverviewDashboardFiltersDTO` of the timescale API
    (overview_dashboard_filters/overview_dashbord_filters.rs): filter entries, each
    carried as the blob of its own encoding. */
module TimescaleOverviewFilters {
  import opened Wrappers
  import opened Ion
  import opened IonWriter
  import opened IonReader
  import opened Codec
  import IonBytes
  import TimescaleFilterEntry

  const DATA_TYPE: string := "overview-dashboard-filters"

  datatype OverviewDashboardFiltersDTO = OverviewDashboardFiltersDTO(entries: seq<TimescaleFilterEntry.FilterEntryDTO>)

  /** The wire layout: one struct holding the single field "entries". */
  function ToElem(x: OverviewDashboardFiltersDTO): Elem
  {
    Struct([Field("entries", List(MapElems(x.entries, TimescaleFilterEntry.BlobOf)))])
  }

  function ToBytes(x: OverviewDashboardFiltersDTO): seq<byte>
  {
    IonBytes.Serialize([ToElem(x)])
  }

  /** What decode reads from the children of the root, by position. */
  function FromChildren(v: seq<Elem>): Option<OverviewDashboardFiltersDTO>
  {
    var entries :- ListOf(v, TimescaleFilterEntry.FromBlob);
    Some(OverviewDashboardFiltersDTO(entries.value))
  }

  function FromStream(s: seq<Elem>): Option<OverviewDashboardFiltersDTO>
  {
    var v :- Root(s);
    FromChildren(v)
  }

  function FromBytes(b: seq<byte>): Option<OverviewDashboardFiltersDTO>
  {
    var s :- IonBytes.Parse(b);
    FromStream(s)
  }

  method Encode(x: OverviewDashboardFiltersDTO) returns (bytes: seq<byte>)
    ensures bytes == ToBytes(x)
  {
    var w := new Writer();
    w.StepIn(StructType);
    ghost var layout := ToElem(x).fields;
    Started(w, layout);
    var entriesBytes := TimescaleFilterEntry.EncodeAll(x.entries);
    assert MapElems(entriesBytes, BlobElem) == MapElems(x.entries, TimescaleFilterEntry.BlobOf);
    PutBlobs(w, "entries", entriesBytes, layout);
    bytes := Finish(w, layout);
  }

  /** The body of decode after the reader is built; it steps back out of
      the root struct. */
  method Read(rd: Reader) returns (r: Option<OverviewDashboardFiltersDTO>)
    requires rd.Valid() && Fresh(rd)
    modifies rd
    ensures r == FromStream(old(rd.levels[0].rest))
    ensures rd.Valid() && (r.Some? ==> rd.Depth() == 0)
  {
    var item := rd.Next();
    var ok := rd.StepIn();
    if !ok {
      return None;
    }
    var entries :- TimescaleFilterEntry.NextAll(rd);
    ok := rd.StepOut();
    return Some(OverviewDashboardFiltersDTO(entries));
  }

  method Decode(data: seq<byte>) returns (r: Option<OverviewDashboardFiltersDTO>)
    ensures r == FromBytes(data)
  {
    var s := IonBytes.Parse(data);
    if s.None? {
      return None;
    }
    var rd := new Reader(s.value);
    r := Read(rd);
  }

  lemma RoundTrip(x: OverviewDashboardFiltersDTO)
    ensures FromBytes(ToBytes(x)) == Some(x)
  {
    IonBytes.ParseSerialize([ToElem(x)]);
    var v := Children(ToElem(x));
    assert v == [List(MapElems(x.entries, TimescaleFilterEntry.BlobOf))] + [];
    forall k | 0 <= k < |x.entries|
      ensures TimescaleFilterEntry.FromBlob(TimescaleFilterEntry.BlobOf(x.entries[k])) == Some(x.entries[k])
    {
      TimescaleFilterEntry.BlobRoundTrip(x.entries[k]);
    }
    ListOfElems(x.entries, TimescaleFilterEntry.BlobOf, TimescaleFilterEntry.FromBlob, []);
  }
}
