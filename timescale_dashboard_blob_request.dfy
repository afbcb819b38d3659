/** `DashboardRequestDTO` of the timescale API (dashboard/dashboard_request.rs): the chart
    requests, each an envelope carried as the blob of its own encoding. */
module TimescaleDashboardBlobRequest {
  import opened Wrappers
  import opened Ion
  import opened IonWriter
  import opened IonReader
  import opened Codec
  import IonBytes
  import Envelope

  const DATA_TYPE: string := "dashboard_request"

  datatype DashboardRequestDTO = DashboardRequestDTO(chartRequests: seq<Envelope.Envelope>)

  /** The wire layout: one struct holding the single field "chart_requests". */
  function ToElem(x: DashboardRequestDTO): Elem
  {
    Struct([Field("chart_requests", List(MapElems(x.chartRequests, Envelope.BlobOf)))])
  }

  function ToBytes(x: DashboardRequestDTO): seq<byte>
  {
    IonBytes.Serialize([ToElem(x)])
  }

  /** What decode reads from the children of the root, by position. */
  function FromChildren(v: seq<Elem>): Option<DashboardRequestDTO>
  {
    var chartRequests :- ListOf(v, Envelope.FromBlob);
    Some(DashboardRequestDTO(chartRequests.value))
  }

  function FromStream(s: seq<Elem>): Option<DashboardRequestDTO>
  {
    var v :- Root(s);
    FromChildren(v)
  }

  function FromBytes(b: seq<byte>): Option<DashboardRequestDTO>
  {
    var s :- IonBytes.Parse(b);
    FromStream(s)
  }

  method Encode(x: DashboardRequestDTO) returns (bytes: seq<byte>)
    ensures bytes == ToBytes(x)
  {
    var w := new Writer();
    w.StepIn(StructType);
    ghost var layout := ToElem(x).fields;
    Started(w, layout);
    var chartRequestsBytes := Envelope.EncodeAll(x.chartRequests);
    assert MapElems(chartRequestsBytes, BlobElem) == MapElems(x.chartRequests, Envelope.BlobOf);
    PutBlobs(w, "chart_requests", chartRequestsBytes, layout);
    bytes := Finish(w, layout);
  }

  /** The body of decode after the reader is built; it steps back out of
      the root struct. */
  method Read(rd: Reader) returns (r: Option<DashboardRequestDTO>)
    requires rd.Valid() && Fresh(rd)
    modifies rd
    ensures r == FromStream(old(rd.levels[0].rest))
    ensures rd.Valid() && (r.Some? ==> rd.Depth() == 0)
  {
    var item := rd.Next();
    var ok := rd.StepIn();
    if !ok {
      return None;
    }
    var chartRequests :- Envelope.NextAll(rd);
    ok := rd.StepOut();
    return Some(DashboardRequestDTO(chartRequests));
  }

  method Decode(data: seq<byte>) returns (r: Option<DashboardRequestDTO>)
    ensures r == FromBytes(data)
  {
    var s := IonBytes.Parse(data);
    if s.None? {
      return None;
    }
    var rd := new Reader(s.value);
    r := Read(rd);
  }

  lemma RoundTrip(x: DashboardRequestDTO)
    ensures FromBytes(ToBytes(x)) == Some(x)
  {
    IonBytes.ParseSerialize([ToElem(x)]);
    var v := Children(ToElem(x));
    assert v == [List(MapElems(x.chartRequests, Envelope.BlobOf))] + [];
    forall k | 0 <= k < |x.chartRequests|
      ensures Envelope.FromBlob(Envelope.BlobOf(x.chartRequests[k])) == Some(x.chartRequests[k])
    {
      Envelope.BlobRoundTrip(x.chartRequests[k]);
    }
    ListOfElems(x.chartRequests, Envelope.BlobOf, Envelope.FromBlob, []);
  }
}
