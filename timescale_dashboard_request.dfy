/** `DashboardRequestDTO` of the timescale API (dashboard_request.rs): the chart requests,
    each an envelope written inline as a struct and read back by field name. The type
    declares no type tag. */
module TimescaleDashboardRequest {
  import opened Wrappers
  import opened Ion
  import opened IonWriter
  import opened IonReader
  import opened Codec
  import IonBytes
  import Envelope

  datatype DashboardRequestDTO = DashboardRequestDTO(chartRequests: seq<Envelope.Envelope>)

  /** The wire layout, in one struct: the list "chart_requests" of envelope structs. */
  function ToElem(x: DashboardRequestDTO): Elem
  {
    Struct([Field("chart_requests", List(MapElems(x.chartRequests, Envelope.ToElem)))])
  }

  function ToBytes(x: DashboardRequestDTO): seq<byte>
  {
    IonBytes.Serialize([ToElem(x)])
  }

  /** What decode reads from the children of the root, by position. */
  function FromChildren(v: seq<Elem>): Option<DashboardRequestDTO>
  {
    var chartRequests :- ListOf(v, Envelope.FromStructByName);
    Some(DashboardRequestDTO(chartRequests.value))
  }

  function FromStream(s: seq<Elem>): Option<DashboardRequestDTO>
  {
    var v :- Root(s);
    FromChildren(v)
  }

  function FromBytes(b: seq<byte>): Option<DashboardRequestDTO>
  {
    var s :- IonBytes.Parse(b);
    FromStream(s)
  }

  method Encode(x: DashboardRequestDTO) returns (bytes: seq<byte>)
    ensures bytes == ToBytes(x)
  {
    var w := new Writer();
    w.StepIn(StructType);
    ghost var layout := ToElem(x).fields;
    Started(w, layout);
    Envelope.PutNestedAll(w, "chart_requests", x.chartRequests, layout);
    bytes := Finish(w, layout);
  }

  /** The body of decode after the reader is built; it steps back out of
      the root struct. */
  method Read(rd: Reader) returns (r: Option<DashboardRequestDTO>)
    requires rd.Valid() && Fresh(rd)
    modifies rd
    ensures r == FromStream(old(rd.levels[0].rest))
    ensures rd.Valid() && (r.Some? ==> rd.Depth() == 0)
  {
    var item := rd.Next();
    var ok := rd.StepIn();
    if !ok {
      return None;
    }
    var chartRequests :- NextListOf(rd, Envelope.FromStructByName);
    ok := rd.StepOut();
    return Some(DashboardRequestDTO(chartRequests));
  }

  method Decode(data: seq<byte>) returns (r: Option<DashboardRequestDTO>)
    ensures r == FromBytes(data)
  {
    var s := IonBytes.Parse(data);
    if s.None? {
      return None;
    }
    var rd := new Reader(s.value);
    r := Read(rd);
  }

  lemma RoundTrip(x: DashboardRequestDTO)
    ensures FromBytes(ToBytes(x)) == Some(x)
  {
    ReadChildren(x);
    IonBytes.ParseSerialize([ToElem(x)]);
  }

  /** The wire order: the children of the root struct, value by value. */
  lemma Layout(x: DashboardRequestDTO)
    ensures Children(ToElem(x))
            == [List(MapElems(x.chartRequests, Envelope.ToElem))]
  {
    var fields := [Field("chart_requests", List(MapElems(x.chartRequests, Envelope.ToElem)))];
    assert Values(fields) == [List(MapElems(x.chartRequests, Envelope.ToElem))];
  }

  /** The children of the encoded root read back field by field. */
  lemma ReadChildren(x: DashboardRequestDTO)
    ensures FromChildren(Children(ToElem(x))) == Some(x)
  {
    var v := Children(ToElem(x));
    Layout(x);
    assert ListOf(v, Envelope.FromStructByName) == Some(Codec.Read(x.chartRequests, [])) by {
      Envelope.NestedListOf(x.chartRequests, []);
      assert [List(MapElems(x.chartRequests, Envelope.ToElem))] + [] == [List(MapElems(x.chartRequests, Envelope.ToElem))];
    }
    Steps(v, x);
  }

  /** `FromChildren` read off from what each of its steps yields. */
  lemma Steps(v: seq<Elem>, x: DashboardRequestDTO)
    requires ListOf(v, Envelope.FromStructByName) == Some(Codec.Read(x.chartRequests, []))
    ensures FromChildren(v) == Some(x)
  {
  }
}
