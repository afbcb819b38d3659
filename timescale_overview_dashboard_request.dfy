/** `OverviewDashboardRequestDTO` of the timescale API (overview_dashboard_request.rs):
    a network graph request written inline. The type declares no type tag. */
module TimescaleOverviewDashboardRequest {
  import opened Wrappers
  import opened Ion
  import opened IonWriter
  import opened IonReader
  import opened Codec
  import IonBytes
  import TimescaleNetworkGraphRequest

  datatype OverviewDashboardRequestDTO = OverviewDashboardRequestDTO(networkGraphRequest: TimescaleNetworkGraphRequest.NetworkGraphRequestDTO)

  /** The wire layout, in one struct: the inline struct "network_graph_request". */
  function ToElem(x: OverviewDashboardRequestDTO): Elem
  {
    Struct([Field("network_graph_request", TimescaleNetworkGraphRequest.ToElem(x.networkGraphRequest))])
  }

  function ToBytes(x: OverviewDashboardRequestDTO): seq<byte>
  {
    IonBytes.Serialize([ToElem(x)])
  }

  /** What decode reads from the children of the root, by position. */
  function FromChildren(v: seq<Elem>): Option<OverviewDashboardRequestDTO>
  {
    var networkGraphRequest :- Nested(v, TimescaleNetworkGraphRequest.FromChildren);
    Some(OverviewDashboardRequestDTO(networkGraphRequest.value))
  }

  function FromStream(s: seq<Elem>): Option<OverviewDashboardRequestDTO>
  {
    var v :- Root(s);
    FromChildren(v)
  }

  function FromBytes(b: seq<byte>): Option<OverviewDashboardRequestDTO>
  {
    var s :- IonBytes.Parse(b);
    FromStream(s)
  }

  method Encode(x: OverviewDashboardRequestDTO) returns (bytes: seq<byte>)
    ensures bytes == ToBytes(x)
  {
    var w := new Writer();
    w.StepIn(StructType);
    ghost var layout := ToElem(x).fields;
    Started(w, layout);
    TimescaleNetworkGraphRequest.PutNested(w, "network_graph_request", x.networkGraphRequest, layout);
    bytes := Finish(w, layout);
  }

  /** The body of decode after the reader is built; it steps back out of
      the root struct. */
  method Read(rd: Reader) returns (r: Option<OverviewDashboardRequestDTO>)
    requires rd.Valid() && Fresh(rd)
    modifies rd
    ensures r == FromStream(old(rd.levels[0].rest))
    ensures rd.Valid() && (r.Some? ==> rd.Depth() == 0)
  {
    var item := rd.Next();
    var ok := rd.StepIn();
    if !ok {
      return None;
    }
    var networkGraphRequest :- TimescaleNetworkGraphRequest.NextNested(rd);
    ok := rd.StepOut();
    return Some(OverviewDashboardRequestDTO(networkGraphRequest));
  }

  method Decode(data: seq<byte>) returns (r: Option<OverviewDashboardRequestDTO>)
    ensures r == FromBytes(data)
  {
    var s := IonBytes.Parse(data);
    if s.None? {
      return None;
    }
    var rd := new Reader(s.value);
    r := Read(rd);
  }

  lemma RoundTrip(x: OverviewDashboardRequestDTO)
    ensures FromBytes(ToBytes(x)) == Some(x)
  {
    ReadChildren(x);
    IonBytes.ParseSerialize([ToElem(x)]);
  }

  /** The wire order: the children of the root struct, value by value. */
  lemma Layout(x: OverviewDashboardRequestDTO)
    ensures Children(ToElem(x))
            == [TimescaleNetworkGraphRequest.ToElem(x.networkGraphRequest)]
  {
    var fields := [Field("network_graph_request", TimescaleNetworkGraphRequest.ToElem(x.networkGraphRequest))];
    assert Values(fields) == [TimescaleNetworkGraphRequest.ToElem(x.networkGraphRequest)];
  }

  /** The children of the encoded root read back field by field. */
  lemma ReadChildren(x: OverviewDashboardRequestDTO)
    ensures FromChildren(Children(ToElem(x))) == Some(x)
  {
    var v := Children(ToElem(x));
    Layout(x);
    assert Nested(v, TimescaleNetworkGraphRequest.FromChildren) == Some(Codec.Read(x.networkGraphRequest, [])) by {
      TimescaleNetworkGraphRequest.NestedOf(x.networkGraphRequest, []);
      assert [TimescaleNetworkGraphRequest.ToElem(x.networkGraphRequest)] + [] == [TimescaleNetworkGraphRequest.ToElem(x.networkGraphRequest)];
    }
    Steps(v, x);
  }

  /** `FromChildren` read off from what each of its steps yields. */
  lemma Steps(v: seq<Elem>, x: OverviewDashboardRequestDTO)
    requires Nested(v, TimescaleNetworkGraphRequest.FromChildren) == Some(Codec.Read(x.networkGraphRequest, []))
    ensures FromChildren(v) == Some(x)
  {
  }
}
