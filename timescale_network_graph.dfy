/** `NetworkGraphDTO` of the timescale API (network_graph/network_graph.rs): the nodes
    and then the edges, each element written inline as a struct and read back by
    field name. */
module TimescaleNetworkGraph {
  import opened Wrappers
  import opened Ion
  import opened IonWriter
  import opened IonReader
  import opened Codec
  import IonBytes
  import TimescaleGraphEdge
  import TimescaleGraphNode

  const DATA_TYPE: string := "network_graph"

  datatype NetworkGraphDTO = NetworkGraphDTO(graphNodes: seq<TimescaleGraphNode.GraphNodeDTO>, graphEdges: seq<TimescaleGraphEdge.GraphEdgeDTO>)

  /** The wire layout, in one struct: the list "graph_nodes" of node structs, then the list
      "graph_edges" of edge structs. */
  function ToElem(x: NetworkGraphDTO): Elem
  {
    Struct([Field("graph_nodes", List(MapElems(x.graphNodes, TimescaleGraphNode.ToElem))),
            Field("graph_edges", List(MapElems(x.graphEdges, TimescaleGraphEdge.ToElem)))])
  }

  function ToBytes(x: NetworkGraphDTO): seq<byte>
  {
    IonBytes.Serialize([ToElem(x)])
  }

  /** What decode reads from the children of the root, by position. */
  function FromChildren(v: seq<Elem>): Option<NetworkGraphDTO>
  {
    var graphNodes :- ListOf(v, TimescaleGraphNode.FromStructByName);
    var graphEdges :- ListOf(graphNodes.rest, TimescaleGraphEdge.FromStructByName);
    Some(NetworkGraphDTO(graphNodes.value, graphEdges.value))
  }

  function FromStream(s: seq<Elem>): Option<NetworkGraphDTO>
  {
    var v :- Root(s);
    FromChildren(v)
  }

  function FromBytes(b: seq<byte>): Option<NetworkGraphDTO>
  {
    var s :- IonBytes.Parse(b);
    FromStream(s)
  }

  method Encode(x: NetworkGraphDTO) returns (bytes: seq<byte>)
    ensures bytes == ToBytes(x)
  {
    var w := new Writer();
    w.StepIn(StructType);
    ghost var layout := ToElem(x).fields;
    Started(w, layout);
    TimescaleGraphNode.PutNestedAll(w, "graph_nodes", x.graphNodes, layout);
    TimescaleGraphEdge.PutNestedAll(w, "graph_edges", x.graphEdges, layout);
    bytes := Finish(w, layout);
  }

  /** The body of decode after the reader is built; it steps back out of
      the root struct. */
  method Read(rd: Reader) returns (r: Option<NetworkGraphDTO>)
    requires rd.Valid() && Fresh(rd)
    modifies rd
    ensures r == FromStream(old(rd.levels[0].rest))
    ensures rd.Valid() && (r.Some? ==> rd.Depth() == 0)
  {
    var item := rd.Next();
    var ok := rd.StepIn();
    if !ok {
      return None;
    }
    var graphNodes :- NextListOf(rd, TimescaleGraphNode.FromStructByName);
    var graphEdges :- NextListOf(rd, TimescaleGraphEdge.FromStructByName);
    ok := rd.StepOut();
    return Some(NetworkGraphDTO(graphNodes, graphEdges));
  }

  method Decode(data: seq<byte>) returns (r: Option<NetworkGraphDTO>)
    ensures r == FromBytes(data)
  {
    var s := IonBytes.Parse(data);
    if s.None? {
      return None;
    }
    var rd := new Reader(s.value);
    r := Read(rd);
  }

  lemma RoundTrip(x: NetworkGraphDTO)
    ensures FromBytes(ToBytes(x)) == Some(x)
  {
    ReadChildren(x);
    IonBytes.ParseSerialize([ToElem(x)]);
  }

  /** The wire order: the children of the root struct, value by value. */
  lemma Layout(x: NetworkGraphDTO)
    ensures Children(ToElem(x))
            == [List(MapElems(x.graphNodes, TimescaleGraphNode.ToElem))] + [List(MapElems(x.graphEdges, TimescaleGraphEdge.ToElem))]
  {
    var fields := [Field("graph_nodes", List(MapElems(x.graphNodes, TimescaleGraphNode.ToElem))), Field("graph_edges", List(MapElems(x.graphEdges, TimescaleGraphEdge.ToElem)))];
    assert Values(fields) == [List(MapElems(x.graphNodes, TimescaleGraphNode.ToElem))] + [List(MapElems(x.graphEdges, TimescaleGraphEdge.ToElem))];
  }

  /** The children of the encoded root read back field by field. */
  lemma ReadChildren(x: NetworkGraphDTO)
    ensures FromChildren(Children(ToElem(x))) == Some(x)
  {
    var rest1 := [List(MapElems(x.graphEdges, TimescaleGraphEdge.ToElem))];
    var v := Children(ToElem(x));
    Layout(x);
    assert ListOf(v, TimescaleGraphNode.FromStructByName) == Some(Codec.Read(x.graphNodes, rest1)) by {
      TimescaleGraphNode.NestedListOf(x.graphNodes, rest1);
    }
    assert ListOf(rest1, TimescaleGraphEdge.FromStructByName) == Some(Codec.Read(x.graphEdges, [])) by {
      TimescaleGraphEdge.NestedListOf(x.graphEdges, []);
      assert [List(MapElems(x.graphEdges, TimescaleGraphEdge.ToElem))] + [] == [List(MapElems(x.graphEdges, TimescaleGraphEdge.ToElem))];
    }
    Steps(v, rest1, x);
  }

  /** `FromChildren` read off from what each of its steps yields. */
  lemma Steps(v: seq<Elem>, rest1: seq<Elem>, x: NetworkGraphDTO)
    requires ListOf(v, TimescaleGraphNode.FromStructByName) == Some(Codec.Read(x.graphNodes, rest1))
    requires ListOf(rest1, TimescaleGraphEdge.FromStructByName) == Some(Codec.Read(x.graphEdges, []))
    ensures FromChildren(v) == Some(x)
  {
  }
}
