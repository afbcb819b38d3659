/** `NetworkGraphDTO` of the reporter API (network_graph/network_graph.rs): the nodes
    and then the edges, each element carried as the blob of its own encoding. */
module ReporterNetworkGraph {
  import opened Wrappers
  import opened Ion
  import opened IonWriter
  import opened IonReader
  import opened Codec
  import IonBytes
  import ReporterGraphEdge
  import ReporterGraphNode

  const DATA_TYPE: string := "network_graph"

  datatype NetworkGraphDTO = NetworkGraphDTO(graphNodes: seq<ReporterGraphNode.GraphNodeDTO>, graphEdges: seq<ReporterGraphEdge.GraphEdgeDTO>)

  /** The wire layout: one struct holding "graph_nodes" and "graph_edges", in that order. */
  function ToElem(x: NetworkGraphDTO): Elem
  {
    Struct([Field("graph_nodes", List(MapElems(x.graphNodes, ReporterGraphNode.BlobOf))),
            Field("graph_edges", List(MapElems(x.graphEdges, ReporterGraphEdge.BlobOf)))])
  }

  function ToBytes(x: NetworkGraphDTO): seq<byte>
  {
    IonBytes.Serialize([ToElem(x)])
  }

  /** What decode reads from the children of the root, by position. */
  function FromChildren(v: seq<Elem>): Option<NetworkGraphDTO>
  {
    var graphNodes :- ListOf(v, ReporterGraphNode.FromBlob);
    var graphEdges :- ListOf(graphNodes.rest, ReporterGraphEdge.FromBlob);
    Some(NetworkGraphDTO(graphNodes.value, graphEdges.value))
  }

  function FromStream(s: seq<Elem>): Option<NetworkGraphDTO>
  {
    var v :- Root(s);
    FromChildren(v)
  }

  function FromBytes(b: seq<byte>): Option<NetworkGraphDTO>
  {
    var s :- IonBytes.Parse(b);
    FromStream(s)
  }

  method Encode(x: NetworkGraphDTO) returns (bytes: seq<byte>)
    ensures bytes == ToBytes(x)
  {
    var w := new Writer();
    w.StepIn(StructType);
    ghost var layout := ToElem(x).fields;
    Started(w, layout);
    var graphNodesBytes := ReporterGraphNode.EncodeAll(x.graphNodes);
    assert MapElems(graphNodesBytes, BlobElem) == MapElems(x.graphNodes, ReporterGraphNode.BlobOf);
    PutBlobs(w, "graph_nodes", graphNodesBytes, layout);
    var graphEdgesBytes := ReporterGraphEdge.EncodeAll(x.graphEdges);
    assert MapElems(graphEdgesBytes, BlobElem) == MapElems(x.graphEdges, ReporterGraphEdge.BlobOf);
    PutBlobs(w, "graph_edges", graphEdgesBytes, layout);
    bytes := Finish(w, layout);
  }

  /** The body of decode after the reader is built; it steps back out of
      the root struct. */
  method Read(rd: Reader) returns (r: Option<NetworkGraphDTO>)
    requires rd.Valid() && Fresh(rd)
    modifies rd
    ensures r == FromStream(old(rd.levels[0].rest))
    ensures rd.Valid() && (r.Some? ==> rd.Depth() == 0)
  {
    var item := rd.Next();
    var ok := rd.StepIn();
    if !ok {
      return None;
    }
    var graphNodes :- ReporterGraphNode.NextAll(rd);
    var graphEdges :- ReporterGraphEdge.NextAll(rd);
    ok := rd.StepOut();
    return Some(NetworkGraphDTO(graphNodes, graphEdges));
  }

  method Decode(data: seq<byte>) returns (r: Option<NetworkGraphDTO>)
    ensures r == FromBytes(data)
  {
    var s := IonBytes.Parse(data);
    if s.None? {
      return None;
    }
    var rd := new Reader(s.value);
    r := Read(rd);
  }

  lemma RoundTrip(x: NetworkGraphDTO)
    ensures FromBytes(ToBytes(x)) == Some(x)
  {
    IonBytes.ParseSerialize([ToElem(x)]);
    var v := Children(ToElem(x));
    assert v == [List(MapElems(x.graphNodes, ReporterGraphNode.BlobOf))] + ([List(MapElems(x.graphEdges, ReporterGraphEdge.BlobOf))] + []);
    forall k | 0 <= k < |x.graphNodes|
      ensures ReporterGraphNode.FromBlob(ReporterGraphNode.BlobOf(x.graphNodes[k])) == Some(x.graphNodes[k])
    {
      ReporterGraphNode.BlobRoundTrip(x.graphNodes[k]);
    }
    ListOfElems(x.graphNodes, ReporterGraphNode.BlobOf, ReporterGraphNode.FromBlob, [List(MapElems(x.graphEdges, ReporterGraphEdge.BlobOf))] + []);
    forall k | 0 <= k < |x.graphEdges|
      ensures ReporterGraphEdge.FromBlob(ReporterGraphEdge.BlobOf(x.graphEdges[k])) == Some(x.graphEdges[k])
    {
      ReporterGraphEdge.BlobRoundTrip(x.graphEdges[k]);
    }
    ListOfElems(x.graphEdges, ReporterGraphEdge.BlobOf, ReporterGraphEdge.FromBlob, []);
  }
}
