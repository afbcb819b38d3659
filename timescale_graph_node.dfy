/** `GraphNodeDTO` of the timescale API (network_graph/graph_node.rs): a node and
    the agent that saw it. */
module TimescaleGraphNode {
  import opened Wrappers
  import opened Ion
  import opened IonWriter
  import opened IonReader
  import opened Codec
  import IonBytes

  const DATA_TYPE: string := "graph_node"

  datatype GraphNodeDTO = GraphNodeDTO(nodeId: string, agentId: string)

  /** The wire layout: one struct holding "node_id" and "agent_id", in that order. */
  function ToElem(x: GraphNodeDTO): Elem
  {
    Struct([Field("node_id", String(x.nodeId)),
            Field("agent_id", String(x.agentId))])
  }

  function ToBytes(x: GraphNodeDTO): seq<byte>
  {
    IonBytes.Serialize([ToElem(x)])
  }

  /** What decode reads from the children of the root, by position. */
  function FromChildren(v: seq<Elem>): Option<GraphNodeDTO>
  {
    var nodeId :- Scalar(v, AsString);
    var agentId :- Scalar(nodeId.rest, AsString);
    Some(GraphNodeDTO(nodeId.value, agentId.value))
  }

  function FromStream(s: seq<Elem>): Option<GraphNodeDTO>
  {
    var v :- Root(s);
    FromChildren(v)
  }

  function FromBytes(b: seq<byte>): Option<GraphNodeDTO>
  {
    var s :- IonBytes.Parse(b);
    FromStream(s)
  }

  method Encode(x: GraphNodeDTO) returns (bytes: seq<byte>)
    ensures bytes == ToBytes(x)
  {
    var w := new Writer();
    w.StepIn(StructType);
    ghost var layout := ToElem(x).fields;
    Started(w, layout);
    PutString(w, "node_id", x.nodeId, layout);
    PutString(w, "agent_id", x.agentId, layout);
    bytes := Finish(w, layout);
  }

  /** The body of decode after the reader is built; it never steps out of
      the root struct. */
  method Read(rd: Reader) returns (r: Option<GraphNodeDTO>)
    requires rd.Valid() && Fresh(rd)
    modifies rd
    ensures r == FromStream(old(rd.levels[0].rest))
    ensures rd.Valid() && (r.Some? ==> rd.Depth() == 1)
  {
    var item := rd.Next();
    var ok := rd.StepIn();
    if !ok {
      return None;
    }
    var nodeId :- NextString(rd);
    var agentId :- NextString(rd);
    return Some(GraphNodeDTO(nodeId, agentId));
  }

  method Decode(data: seq<byte>) returns (r: Option<GraphNodeDTO>)
    ensures r == FromBytes(data)
  {
    var s := IonBytes.Parse(data);
    if s.None? {
      return None;
    }
    var rd := new Reader(s.value);
    r := Read(rd);
  }

  lemma RoundTrip(x: GraphNodeDTO)
    ensures FromBytes(ToBytes(x)) == Some(x)
  {
    IonBytes.ParseSerialize([ToElem(x)]);
    assert Children(ToElem(x)) == [String(x.nodeId), String(x.agentId)];
  }

  /** A parent decoding one of these from a list element by field name:
      `as_struct().unwrap()`, then `get(name).unwrap()` and the accessor for
      each field; a missing field or a value of another type is a failure. */
  function FromStructByName(e: Elem): Option<GraphNodeDTO>
  {
    var fs :- AsStruct(e);
    var nodeIdValue :- Get(fs, "node_id");
    var nodeId :- AsString(nodeIdValue);
    var agentIdValue :- Get(fs, "agent_id");
    var agentId :- AsString(agentIdValue);
    Some(GraphNodeDTO(nodeId, agentId))
  }

  /** What `FromStructByName` needs of a struct to read back `x`: each name
      finds the value encode writes for it. */
  lemma ByNameFrom(fs: seq<Field>, x: GraphNodeDTO)
    requires Get(fs, "node_id") == Some(String(x.nodeId))
    requires Get(fs, "agent_id") == Some(String(x.agentId))
    ensures FromStructByName(Struct(fs)) == Some(x)
  {
  }

  /** Looking up "node_id" and "agent_id" in the fields encode writes. */
  lemma FoundByName(x: GraphNodeDTO)
    ensures Get(ToElem(x).fields, "node_id") == Some(String(x.nodeId))
    ensures Get(ToElem(x).fields, "agent_id") == Some(String(x.agentId))
  {
    var fs := ToElem(x).fields;
    GetFirst(fs, 0, "node_id");
    GetFirst(fs, 1, "agent_id");
  }

  /** Written inline, one of these reads back by name as itself. */
  lemma ByNameRoundTrip(x: GraphNodeDTO)
    ensures FromStructByName(ToElem(x)) == Some(x)
  {
    FoundByName(x);
    ByNameFrom(ToElem(x).fields, x);
  }

  /** A list of these written inline reads back, element by element, as itself. */
  lemma NestedListOf(xs: seq<GraphNodeDTO>, rest: seq<Elem>)
    ensures ListOf([List(MapElems(xs, ToElem))] + rest, FromStructByName) == Some(Codec.Read(xs, rest))
  {
    forall k | 0 <= k < |xs|
      ensures FromStructByName(ToElem(xs[k])) == Some(xs[k])
    {
      ByNameRoundTrip(xs[k]);
    }
    ListOfElems(xs, ToElem, FromStructByName, rest);
  }

  /** One of these written inline as a list element: `step_in(Struct)`, the
      fields in order, `step_out`. */
  method WriteNested(w: Writer, x: GraphNodeDTO)
    requires InList(w.St()) && w.fieldName.None?
    modifies w
    ensures w.St() == Emit(old(w.St()), ToElem(x)) && w.output == old(w.output)
  {
    ghost var inner := ToElem(x).fields;
    w.StepIn(StructType);
    PutString(w, "node_id", x.nodeId, inner);
    PutString(w, "agent_id", x.agentId, inner);
    assert inner[..|inner|] == inner;
    w.StepOut();
  }

  /** `for_each(|x| ...)` writing each of `xs` inline into an open list, in order. */
  method WriteNestedAll(w: Writer, xs: seq<GraphNodeDTO>)
    requires InList(w.St()) && w.fieldName.None?
    modifies w
    ensures w.St() == Into(old(w.St()), MapElems(xs, ToElem))
    ensures w.output == old(w.output)
  {
    ghost var s0 := w.St();
    IntoNone(s0);
    for i := 0 to |xs|
      invariant w.St() == Into(s0, MapElems(xs[..i], ToElem))
      invariant w.output == old(w.output)
    {
      assert xs[..i + 1][..i] == xs[..i];
      IntoEmit(s0, MapElems(xs[..i], ToElem), ToElem(xs[i]));
      WriteNested(w, xs[i]);
    }
    assert xs[..|xs|] == xs;
  }

  /** A parent writing a list of these inline under `n`: `set_field_name(n)`,
      `step_in(List)`, each element as `WriteNested` in order, `step_out`. */
  method PutNestedAll(w: Writer, n: string, xs: seq<GraphNodeDTO>, ghost layout: seq<Field>)
    requires Expects(w, layout, Field(n, List(MapElems(xs, ToElem))))
    modifies w
    ensures Filling(w, layout) && OneMore(w)
  {
    ghost var s := w.St();
    ghost var es := MapElems(xs, ToElem);
    BeginList(w, n);
    WriteNestedAll(w, xs);
    assert [] + es == es;
    EndList(w, n, es, s, layout);
  }
}
