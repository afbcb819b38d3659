/** `GraphEdgeDTO` of the timescale API, as `NetworkGraphDTO` (network_graph/network_graph.rs)
    writes it inline: a source, a destination and the communication types between
    them. The edge's own file and codec are not part of this model. */
module TimescaleGraphEdge {
  import opened Wrappers
  import opened Ion
  import opened IonWriter
  import opened IonReader
  import opened Codec
  import IonBytes

  datatype GraphEdgeDTO = GraphEdgeDTO(srcId: string, dstId: string, communicationTypes: seq<string>)

  /** The wire layout: one struct holding "src_id", "dst_id" and "communication_types", in that order. */
  function ToElem(x: GraphEdgeDTO): Elem
  {
    Struct([Field("src_id", String(x.srcId)),
            Field("dst_id", String(x.dstId)),
            Field("communication_types", List(MapElems(x.communicationTypes, StringElem)))])
  }

  /** A parent decoding one of these from a list element by field name:
      `as_struct().unwrap()`, then `get(name).unwrap()` and the accessor for
      each field; a missing field or a value of another type is a failure. */
  function FromStructByName(e: Elem): Option<GraphEdgeDTO>
  {
    var fs :- AsStruct(e);
    var srcIdValue :- Get(fs, "src_id");
    var srcId :- AsString(srcIdValue);
    var dstIdValue :- Get(fs, "dst_id");
    var dstId :- AsString(dstIdValue);
    var communicationTypesValue :- Get(fs, "communication_types");
    var communicationTypesItems :- AsSequence(communicationTypesValue);
    var communicationTypes :- MapAll(communicationTypesItems, AsString);
    Some(GraphEdgeDTO(srcId, dstId, communicationTypes))
  }

  /** What `FromStructByName` needs of a struct to read back `x`: each name
      finds the value encode writes for it. */
  lemma ByNameFrom(fs: seq<Field>, x: GraphEdgeDTO)
    requires Get(fs, "src_id") == Some(String(x.srcId))
    requires Get(fs, "dst_id") == Some(String(x.dstId))
    requires Get(fs, "communication_types") == Some(List(MapElems(x.communicationTypes, StringElem)))
    ensures FromStructByName(Struct(fs)) == Some(x)
  {
    MapAllMapElems(x.communicationTypes, StringElem, AsString);
  }

  /** Looking up "src_id" and "dst_id" in the fields encode writes. */
  lemma FoundByName1(x: GraphEdgeDTO)
    ensures Get(ToElem(x).fields, "src_id") == Some(String(x.srcId))
    ensures Get(ToElem(x).fields, "dst_id") == Some(String(x.dstId))
  {
    var fs := ToElem(x).fields;
    GetFirst(fs, 0, "src_id");
    GetFirst(fs, 1, "dst_id");
  }

  /** Looking up "communication_types" in the fields encode writes. */
  lemma FoundByName2(x: GraphEdgeDTO)
    ensures Get(ToElem(x).fields, "communication_types") == Some(List(MapElems(x.communicationTypes, StringElem)))
  {
    var fs := ToElem(x).fields;
    GetFirst(fs, 2, "communication_types");
  }

  /** Written inline, one of these reads back by name as itself. */
  lemma ByNameRoundTrip(x: GraphEdgeDTO)
    ensures FromStructByName(ToElem(x)) == Some(x)
  {
    FoundByName1(x);
    FoundByName2(x);
    ByNameFrom(ToElem(x).fields, x);
  }

  /** A list of these written inline reads back, element by element, as itself. */
  lemma NestedListOf(xs: seq<GraphEdgeDTO>, rest: seq<Elem>)
    ensures ListOf([List(MapElems(xs, ToElem))] + rest, FromStructByName) == Some(Codec.Read(xs, rest))
  {
    forall k | 0 <= k < |xs|
      ensures FromStructByName(ToElem(xs[k])) == Some(xs[k])
    {
      ByNameRoundTrip(xs[k]);
    }
    ListOfElems(xs, ToElem, FromStructByName, rest);
  }

  /** One of these written inline as a list element: `step_in(Struct)`, the
      fields in order, `step_out`. */
  method WriteNested(w: Writer, x: GraphEdgeDTO)
    requires InList(w.St()) && w.fieldName.None?
    modifies w
    ensures w.St() == Emit(old(w.St()), ToElem(x)) && w.output == old(w.output)
  {
    ghost var inner := ToElem(x).fields;
    w.StepIn(StructType);
    PutString(w, "src_id", x.srcId, inner);
    PutString(w, "dst_id", x.dstId, inner);
    PutStrings(w, "communication_types", x.communicationTypes, inner);
    assert inner[..|inner|] == inner;
    w.StepOut();
  }

  /** `for_each(|x| ...)` writing each of `xs` inline into an open list, in order. */
  method WriteNestedAll(w: Writer, xs: seq<GraphEdgeDTO>)
    requires InList(w.St()) && w.fieldName.None?
    modifies w
    ensures w.St() == Into(old(w.St()), MapElems(xs, ToElem))
    ensures w.output == old(w.output)
  {
    ghost var s0 := w.St();
    IntoNone(s0);
    for i := 0 to |xs|
      invariant w.St() == Into(s0, MapElems(xs[..i], ToElem))
      invariant w.output == old(w.output)
    {
      assert xs[..i + 1][..i] == xs[..i];
      IntoEmit(s0, MapElems(xs[..i], ToElem), ToElem(xs[i]));
      WriteNested(w, xs[i]);
    }
    assert xs[..|xs|] == xs;
  }

  /** A parent writing a list of these inline under `n`: `set_field_name(n)`,
      `step_in(List)`, each element as `WriteNested` in order, `step_out`. */
  method PutNestedAll(w: Writer, n: string, xs: seq<GraphEdgeDTO>, ghost layout: seq<Field>)
    requires Expects(w, layout, Field(n, List(MapElems(xs, ToElem))))
    modifies w
    ensures Filling(w, layout) && OneMore(w)
  {
    ghost var s := w.St();
    ghost var es := MapElems(xs, ToElem);
    BeginList(w, n);
    WriteNestedAll(w, xs);
    assert [] + es == es;
    EndList(w, n, es, s, layout);
  }
}
