/** `GraphEdgeDTO` of the reporter API (network_graph/graph_edge.rs): a weighted
    edge between two nodes. */
module ReporterGraphEdge {
  import opened Wrappers
  import opened Ion
  import opened IonWriter
  import opened IonReader
  import opened Codec
  import IonBytes

  const DATA_TYPE: string := "graph_edge"

  datatype GraphEdgeDTO = GraphEdgeDTO(srcId: string, dstId: string, value: i64)

  /** The wire layout: one struct holding "src_id", "dst_id" and "value", in that order. */
  function ToElem(x: GraphEdgeDTO): Elem
  {
    Struct([Field("src_id", String(x.srcId)),
            Field("dst_id", String(x.dstId)),
            Field("value", Int(x.value))])
  }

  function ToBytes(x: GraphEdgeDTO): seq<byte>
  {
    IonBytes.Serialize([ToElem(x)])
  }

  /** What decode reads from the children of the root, by position. */
  function FromChildren(v: seq<Elem>): Option<GraphEdgeDTO>
  {
    var srcId :- Scalar(v, AsString);
    var dstId :- Scalar(srcId.rest, AsString);
    var value :- Scalar(dstId.rest, AsI64);
    Some(GraphEdgeDTO(srcId.value, dstId.value, value.value))
  }

  function FromStream(s: seq<Elem>): Option<GraphEdgeDTO>
  {
    var v :- Root(s);
    FromChildren(v)
  }

  function FromBytes(b: seq<byte>): Option<GraphEdgeDTO>
  {
    var s :- IonBytes.Parse(b);
    FromStream(s)
  }

  method Encode(x: GraphEdgeDTO) returns (bytes: seq<byte>)
    ensures bytes == ToBytes(x)
  {
    var w := new Writer();
    w.StepIn(StructType);
    ghost var layout := ToElem(x).fields;
    Started(w, layout);
    PutString(w, "src_id", x.srcId, layout);
    PutString(w, "dst_id", x.dstId, layout);
    PutI64(w, "value", x.value, layout);
    bytes := Finish(w, layout);
  }

  /** The body of decode after the reader is built; it steps back out of
      the root struct. */
  method Read(rd: Reader) returns (r: Option<GraphEdgeDTO>)
    requires rd.Valid() && Fresh(rd)
    modifies rd
    ensures r == FromStream(old(rd.levels[0].rest))
    ensures rd.Valid() && (r.Some? ==> rd.Depth() == 0)
  {
    var item := rd.Next();
    var ok := rd.StepIn();
    if !ok {
      return None;
    }
    var srcId :- NextString(rd);
    var dstId :- NextString(rd);
    var value :- NextI64(rd);
    ok := rd.StepOut();
    return Some(GraphEdgeDTO(srcId, dstId, value));
  }

  method Decode(data: seq<byte>) returns (r: Option<GraphEdgeDTO>)
    ensures r == FromBytes(data)
  {
    var s := IonBytes.Parse(data);
    if s.None? {
      return None;
    }
    var rd := new Reader(s.value);
    r := Read(rd);
  }

  lemma RoundTrip(x: GraphEdgeDTO)
    ensures FromBytes(ToBytes(x)) == Some(x)
  {
    IonBytes.ParseSerialize([ToElem(x)]);
    assert Children(ToElem(x)) == [String(x.srcId), String(x.dstId), Int(x.value)];
  }

  /** How a parent carries this DTO: one blob holding its encoding. */
  function BlobOf(x: GraphEdgeDTO): Elem
  {
    Blob(ToBytes(x))
  }

  /** How a parent reads it back: `as_blob().unwrap()`, then decode. */
  function FromBlob(e: Elem): Option<GraphEdgeDTO>
  {
    var b :- AsBlob(e);
    FromBytes(b)
  }

  lemma BlobRoundTrip(x: GraphEdgeDTO)
    ensures FromBlob(BlobOf(x)) == Some(x)
  {
    RoundTrip(x);
  }

  /** A parent's encode loop: each element encoded on its own, in order. */
  method EncodeAll(xs: seq<GraphEdgeDTO>) returns (bs: seq<seq<byte>>)
    ensures |bs| == |xs| && forall k :: 0 <= k < |xs| ==> bs[k] == ToBytes(xs[k])
  {
    bs := [];
    for i := 0 to |xs|
      invariant |bs| == i && forall k :: 0 <= k < i ==> bs[k] == ToBytes(xs[k])
    {
      var b := Encode(xs[i]);
      bs := bs + [b];
    }
  }

  /** A parent's decode loop over `read_all_elements`: each element is
      `as_blob().unwrap()` and decoded, in order. */
  method DecodeAll(es: seq<Elem>) returns (r: Option<seq<GraphEdgeDTO>>)
    ensures r == MapAll(es, FromBlob)
  {
    var acc: seq<GraphEdgeDTO> := [];
    for i := 0 to |es|
      invariant MapAll(es[..i], FromBlob) == Some(acc)
    {
      assert es[..i + 1][..i] == es[..i];
      var b := AsBlob(es[i]);
      if b.None? {
        return None;
      }
      var x := Decode(b.value);
      if x.None? {
        return None;
      }
      acc := acc + [x.value];
    }
    assert es[..|es|] == es;
    return Some(acc);
  }

  /** A parent reading a list of these: `next`, `step_in`, the decode loop
      and `step_out`. */
  method NextAll(rd: Reader) returns (r: Option<seq<GraphEdgeDTO>>)
    requires rd.Valid()
    modifies rd
    ensures Stayed(rd) && Got(r, rd.Here().rest) == ListOf(old(rd.Here().rest), FromBlob)
  {
    var es :- NextElements(rd);
    r := DecodeAll(es);
  }
}
