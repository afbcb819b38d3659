/** `EndpointDTO` of the reporter API (network_bandwidth_per_endpoint/endpoint.rs):
    the bytes one endpoint received and sent. */
module ReporterEndpoint {
  import opened Wrappers
  import opened Ion
  import opened IonWriter
  import opened IonReader
  import opened Codec
  import IonBytes

  const DATA_TYPE: string := "endpoint"

  datatype EndpointDTO = EndpointDTO(id: string, totalBytesReceived: i64, totalBytesSent: i64)

  /** The wire layout: one struct holding "id", "total_bytes_received" and "total_bytes_sent", in that order. */
  function ToElem(x: EndpointDTO): Elem
  {
    Struct([Field("id", String(x.id)),
            Field("total_bytes_received", Int(x.totalBytesReceived)),
            Field("total_bytes_sent", Int(x.totalBytesSent))])
  }

  function ToBytes(x: EndpointDTO): seq<byte>
  {
    IonBytes.Serialize([ToElem(x)])
  }

  /** What decode reads from the children of the root, by position. */
  function FromChildren(v: seq<Elem>): Option<EndpointDTO>
  {
    var id :- Scalar(v, AsString);
    var totalBytesReceived :- Scalar(id.rest, AsI64);
    var totalBytesSent :- Scalar(totalBytesReceived.rest, AsI64);
    Some(EndpointDTO(id.value, totalBytesReceived.value, totalBytesSent.value))
  }

  function FromStream(s: seq<Elem>): Option<EndpointDTO>
  {
    var v :- Root(s);
    FromChildren(v)
  }

  function FromBytes(b: seq<byte>): Option<EndpointDTO>
  {
    var s :- IonBytes.Parse(b);
    FromStream(s)
  }

  method Encode(x: EndpointDTO) returns (bytes: seq<byte>)
    ensures bytes == ToBytes(x)
  {
    var w := new Writer();
    w.StepIn(StructType);
    ghost var layout := ToElem(x).fields;
    Started(w, layout);
    PutString(w, "id", x.id, layout);
    PutI64(w, "total_bytes_received", x.totalBytesReceived, layout);
    PutI64(w, "total_bytes_sent", x.totalBytesSent, layout);
    bytes := Finish(w, layout);
  }

  /** The body of decode after the reader is built; it never steps out of
      the root struct. */
  method Read(rd: Reader) returns (r: Option<EndpointDTO>)
    requires rd.Valid() && Fresh(rd)
    modifies rd
    ensures r == FromStream(old(rd.levels[0].rest))
    ensures rd.Valid() && (r.Some? ==> rd.Depth() == 1)
  {
    var item := rd.Next();
    var ok := rd.StepIn();
    if !ok {
      return None;
    }
    var id :- NextString(rd);
    var totalBytesReceived :- NextI64(rd);
    var totalBytesSent :- NextI64(rd);
    return Some(EndpointDTO(id, totalBytesReceived, totalBytesSent));
  }

  method Decode(data: seq<byte>) returns (r: Option<EndpointDTO>)
    ensures r == FromBytes(data)
  {
    var s := IonBytes.Parse(data);
    if s.None? {
      return None;
    }
    var rd := new Reader(s.value);
    r := Read(rd);
  }

  lemma RoundTrip(x: EndpointDTO)
    ensures FromBytes(ToBytes(x)) == Some(x)
  {
    IonBytes.ParseSerialize([ToElem(x)]);
    assert Children(ToElem(x)) == [String(x.id), Int(x.totalBytesReceived), Int(x.totalBytesSent)];
  }

  /** How a parent carries this DTO: one blob holding its encoding. */
  function BlobOf(x: EndpointDTO): Elem
  {
    Blob(ToBytes(x))
  }

  /** How a parent reads it back: `as_blob().unwrap()`, then decode. */
  function FromBlob(e: Elem): Option<EndpointDTO>
  {
    var b :- AsBlob(e);
    FromBytes(b)
  }

  lemma BlobRoundTrip(x: EndpointDTO)
    ensures FromBlob(BlobOf(x)) == Some(x)
  {
    RoundTrip(x);
  }

  /** A parent's encode loop: each element encoded on its own, in order. */
  method EncodeAll(xs: seq<EndpointDTO>) returns (bs: seq<seq<byte>>)
    ensures |bs| == |xs| && forall k :: 0 <= k < |xs| ==> bs[k] == ToBytes(xs[k])
  {
    bs := [];
    for i := 0 to |xs|
      invariant |bs| == i && forall k :: 0 <= k < i ==> bs[k] == ToBytes(xs[k])
    {
      var b := Encode(xs[i]);
      bs := bs + [b];
    }
  }

  /** A parent's decode loop over `read_all_elements`: each element is
      `as_blob().unwrap()` and decoded, in order. */
  method DecodeAll(es: seq<Elem>) returns (r: Option<seq<EndpointDTO>>)
    ensures r == MapAll(es, FromBlob)
  {
    var acc: seq<EndpointDTO> := [];
    for i := 0 to |es|
      invariant MapAll(es[..i], FromBlob) == Some(acc)
    {
      assert es[..i + 1][..i] == es[..i];
      var b := AsBlob(es[i]);
      if b.None? {
        return None;
      }
      var x := Decode(b.value);
      if x.None? {
        return None;
      }
      acc := acc + [x.value];
    }
    assert es[..|es|] == es;
    return Some(acc);
  }

  /** A parent reading a list of these: `next`, `step_in`, the decode loop
      and `step_out`. */
  method NextAll(rd: Reader) returns (r: Option<seq<EndpointDTO>>)
    requires rd.Valid()
    modifies rd
    ensures Stayed(rd) && Got(r, rd.Here().rest) == ListOf(old(rd.Here().rest), FromBlob)
  {
    var es :- NextElements(rd);
    r := DecodeAll(es);
  }
}
