/** `HttpResponseDTO` of the reporter API (http_responses/http_response.rs): one
    response code seen between a client and a server in a time bucket. */
module ReporterHttpResponse {
  import opened Wrappers
  import opened Ion
  import opened IonWriter
  import opened IonReader
  import opened Codec
  import IonBytes

  const DATA_TYPE: string := "http_client"

  datatype HttpResponseDTO = HttpResponseDTO(bucketTimestamp: i64, client: string, server: string, response: i64)

  /** The wire layout: one struct holding "bucket_timestamp", "client", "server" and "response", in that order. */
  function ToElem(x: HttpResponseDTO): Elem
  {
    Struct([Field("bucket_timestamp", Int(x.bucketTimestamp)),
            Field("client", String(x.client)),
            Field("server", String(x.server)),
            Field("response", Int(x.response))])
  }

  function ToBytes(x: HttpResponseDTO): seq<byte>
  {
    IonBytes.Serialize([ToElem(x)])
  }

  /** What decode reads from the children of the root, by position. */
  function FromChildren(v: seq<Elem>): Option<HttpResponseDTO>
  {
    var bucketTimestamp :- Scalar(v, AsI64);
    var client :- Scalar(bucketTimestamp.rest, AsString);
    var server :- Scalar(client.rest, AsString);
    var response :- Scalar(server.rest, AsI64);
    Some(HttpResponseDTO(bucketTimestamp.value, client.value, server.value, response.value))
  }

  function FromStream(s: seq<Elem>): Option<HttpResponseDTO>
  {
    var v :- Root(s);
    FromChildren(v)
  }

  function FromBytes(b: seq<byte>): Option<HttpResponseDTO>
  {
    var s :- IonBytes.Parse(b);
    FromStream(s)
  }

  method Encode(x: HttpResponseDTO) returns (bytes: seq<byte>)
    ensures bytes == ToBytes(x)
  {
    var w := new Writer();
    w.StepIn(StructType);
    ghost var layout := ToElem(x).fields;
    Started(w, layout);
    PutI64(w, "bucket_timestamp", x.bucketTimestamp, layout);
    PutString(w, "client", x.client, layout);
    PutString(w, "server", x.server, layout);
    PutI64(w, "response", x.response, layout);
    bytes := Finish(w, layout);
  }

  /** The body of decode after the reader is built; it steps back out of
      the root struct. */
  method Read(rd: Reader) returns (r: Option<HttpResponseDTO>)
    requires rd.Valid() && Fresh(rd)
    modifies rd
    ensures r == FromStream(old(rd.levels[0].rest))
    ensures rd.Valid() && (r.Some? ==> rd.Depth() == 0)
  {
    var item := rd.Next();
    var ok := rd.StepIn();
    if !ok {
      return None;
    }
    var bucketTimestamp :- NextI64(rd);
    var client :- NextString(rd);
    var server :- NextString(rd);
    var response :- NextI64(rd);
    ok := rd.StepOut();
    return Some(HttpResponseDTO(bucketTimestamp, client, server, response));
  }

  method Decode(data: seq<byte>) returns (r: Option<HttpResponseDTO>)
    ensures r == FromBytes(data)
  {
    var s := IonBytes.Parse(data);
    if s.None? {
      return None;
    }
    var rd := new Reader(s.value);
    r := Read(rd);
  }

  lemma RoundTrip(x: HttpResponseDTO)
    ensures FromBytes(ToBytes(x)) == Some(x)
  {
    IonBytes.ParseSerialize([ToElem(x)]);
    assert Children(ToElem(x)) == [Int(x.bucketTimestamp), String(x.client), String(x.server), Int(x.response)];
  }

  /** How a parent carries this DTO: one blob holding its encoding. */
  function BlobOf(x: HttpResponseDTO): Elem
  {
    Blob(ToBytes(x))
  }

  /** How a parent reads it back: `as_blob().unwrap()`, then decode. */
  function FromBlob(e: Elem): Option<HttpResponseDTO>
  {
    var b :- AsBlob(e);
    FromBytes(b)
  }

  lemma BlobRoundTrip(x: HttpResponseDTO)
    ensures FromBlob(BlobOf(x)) == Some(x)
  {
    RoundTrip(x);
  }

  /** A parent's encode loop: each element encoded on its own, in order. */
  method EncodeAll(xs: seq<HttpResponseDTO>) returns (bs: seq<seq<byte>>)
    ensures |bs| == |xs| && forall k :: 0 <= k < |xs| ==> bs[k] == ToBytes(xs[k])
  {
    bs := [];
    for i := 0 to |xs|
      invariant |bs| == i && forall k :: 0 <= k < i ==> bs[k] == ToBytes(xs[k])
    {
      var b := Encode(xs[i]);
      bs := bs + [b];
    }
  }

  /** A parent's decode loop over `read_all_elements`: each element is
      `as_blob().unwrap()` and decoded, in order. */
  method DecodeAll(es: seq<Elem>) returns (r: Option<seq<HttpResponseDTO>>)
    ensures r == MapAll(es, FromBlob)
  {
    var acc: seq<HttpResponseDTO> := [];
    for i := 0 to |es|
      invariant MapAll(es[..i], FromBlob) == Some(acc)
    {
      assert es[..i + 1][..i] == es[..i];
      var b := AsBlob(es[i]);
      if b.None? {
        return None;
      }
      var x := Decode(b.value);
      if x.None? {
        return None;
      }
      acc := acc + [x.value];
    }
    assert es[..|es|] == es;
    return Some(acc);
  }

  /** A parent reading a list of these: `next`, `step_in`, the decode loop
      and `step_out`. */
  method NextAll(rd: Reader) returns (r: Option<seq<HttpResponseDTO>>)
    requires rd.Valid()
    modifies rd
    ensures Stayed(rd) && Got(r, rd.Here().rest) == ListOf(old(rd.Here().rest), FromBlob)
  {
    var es :- NextElements(rd);
    r := DecodeAll(es);
  }
}
