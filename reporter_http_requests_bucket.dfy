/** `HttpRequestsBucketDTO` of the reporter API (total_http_requests/http_requests_bucket.rs):
    the requests counted in one time bucket. */
module ReporterHttpRequestsBucket {
  import opened Wrappers
  import opened Ion
  import opened IonWriter
  import opened IonReader
  import opened Codec
  import IonBytes

  const DATA_TYPE: string := "bucket"

  datatype HttpRequestsBucketDTO = HttpRequestsBucketDTO(bucketTimestamp: i64, totalRequests: i64)

  /** The wire layout: one struct holding "bucket_timestamp" and "total_requests", in that order. */
  function ToElem(x: HttpRequestsBucketDTO): Elem
  {
    Struct([Field("bucket_timestamp", Int(x.bucketTimestamp)),
            Field("total_requests", Int(x.totalRequests))])
  }

  function ToBytes(x: HttpRequestsBucketDTO): seq<byte>
  {
    IonBytes.Serialize([ToElem(x)])
  }

  /** What decode reads from the children of the root, by position. */
  function FromChildren(v: seq<Elem>): Option<HttpRequestsBucketDTO>
  {
    var bucketTimestamp :- Scalar(v, AsI64);
    var totalRequests :- Scalar(bucketTimestamp.rest, AsI64);
    Some(HttpRequestsBucketDTO(bucketTimestamp.value, totalRequests.value))
  }

  function FromStream(s: seq<Elem>): Option<HttpRequestsBucketDTO>
  {
    var v :- Root(s);
    FromChildren(v)
  }

  function FromBytes(b: seq<byte>): Option<HttpRequestsBucketDTO>
  {
    var s :- IonBytes.Parse(b);
    FromStream(s)
  }

  method Encode(x: HttpRequestsBucketDTO) returns (bytes: seq<byte>)
    ensures bytes == ToBytes(x)
  {
    var w := new Writer();
    w.StepIn(StructType);
    ghost var layout := ToElem(x).fields;
    Started(w, layout);
    PutI64(w, "bucket_timestamp", x.bucketTimestamp, layout);
    PutI64(w, "total_requests", x.totalRequests, layout);
    bytes := Finish(w, layout);
  }

  /** The body of decode after the reader is built; it never steps out of
      the root struct. */
  method Read(rd: Reader) returns (r: Option<HttpRequestsBucketDTO>)
    requires rd.Valid() && Fresh(rd)
    modifies rd
    ensures r == FromStream(old(rd.levels[0].rest))
    ensures rd.Valid() && (r.Some? ==> rd.Depth() == 1)
  {
    var item := rd.Next();
    var ok := rd.StepIn();
    if !ok {
      return None;
    }
    var bucketTimestamp :- NextI64(rd);
    var totalRequests :- NextI64(rd);
    return Some(HttpRequestsBucketDTO(bucketTimestamp, totalRequests));
  }

  method Decode(data: seq<byte>) returns (r: Option<HttpRequestsBucketDTO>)
    ensures r == FromBytes(data)
  {
    var s := IonBytes.Parse(data);
    if s.None? {
      return None;
    }
    var rd := new Reader(s.value);
    r := Read(rd);
  }

  lemma RoundTrip(x: HttpRequestsBucketDTO)
    ensures FromBytes(ToBytes(x)) == Some(x)
  {
    IonBytes.ParseSerialize([ToElem(x)]);
    assert Children(ToElem(x)) == [Int(x.bucketTimestamp), Int(x.totalRequests)];
  }

  /** How a parent carries this DTO: one blob holding its encoding. */
  function BlobOf(x: HttpRequestsBucketDTO): Elem
  {
    Blob(ToBytes(x))
  }

  /** How a parent reads it back: `as_blob().unwrap()`, then decode. */
  function FromBlob(e: Elem): Option<HttpRequestsBucketDTO>
  {
    var b :- AsBlob(e);
    FromBytes(b)
  }

  lemma BlobRoundTrip(x: HttpRequestsBucketDTO)
    ensures FromBlob(BlobOf(x)) == Some(x)
  {
    RoundTrip(x);
  }

  /** A parent's encode loop: each element encoded on its own, in order. */
  method EncodeAll(xs: seq<HttpRequestsBucketDTO>) returns (bs: seq<seq<byte>>)
    ensures |bs| == |xs| && forall k :: 0 <= k < |xs| ==> bs[k] == ToBytes(xs[k])
  {
    bs := [];
    for i := 0 to |xs|
      invariant |bs| == i && forall k :: 0 <= k < i ==> bs[k] == ToBytes(xs[k])
    {
      var b := Encode(xs[i]);
      bs := bs + [b];
    }
  }

  /** A parent's decode loop over `read_all_elements`: each element is
      `as_blob().unwrap()` and decoded, in order. */
  method DecodeAll(es: seq<Elem>) returns (r: Option<seq<HttpRequestsBucketDTO>>)
    ensures r == MapAll(es, FromBlob)
  {
    var acc: seq<HttpRequestsBucketDTO> := [];
    for i := 0 to |es|
      invariant MapAll(es[..i], FromBlob) == Some(acc)
    {
      assert es[..i + 1][..i] == es[..i];
      var b := AsBlob(es[i]);
      if b.None? {
        return None;
      }
      var x := Decode(b.value);
      if x.None? {
        return None;
      }
      acc := acc + [x.value];
    }
    assert es[..|es|] == es;
    return Some(acc);
  }

  /** A parent reading a list of these: `next`, `step_in`, the decode loop
      and `step_out`. */
  method NextAll(rd: Reader) returns (r: Option<seq<HttpRequestsBucketDTO>>)
    requires rd.Valid()
    modifies rd
    ensures Stayed(rd) && Got(r, rd.Here().rest) == ListOf(old(rd.Here().rest), FromBlob)
  {
    var es :- NextElements(rd);
    r := DecodeAll(es);
  }
}
