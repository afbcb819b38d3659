/** `HttpResponsesDistDTO` of the reporter API (http_responses_dist/http_responses_dist.rs):
    response-code buckets, each carried as the blob of its own encoding. */
module ReporterHttpResponsesDist {
  import opened Wrappers
  import opened Ion
  import opened IonWriter
  import opened IonReader
  import opened Codec
  import IonBytes
  import ReporterHttpResponsesBucket

  const DATA_TYPE: string := "http_responses_dist"

  datatype HttpResponsesDistDTO = HttpResponsesDistDTO(httpResponsesBuckets: seq<ReporterHttpResponsesBucket.HttpResponsesBucketDTO>)

  /** The wire layout: one struct holding the single field "http_responses_buckets". */
  function ToElem(x: HttpResponsesDistDTO): Elem
  {
    Struct([Field("http_responses_buckets", List(MapElems(x.httpResponsesBuckets, ReporterHttpResponsesBucket.BlobOf)))])
  }

  function ToBytes(x: HttpResponsesDistDTO): seq<byte>
  {
    IonBytes.Serialize([ToElem(x)])
  }

  /** What decode reads from the children of the root, by position. */
  function FromChildren(v: seq<Elem>): Option<HttpResponsesDistDTO>
  {
    var httpResponsesBuckets :- ListOf(v, ReporterHttpResponsesBucket.FromBlob);
    Some(HttpResponsesDistDTO(httpResponsesBuckets.value))
  }

  function FromStream(s: seq<Elem>): Option<HttpResponsesDistDTO>
  {
    var v :- Root(s);
    FromChildren(v)
  }

  function FromBytes(b: seq<byte>): Option<HttpResponsesDistDTO>
  {
    var s :- IonBytes.Parse(b);
    FromStream(s)
  }

  method Encode(x: HttpResponsesDistDTO) returns (bytes: seq<byte>)
    ensures bytes == ToBytes(x)
  {
    var w := new Writer();
    w.StepIn(StructType);
    ghost var layout := ToElem(x).fields;
    Started(w, layout);
    var httpResponsesBucketsBytes := ReporterHttpResponsesBucket.EncodeAll(x.httpResponsesBuckets);
    assert MapElems(httpResponsesBucketsBytes, BlobElem) == MapElems(x.httpResponsesBuckets, ReporterHttpResponsesBucket.BlobOf);
    PutBlobs(w, "http_responses_buckets", httpResponsesBucketsBytes, layout);
    bytes := Finish(w, layout);
  }

  /** The body of decode after the reader is built; it steps out of
      neither the list nor the root struct. */
  method Read(rd: Reader) returns (r: Option<HttpResponsesDistDTO>)
    requires rd.Valid() && Fresh(rd)
    modifies rd
    ensures r == FromStream(old(rd.levels[0].rest))
    ensures rd.Valid() && (r.Some? ==> rd.Depth() == 2)
  {
    var item := rd.Next();
    var ok := rd.StepIn();
    if !ok {
      return None;
    }
    var httpResponsesBucketsElements :- EnterElements(rd);
    var httpResponsesBuckets :- ReporterHttpResponsesBucket.DecodeAll(httpResponsesBucketsElements);
    return Some(HttpResponsesDistDTO(httpResponsesBuckets));
  }

  method Decode(data: seq<byte>) returns (r: Option<HttpResponsesDistDTO>)
    ensures r == FromBytes(data)
  {
    var s := IonBytes.Parse(data);
    if s.None? {
      return None;
    }
    var rd := new Reader(s.value);
    r := Read(rd);
  }

  lemma RoundTrip(x: HttpResponsesDistDTO)
    ensures FromBytes(ToBytes(x)) == Some(x)
  {
    IonBytes.ParseSerialize([ToElem(x)]);
    var v := Children(ToElem(x));
    assert v == [List(MapElems(x.httpResponsesBuckets, ReporterHttpResponsesBucket.BlobOf))] + [];
    forall k | 0 <= k < |x.httpResponsesBuckets|
      ensures ReporterHttpResponsesBucket.FromBlob(ReporterHttpResponsesBucket.BlobOf(x.httpResponsesBuckets[k])) == Some(x.httpResponsesBuckets[k])
    {
      ReporterHttpResponsesBucket.BlobRoundTrip(x.httpResponsesBuckets[k]);
    }
    ListOfElems(x.httpResponsesBuckets, ReporterHttpResponsesBucket.BlobOf, ReporterHttpResponsesBucket.FromBlob, []);
  }
}
