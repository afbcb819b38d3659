/** `HttpRequestMethodsDistributionDTO` of the reporter API
    (http_request_methods_distribution/http_request_methods_distribution.rs): one count
    per HTTP method, each carried as the blob of its own encoding. */
module ReporterHttpRequestMethodsDistribution {
  import opened Wrappers
  import opened Ion
  import opened IonWriter
  import opened IonReader
  import opened Codec
  import IonBytes
  import ReporterHttpRequestMethod

  const DATA_TYPE: string := "http_request_methods_distribution"

  datatype HttpRequestMethodsDistributionDTO = HttpRequestMethodsDistributionDTO(httpRequests: seq<ReporterHttpRequestMethod.HttpRequestMethodDTO>)

  /** The wire layout: one struct holding the single field "http_requests". */
  function ToElem(x: HttpRequestMethodsDistributionDTO): Elem
  {
    Struct([Field("http_requests", List(MapElems(x.httpRequests, ReporterHttpRequestMethod.BlobOf)))])
  }

  function ToBytes(x: HttpRequestMethodsDistributionDTO): seq<byte>
  {
    IonBytes.Serialize([ToElem(x)])
  }

  /** What decode reads from the children of the root, by position. */
  function FromChildren(v: seq<Elem>): Option<HttpRequestMethodsDistributionDTO>
  {
    var httpRequests :- ListOf(v, ReporterHttpRequestMethod.FromBlob);
    Some(HttpRequestMethodsDistributionDTO(httpRequests.value))
  }

  function FromStream(s: seq<Elem>): Option<HttpRequestMethodsDistributionDTO>
  {
    var v :- Root(s);
    FromChildren(v)
  }

  function FromBytes(b: seq<byte>): Option<HttpRequestMethodsDistributionDTO>
  {
    var s :- IonBytes.Parse(b);
    FromStream(s)
  }

  method Encode(x: HttpRequestMethodsDistributionDTO) returns (bytes: seq<byte>)
    ensures bytes == ToBytes(x)
  {
    var w := new Writer();
    w.StepIn(StructType);
    ghost var layout := ToElem(x).fields;
    Started(w, layout);
    var httpRequestsBytes := ReporterHttpRequestMethod.EncodeAll(x.httpRequests);
    assert MapElems(httpRequestsBytes, BlobElem) == MapElems(x.httpRequests, ReporterHttpRequestMethod.BlobOf);
    PutBlobs(w, "http_requests", httpRequestsBytes, layout);
    bytes := Finish(w, layout);
  }

  /** The body of decode after the reader is built; it steps back out of
      the root struct. */
  method Read(rd: Reader) returns (r: Option<HttpRequestMethodsDistributionDTO>)
    requires rd.Valid() && Fresh(rd)
    modifies rd
    ensures r == FromStream(old(rd.levels[0].rest))
    ensures rd.Valid() && (r.Some? ==> rd.Depth() == 0)
  {
    var item := rd.Next();
    var ok := rd.StepIn();
    if !ok {
      return None;
    }
    var httpRequests :- ReporterHttpRequestMethod.NextAll(rd);
    ok := rd.StepOut();
    return Some(HttpRequestMethodsDistributionDTO(httpRequests));
  }

  method Decode(data: seq<byte>) returns (r: Option<HttpRequestMethodsDistributionDTO>)
    ensures r == FromBytes(data)
  {
    var s := IonBytes.Parse(data);
    if s.None? {
      return None;
    }
    var rd := new Reader(s.value);
    r := Read(rd);
  }

  lemma RoundTrip(x: HttpRequestMethodsDistributionDTO)
    ensures FromBytes(ToBytes(x)) == Some(x)
  {
    IonBytes.ParseSerialize([ToElem(x)]);
    var v := Children(ToElem(x));
    assert v == [List(MapElems(x.httpRequests, ReporterHttpRequestMethod.BlobOf))] + [];
    forall k | 0 <= k < |x.httpRequests|
      ensures ReporterHttpRequestMethod.FromBlob(ReporterHttpRequestMethod.BlobOf(x.httpRequests[k])) == Some(x.httpRequests[k])
    {
      ReporterHttpRequestMethod.BlobRoundTrip(x.httpRequests[k]);
    }
    ListOfElems(x.httpRequests, ReporterHttpRequestMethod.BlobOf, ReporterHttpRequestMethod.FromBlob, []);
  }
}
