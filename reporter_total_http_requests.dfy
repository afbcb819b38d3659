/** `TotalHttpRequestsDTO` of the reporter API (total_http_requests/total_http_requests.rs):
    request-count buckets, each carried as the blob of its own encoding. */
module ReporterTotalHttpRequests {
  import opened Wrappers
  import opened Ion
  import opened IonWriter
  import opened IonReader
  import opened Codec
  import IonBytes
  import ReporterHttpRequestsBucket

  const DATA_TYPE: string := "total_http_requests"

  datatype TotalHttpRequestsDTO = TotalHttpRequestsDTO(httpRequestsBuckets: seq<ReporterHttpRequestsBucket.HttpRequestsBucketDTO>)

  /** The wire layout: one struct holding the single field "http_requests_buckets". */
  function ToElem(x: TotalHttpRequestsDTO): Elem
  {
    Struct([Field("http_requests_buckets", List(MapElems(x.httpRequestsBuckets, ReporterHttpRequestsBucket.BlobOf)))])
  }

  function ToBytes(x: TotalHttpRequestsDTO): seq<byte>
  {
    IonBytes.Serialize([ToElem(x)])
  }

  /** What decode reads from the children of the root, by position. */
  function FromChildren(v: seq<Elem>): Option<TotalHttpRequestsDTO>
  {
    var httpRequestsBuckets :- ListOf(v, ReporterHttpRequestsBucket.FromBlob);
    Some(TotalHttpRequestsDTO(httpRequestsBuckets.value))
  }

  function FromStream(s: seq<Elem>): Option<TotalHttpRequestsDTO>
  {
    var v :- Root(s);
    FromChildren(v)
  }

  function FromBytes(b: seq<byte>): Option<TotalHttpRequestsDTO>
  {
    var s :- IonBytes.Parse(b);
    FromStream(s)
  }

  method Encode(x: TotalHttpRequestsDTO) returns (bytes: seq<byte>)
    ensures bytes == ToBytes(x)
  {
    var w := new Writer();
    w.StepIn(StructType);
    ghost var layout := ToElem(x).fields;
    Started(w, layout);
    var httpRequestsBucketsBytes := ReporterHttpRequestsBucket.EncodeAll(x.httpRequestsBuckets);
    assert MapElems(httpRequestsBucketsBytes, BlobElem) == MapElems(x.httpRequestsBuckets, ReporterHttpRequestsBucket.BlobOf);
    PutBlobs(w, "http_requests_buckets", httpRequestsBucketsBytes, layout);
    bytes := Finish(w, layout);
  }

  /** The body of decode after the reader is built; it steps out of
      neither the list nor the root struct. */
  method Read(rd: Reader) returns (r: Option<TotalHttpRequestsDTO>)
    requires rd.Valid() && Fresh(rd)
    modifies rd
    ensures r == FromStream(old(rd.levels[0].rest))
    ensures rd.Valid() && (r.Some? ==> rd.Depth() == 2)
  {
    var item := rd.Next();
    var ok := rd.StepIn();
    if !ok {
      return None;
    }
    var httpRequestsBucketsElements :- EnterElements(rd);
    var httpRequestsBuckets :- ReporterHttpRequestsBucket.DecodeAll(httpRequestsBucketsElements);
    return Some(TotalHttpRequestsDTO(httpRequestsBuckets));
  }

  method Decode(data: seq<byte>) returns (r: Option<TotalHttpRequestsDTO>)
    ensures r == FromBytes(data)
  {
    var s := IonBytes.Parse(data);
    if s.None? {
      return None;
    }
    var rd := new Reader(s.value);
    r := Read(rd);
  }

  lemma RoundTrip(x: TotalHttpRequestsDTO)
    ensures FromBytes(ToBytes(x)) == Some(x)
  {
    IonBytes.ParseSerialize([ToElem(x)]);
    var v := Children(ToElem(x));
    assert v == [List(MapElems(x.httpRequestsBuckets, ReporterHttpRequestsBucket.BlobOf))] + [];
    forall k | 0 <= k < |x.httpRequestsBuckets|
      ensures ReporterHttpRequestsBucket.FromBlob(ReporterHttpRequestsBucket.BlobOf(x.httpRequestsBuckets[k])) == Some(x.httpRequestsBuckets[k])
    {
      ReporterHttpRequestsBucket.BlobRoundTrip(x.httpRequestsBuckets[k]);
    }
    ListOfElems(x.httpRequestsBuckets, ReporterHttpRequestsBucket.BlobOf, ReporterHttpRequestsBucket.FromBlob, []);
  }
}
