/** `HttpResponsesDTO` of the reporter API (http_responses/http_responses.rs): responses,
    each carried as the blob of its own encoding; duplicates are kept. */
module ReporterHttpResponses {
  import opened Wrappers
  import opened Ion
  import opened IonWriter
  import opened IonReader
  import opened Codec
  import IonBytes
  import ReporterHttpResponse

  const DATA_TYPE: string := "http_responses"

  datatype HttpResponsesDTO = HttpResponsesDTO(httpResponses: seq<ReporterHttpResponse.HttpResponseDTO>)

  /** The wire layout: one struct holding the single field "http_responses". */
  function ToElem(x: HttpResponsesDTO): Elem
  {
    Struct([Field("http_responses", List(MapElems(x.httpResponses, ReporterHttpResponse.BlobOf)))])
  }

  function ToBytes(x: HttpResponsesDTO): seq<byte>
  {
    IonBytes.Serialize([ToElem(x)])
  }

  /** What decode reads from the children of the root, by position. */
  function FromChildren(v: seq<Elem>): Option<HttpResponsesDTO>
  {
    var httpResponses :- ListOf(v, ReporterHttpResponse.FromBlob);
    Some(HttpResponsesDTO(httpResponses.value))
  }

  function FromStream(s: seq<Elem>): Option<HttpResponsesDTO>
  {
    var v :- Root(s);
    FromChildren(v)
  }

  function FromBytes(b: seq<byte>): Option<HttpResponsesDTO>
  {
    var s :- IonBytes.Parse(b);
    FromStream(s)
  }

  method Encode(x: HttpResponsesDTO) returns (bytes: seq<byte>)
    ensures bytes == ToBytes(x)
  {
    var w := new Writer();
    w.StepIn(StructType);
    ghost var layout := ToElem(x).fields;
    Started(w, layout);
    var httpResponsesBytes := ReporterHttpResponse.EncodeAll(x.httpResponses);
    assert MapElems(httpResponsesBytes, BlobElem) == MapElems(x.httpResponses, ReporterHttpResponse.BlobOf);
    PutBlobs(w, "http_responses", httpResponsesBytes, layout);
    bytes := Finish(w, layout);
  }

  /** The body of decode after the reader is built; it steps out of
      neither the list nor the root struct. */
  method Read(rd: Reader) returns (r: Option<HttpResponsesDTO>)
    requires rd.Valid() && Fresh(rd)
    modifies rd
    ensures r == FromStream(old(rd.levels[0].rest))
    ensures rd.Valid() && (r.Some? ==> rd.Depth() == 2)
  {
    var item := rd.Next();
    var ok := rd.StepIn();
    if !ok {
      return None;
    }
    var httpResponsesElements :- EnterElements(rd);
    var httpResponses :- ReporterHttpResponse.DecodeAll(httpResponsesElements);
    return Some(HttpResponsesDTO(httpResponses));
  }

  method Decode(data: seq<byte>) returns (r: Option<HttpResponsesDTO>)
    ensures r == FromBytes(data)
  {
    var s := IonBytes.Parse(data);
    if s.None? {
      return None;
    }
    var rd := new Reader(s.value);
    r := Read(rd);
  }

  lemma RoundTrip(x: HttpResponsesDTO)
    ensures FromBytes(ToBytes(x)) == Some(x)
  {
    IonBytes.ParseSerialize([ToElem(x)]);
    var v := Children(ToElem(x));
    assert v == [List(MapElems(x.httpResponses, ReporterHttpResponse.BlobOf))] + [];
    forall k | 0 <= k < |x.httpResponses|
      ensures ReporterHttpResponse.FromBlob(ReporterHttpResponse.BlobOf(x.httpResponses[k])) == Some(x.httpResponses[k])
    {
      ReporterHttpResponse.BlobRoundTrip(x.httpResponses[k]);
    }
    ListOfElems(x.httpResponses, ReporterHttpResponse.BlobOf, ReporterHttpResponse.FromBlob, []);
  }
}
