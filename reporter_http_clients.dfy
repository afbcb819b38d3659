/** `HttpClientsDTO` of the reporter API (http_clients/http_clients.rs): the clients,
    each carried as the blob of its own encoding. */
module ReporterHttpClients {
  import opened Wrappers
  import opened Ion
  import opened IonWriter
  import opened IonReader
  import opened Codec
  import IonBytes
  import ReporterHttpClient

  const DATA_TYPE: string := "http_clients"

  datatype HttpClientsDTO = HttpClientsDTO(httpClients: seq<ReporterHttpClient.HttpClientDTO>)

  /** The wire layout: one struct holding the single field "http_clients". */
  function ToElem(x: HttpClientsDTO): Elem
  {
    Struct([Field("http_clients", List(MapElems(x.httpClients, ReporterHttpClient.BlobOf)))])
  }

  function ToBytes(x: HttpClientsDTO): seq<byte>
  {
    IonBytes.Serialize([ToElem(x)])
  }

  /** What decode reads from the children of the root, by position. */
  function FromChildren(v: seq<Elem>): Option<HttpClientsDTO>
  {
    var httpClients :- ListOf(v, ReporterHttpClient.FromBlob);
    Some(HttpClientsDTO(httpClients.value))
  }

  function FromStream(s: seq<Elem>): Option<HttpClientsDTO>
  {
    var v :- Root(s);
    FromChildren(v)
  }

  function FromBytes(b: seq<byte>): Option<HttpClientsDTO>
  {
    var s :- IonBytes.Parse(b);
    FromStream(s)
  }

  method Encode(x: HttpClientsDTO) returns (bytes: seq<byte>)
    ensures bytes == ToBytes(x)
  {
    var w := new Writer();
    w.StepIn(StructType);
    ghost var layout := ToElem(x).fields;
    Started(w, layout);
    var httpClientsBytes := ReporterHttpClient.EncodeAll(x.httpClients);
    assert MapElems(httpClientsBytes, BlobElem) == MapElems(x.httpClients, ReporterHttpClient.BlobOf);
    PutBlobs(w, "http_clients", httpClientsBytes, layout);
    bytes := Finish(w, layout);
  }

  /** The body of decode after the reader is built; it steps out of
      neither the list nor the root struct. */
  method Read(rd: Reader) returns (r: Option<HttpClientsDTO>)
    requires rd.Valid() && Fresh(rd)
    modifies rd
    ensures r == FromStream(old(rd.levels[0].rest))
    ensures rd.Valid() && (r.Some? ==> rd.Depth() == 2)
  {
    var item := rd.Next();
    var ok := rd.StepIn();
    if !ok {
      return None;
    }
    var httpClientsElements :- EnterElements(rd);
    var httpClients :- ReporterHttpClient.DecodeAll(httpClientsElements);
    return Some(HttpClientsDTO(httpClients));
  }

  method Decode(data: seq<byte>) returns (r: Option<HttpClientsDTO>)
    ensures r == FromBytes(data)
  {
    var s := IonBytes.Parse(data);
    if s.None? {
      return None;
    }
    var rd := new Reader(s.value);
    r := Read(rd);
  }

  lemma RoundTrip(x: HttpClientsDTO)
    ensures FromBytes(ToBytes(x)) == Some(x)
  {
    IonBytes.ParseSerialize([ToElem(x)]);
    var v := Children(ToElem(x));
    assert v == [List(MapElems(x.httpClients, ReporterHttpClient.BlobOf))] + [];
    forall k | 0 <= k < |x.httpClients|
      ensures ReporterHttpClient.FromBlob(ReporterHttpClient.BlobOf(x.httpClients[k])) == Some(x.httpClients[k])
    {
      ReporterHttpClient.BlobRoundTrip(x.httpClients[k]);
    }
    ListOfElems(x.httpClients, ReporterHttpClient.BlobOf, ReporterHttpClient.FromBlob, []);
  }
}
