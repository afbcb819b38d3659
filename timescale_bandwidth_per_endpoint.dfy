/** `BandwidthPerEndpointDTO` of the timescale API
    (bandwidth_per_endpoint/bandwidth_per_endpoint.rs): the endpoints, each carried as
    the blob of its own encoding. Its element type, the timescale `EndpointDTO`, is
    not part of this model; the reporter `EndpointDTO`, built from the same three
    arguments, stands in for it. */
module TimescaleBandwidthPerEndpoint {
  import opened Wrappers
  import opened Ion
  import opened IonWriter
  import opened IonReader
  import opened Codec
  import IonBytes
  import ReporterEndpoint

  const DATA_TYPE: string := "bandwidth-per-endpoint"

  datatype BandwidthPerEndpointDTO = BandwidthPerEndpointDTO(endpoints: seq<ReporterEndpoint.EndpointDTO>)

  /** The wire layout: one struct holding the single field "endpoints". */
  function ToElem(x: BandwidthPerEndpointDTO): Elem
  {
    Struct([Field("endpoints", List(MapElems(x.endpoints, ReporterEndpoint.BlobOf)))])
  }

  function ToBytes(x: BandwidthPerEndpointDTO): seq<byte>
  {
    IonBytes.Serialize([ToElem(x)])
  }

  /** What decode reads from the children of the root, by position. */
  function FromChildren(v: seq<Elem>): Option<BandwidthPerEndpointDTO>
  {
    var endpoints :- ListOf(v, ReporterEndpoint.FromBlob);
    Some(BandwidthPerEndpointDTO(endpoints.value))
  }

  function FromStream(s: seq<Elem>): Option<BandwidthPerEndpointDTO>
  {
    var v :- Root(s);
    FromChildren(v)
  }

  function FromBytes(b: seq<byte>): Option<BandwidthPerEndpointDTO>
  {
    var s :- IonBytes.Parse(b);
    FromStream(s)
  }

  method Encode(x: BandwidthPerEndpointDTO) returns (bytes: seq<byte>)
    ensures bytes == ToBytes(x)
  {
    var w := new Writer();
    w.StepIn(StructType);
    ghost var layout := ToElem(x).fields;
    Started(w, layout);
    var endpointsBytes := ReporterEndpoint.EncodeAll(x.endpoints);
    assert MapElems(endpointsBytes, BlobElem) == MapElems(x.endpoints, ReporterEndpoint.BlobOf);
    PutBlobs(w, "endpoints", endpointsBytes, layout);
    bytes := Finish(w, layout);
  }

  /** The body of decode after the reader is built; it steps out of
      neither the list nor the root struct. */
  method Read(rd: Reader) returns (r: Option<BandwidthPerEndpointDTO>)
    requires rd.Valid() && Fresh(rd)
    modifies rd
    ensures r == FromStream(old(rd.levels[0].rest))
    ensures rd.Valid() && (r.Some? ==> rd.Depth() == 2)
  {
    var item := rd.Next();
    var ok := rd.StepIn();
    if !ok {
      return None;
    }
    var endpointsElements :- EnterElements(rd);
    var endpoints :- ReporterEndpoint.DecodeAll(endpointsElements);
    return Some(BandwidthPerEndpointDTO(endpoints));
  }

  method Decode(data: seq<byte>) returns (r: Option<BandwidthPerEndpointDTO>)
    ensures r == FromBytes(data)
  {
    var s := IonBytes.Parse(data);
    if s.None? {
      return None;
    }
    var rd := new Reader(s.value);
    r := Read(rd);
  }

  lemma RoundTrip(x: BandwidthPerEndpointDTO)
    ensures FromBytes(ToBytes(x)) == Some(x)
  {
    IonBytes.ParseSerialize([ToElem(x)]);
    var v := Children(ToElem(x));
    assert v == [List(MapElems(x.endpoints, ReporterEndpoint.BlobOf))] + [];
    forall k | 0 <= k < |x.endpoints|
      ensures ReporterEndpoint.FromBlob(ReporterEndpoint.BlobOf(x.endpoints[k])) == Some(x.endpoints[k])
    {
      ReporterEndpoint.BlobRoundTrip(x.endpoints[k]);
    }
    ListOfElems(x.endpoints, ReporterEndpoint.BlobOf, ReporterEndpoint.FromBlob, []);
  }
}
