/** `NetworkBandwidthPerProtocolDTO` of the reporter API
    (network_bandwidth_per_protocol/network_bandwidth_per_protocol.rs): the protocols,
    each carried as the blob of its own encoding. */
module ReporterBandwidthPerProtocol {
  import opened Wrappers
  import opened Ion
  import opened IonWriter
  import opened IonReader
  import opened Codec
  import IonBytes
  import ReporterProtocol

  const DATA_TYPE: string := "network_bandwidth_per_protocol"

  datatype NetworkBandwidthPerProtocolDTO = NetworkBandwidthPerProtocolDTO(protocols: seq<ReporterProtocol.ProtocolDTO>)

  /** The wire layout: one struct holding the single field "protocols". */
  function ToElem(x: NetworkBandwidthPerProtocolDTO): Elem
  {
    Struct([Field("protocols", List(MapElems(x.protocols, ReporterProtocol.BlobOf)))])
  }

  function ToBytes(x: NetworkBandwidthPerProtocolDTO): seq<byte>
  {
    IonBytes.Serialize([ToElem(x)])
  }

  /** What decode reads from the children of the root, by position. */
  function FromChildren(v: seq<Elem>): Option<NetworkBandwidthPerProtocolDTO>
  {
    var protocols :- ListOf(v, ReporterProtocol.FromBlob);
    Some(NetworkBandwidthPerProtocolDTO(protocols.value))
  }

  function FromStream(s: seq<Elem>): Option<NetworkBandwidthPerProtocolDTO>
  {
    var v :- Root(s);
    FromChildren(v)
  }

  function FromBytes(b: seq<byte>): Option<NetworkBandwidthPerProtocolDTO>
  {
    var s :- IonBytes.Parse(b);
    FromStream(s)
  }

  method Encode(x: NetworkBandwidthPerProtocolDTO) returns (bytes: seq<byte>)
    ensures bytes == ToBytes(x)
  {
    var w := new Writer();
    w.StepIn(StructType);
    ghost var layout := ToElem(x).fields;
    Started(w, layout);
    var protocolsBytes := ReporterProtocol.EncodeAll(x.protocols);
    assert MapElems(protocolsBytes, BlobElem) == MapElems(x.protocols, ReporterProtocol.BlobOf);
    PutBlobs(w, "protocols", protocolsBytes, layout);
    bytes := Finish(w, layout);
  }

  /** The body of decode after the reader is built; it steps out of
      neither the list nor the root struct. */
  method Read(rd: Reader) returns (r: Option<NetworkBandwidthPerProtocolDTO>)
    requires rd.Valid() && Fresh(rd)
    modifies rd
    ensures r == FromStream(old(rd.levels[0].rest))
    ensures rd.Valid() && (r.Some? ==> rd.Depth() == 2)
  {
    var item := rd.Next();
    var ok := rd.StepIn();
    if !ok {
      return None;
    }
    var protocolsElements :- EnterElements(rd);
    var protocols :- ReporterProtocol.DecodeAll(protocolsElements);
    return Some(NetworkBandwidthPerProtocolDTO(protocols));
  }

  method Decode(data: seq<byte>) returns (r: Option<NetworkBandwidthPerProtocolDTO>)
    ensures r == FromBytes(data)
  {
    var s := IonBytes.Parse(data);
    if s.None? {
      return None;
    }
    var rd := new Reader(s.value);
    r := Read(rd);
  }

  lemma RoundTrip(x: NetworkBandwidthPerProtocolDTO)
    ensures FromBytes(ToBytes(x)) == Some(x)
  {
    IonBytes.ParseSerialize([ToElem(x)]);
    var v := Children(ToElem(x));
    assert v == [List(MapElems(x.protocols, ReporterProtocol.BlobOf))] + [];
    forall k | 0 <= k < |x.protocols|
      ensures ReporterProtocol.FromBlob(ReporterProtocol.BlobOf(x.protocols[k])) == Some(x.protocols[k])
    {
      ReporterProtocol.BlobRoundTrip(x.protocols[k]);
    }
    ListOfElems(x.protocols, ReporterProtocol.BlobOf, ReporterProtocol.FromBlob, []);
  }
}
