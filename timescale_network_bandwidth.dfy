/** `NetworkBandwidthDTO` of the timescale API (network_bandwidth/network_bandwidth.rs):
    bandwidth buckets, each carried as the blob of its own encoding. Its element type,
    the timescale `BandwidthBucketDTO`, is not part of this model; the reporter
    `BandwidthBucketDTO`, built from the same two arguments, stands in for it. */
module TimescaleNetworkBandwidth {
  import opened Wrappers
  import opened Ion
  import opened IonWriter
  import opened IonReader
  import opened Codec
  import IonBytes
  import ReporterBandwidthBucket

  const DATA_TYPE: string := "network_bandwidth"

  datatype NetworkBandwidthDTO = NetworkBandwidthDTO(bandwidthBuckets: seq<ReporterBandwidthBucket.BandwidthBucketDTO>)

  /** The wire layout: one struct holding the single field "bandwidth_buckets". */
  function ToElem(x: NetworkBandwidthDTO): Elem
  {
    Struct([Field("bandwidth_buckets", List(MapElems(x.bandwidthBuckets, ReporterBandwidthBucket.BlobOf)))])
  }

  function ToBytes(x: NetworkBandwidthDTO): seq<byte>
  {
    IonBytes.Serialize([ToElem(x)])
  }

  /** What decode reads from the children of the root, by position. */
  function FromChildren(v: seq<Elem>): Option<NetworkBandwidthDTO>
  {
    var bandwidthBuckets :- ListOf(v, ReporterBandwidthBucket.FromBlob);
    Some(NetworkBandwidthDTO(bandwidthBuckets.value))
  }

  function FromStream(s: seq<Elem>): Option<NetworkBandwidthDTO>
  {
    var v :- Root(s);
    FromChildren(v)
  }

  function FromBytes(b: seq<byte>): Option<NetworkBandwidthDTO>
  {
    var s :- IonBytes.Parse(b);
    FromStream(s)
  }

  method Encode(x: NetworkBandwidthDTO) returns (bytes: seq<byte>)
    ensures bytes == ToBytes(x)
  {
    var w := new Writer();
    w.StepIn(StructType);
    ghost var layout := ToElem(x).fields;
    Started(w, layout);
    var bandwidthBucketsBytes := ReporterBandwidthBucket.EncodeAll(x.bandwidthBuckets);
    assert MapElems(bandwidthBucketsBytes, BlobElem) == MapElems(x.bandwidthBuckets, ReporterBandwidthBucket.BlobOf);
    PutBlobs(w, "bandwidth_buckets", bandwidthBucketsBytes, layout);
    bytes := Finish(w, layout);
  }

  /** The body of decode after the reader is built; it steps out of
      neither the list nor the root struct. */
  method Read(rd: Reader) returns (r: Option<NetworkBandwidthDTO>)
    requires rd.Valid() && Fresh(rd)
    modifies rd
    ensures r == FromStream(old(rd.levels[0].rest))
    ensures rd.Valid() && (r.Some? ==> rd.Depth() == 2)
  {
    var item := rd.Next();
    var ok := rd.StepIn();
    if !ok {
      return None;
    }
    var bandwidthBucketsElements :- EnterElements(rd);
    var bandwidthBuckets :- ReporterBandwidthBucket.DecodeAll(bandwidthBucketsElements);
    return Some(NetworkBandwidthDTO(bandwidthBuckets));
  }

  method Decode(data: seq<byte>) returns (r: Option<NetworkBandwidthDTO>)
    ensures r == FromBytes(data)
  {
    var s := IonBytes.Parse(data);
    if s.None? {
      return None;
    }
    var rd := new Reader(s.value);
    r := Read(rd);
  }

  lemma RoundTrip(x: NetworkBandwidthDTO)
    ensures FromBytes(ToBytes(x)) == Some(x)
  {
    IonBytes.ParseSerialize([ToElem(x)]);
    var v := Children(ToElem(x));
    assert v == [List(MapElems(x.bandwidthBuckets, ReporterBandwidthBucket.BlobOf))] + [];
    forall k | 0 <= k < |x.bandwidthBuckets|
      ensures ReporterBandwidthBucket.FromBlob(ReporterBandwidthBucket.BlobOf(x.bandwidthBuckets[k])) == Some(x.bandwidthBuckets[k])
    {
      ReporterBandwidthBucket.BlobRoundTrip(x.bandwidthBuckets[k]);
    }
    ListOfElems(x.bandwidthBuckets, ReporterBandwidthBucket.BlobOf, ReporterBandwidthBucket.FromBlob, []);
  }
}
