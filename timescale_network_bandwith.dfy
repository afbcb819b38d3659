/** `NetworkBandwithDTO` of the timescale API (network_bandwith/network_bandwith.rs):
    bandwidth buckets, each carried as the blob of its own encoding. The type declares
    no type tag. */
module TimescaleNetworkBandwith {
  import opened Wrappers
  import opened Ion
  import opened IonWriter
  import opened IonReader
  import opened Codec
  import IonBytes
  import TimescaleBandwithBucket

  datatype NetworkBandwithDTO = NetworkBandwithDTO(bandwithBuckets: seq<TimescaleBandwithBucket.BandwithBucketDTO>)

  /** The wire layout: one struct holding the single field "bandwith_buckets". */
  function ToElem(x: NetworkBandwithDTO): Elem
  {
    Struct([Field("bandwith_buckets", List(MapElems(x.bandwithBuckets, TimescaleBandwithBucket.BlobOf)))])
  }

  function ToBytes(x: NetworkBandwithDTO): seq<byte>
  {
    IonBytes.Serialize([ToElem(x)])
  }

  /** What decode reads from the children of the root, by position. */
  function FromChildren(v: seq<Elem>): Option<NetworkBandwithDTO>
  {
    var bandwithBuckets :- ListOf(v, TimescaleBandwithBucket.FromBlob);
    Some(NetworkBandwithDTO(bandwithBuckets.value))
  }

  function FromStream(s: seq<Elem>): Option<NetworkBandwithDTO>
  {
    var v :- Root(s);
    FromChildren(v)
  }

  function FromBytes(b: seq<byte>): Option<NetworkBandwithDTO>
  {
    var s :- IonBytes.Parse(b);
    FromStream(s)
  }

  method Encode(x: NetworkBandwithDTO) returns (bytes: seq<byte>)
    ensures bytes == ToBytes(x)
  {
    var w := new Writer();
    w.StepIn(StructType);
    ghost var layout := ToElem(x).fields;
    Started(w, layout);
    var bandwithBucketsBytes := TimescaleBandwithBucket.EncodeAll(x.bandwithBuckets);
    assert MapElems(bandwithBucketsBytes, BlobElem) == MapElems(x.bandwithBuckets, TimescaleBandwithBucket.BlobOf);
    PutBlobs(w, "bandwith_buckets", bandwithBucketsBytes, layout);
    bytes := Finish(w, layout);
  }

  /** The body of decode after the reader is built; it steps out of
      neither the list nor the root struct. */
  method Read(rd: Reader) returns (r: Option<NetworkBandwithDTO>)
    requires rd.Valid() && Fresh(rd)
    modifies rd
    ensures r == FromStream(old(rd.levels[0].rest))
    ensures rd.Valid() && (r.Some? ==> rd.Depth() == 2)
  {
    var item := rd.Next();
    var ok := rd.StepIn();
    if !ok {
      return None;
    }
    var bandwithBucketsElements :- EnterElements(rd);
    var bandwithBuckets :- TimescaleBandwithBucket.DecodeAll(bandwithBucketsElements);
    return Some(NetworkBandwithDTO(bandwithBuckets));
  }

  method Decode(data: seq<byte>) returns (r: Option<NetworkBandwithDTO>)
    ensures r == FromBytes(data)
  {
    var s := IonBytes.Parse(data);
    if s.None? {
      return None;
    }
    var rd := new Reader(s.value);
    r := Read(rd);
  }

  lemma RoundTrip(x: NetworkBandwithDTO)
    ensures FromBytes(ToBytes(x)) == Some(x)
  {
    IonBytes.ParseSerialize([ToElem(x)]);
    var v := Children(ToElem(x));
    assert v == [List(MapElems(x.bandwithBuckets, TimescaleBandwithBucket.BlobOf))] + [];
    forall k | 0 <= k < |x.bandwithBuckets|
      ensures TimescaleBandwithBucket.FromBlob(TimescaleBandwithBucket.BlobOf(x.bandwithBuckets[k])) == Some(x.bandwithBuckets[k])
    {
      TimescaleBandwithBucket.BlobRoundTrip(x.bandwithBuckets[k]);
    }
    ListOfElems(x.bandwithBuckets, TimescaleBandwithBucket.BlobOf, TimescaleBandwithBucket.FromBlob, []);
  }
}
