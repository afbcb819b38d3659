/** `NetworkBandwidthPerProtocolFiltersDTO` of the reporter API
    (network_bandwidth_per_protocol/network_bandwidth_per_protocol_filters.rs): which endpoints
    to include or exclude, and optional bounds on the bytes. */
module ReporterBandwidthPerProtocolFilters {
  import opened Wrappers
  import opened Ion
  import opened IonWriter
  import opened IonReader
  import opened Codec
  import IonBytes

  const DATA_TYPE: string := "network_bandwidth_per_protocol_filters"

  datatype NetworkBandwidthPerProtocolFiltersDTO = NetworkBandwidthPerProtocolFiltersDTO(endpoints: seq<string>, includeEndpointsMode: Option<bool>, bytesLowerBound: Option<i64>, bytesUpperBound: Option<i64>)

  /** The wire layout, in one struct: the endpoints mode, followed by its list only when the mode is set
      (a null bool otherwise), then the two bounds, each an integer or a null integer. */
  function ToElem(x: NetworkBandwidthPerProtocolFiltersDTO): Elem
  {
    Struct(FlagFields("include_endpoints_mode", "endpoints", x.includeEndpointsMode, MapElems(x.endpoints, StringElem))
           + [Field("bytes_lower_bound", OptI64Elem(x.bytesLowerBound)),
            Field("bytes_upper_bound", OptI64Elem(x.bytesUpperBound))])
  }

  function ToBytes(x: NetworkBandwidthPerProtocolFiltersDTO): seq<byte>
  {
    IonBytes.Serialize([ToElem(x)])
  }

  /** What decode reads from the children of the root, by position. */
  function FromChildren(v: seq<Elem>): Option<NetworkBandwidthPerProtocolFiltersDTO>
  {
    var endpoints :- Flagged(v, AsString);
    var bytesLowerBound :- Nullable(endpoints.rest, AsI64);
    var bytesUpperBound :- Nullable(bytesLowerBound.rest, AsI64);
    Some(NetworkBandwidthPerProtocolFiltersDTO(endpoints.value.1, endpoints.value.0, bytesLowerBound.value, bytesUpperBound.value))
  }

  function FromStream(s: seq<Elem>): Option<NetworkBandwidthPerProtocolFiltersDTO>
  {
    var v :- Root(s);
    FromChildren(v)
  }

  function FromBytes(b: seq<byte>): Option<NetworkBandwidthPerProtocolFiltersDTO>
  {
    var s :- IonBytes.Parse(b);
    FromStream(s)
  }

  method Encode(x: NetworkBandwidthPerProtocolFiltersDTO) returns (bytes: seq<byte>)
    ensures bytes == ToBytes(x)
  {
    var w := new Writer();
    w.StepIn(StructType);
    ghost var layout := ToElem(x).fields;
    Started(w, layout);
    ghost var endpointsFields := FlagFields("include_endpoints_mode", "endpoints", x.includeEndpointsMode, MapElems(x.endpoints, StringElem));
    ghost var bytesLowerBoundFields := [Field("bytes_lower_bound", OptI64Elem(x.bytesLowerBound)), Field("bytes_upper_bound", OptI64Elem(x.bytesUpperBound))];
    assert layout == endpointsFields + bytesLowerBoundFields;
    Front(endpointsFields, bytesLowerBoundFields);
    PutFlagStrings(w, "include_endpoints_mode", "endpoints", x.includeEndpointsMode, x.endpoints, layout);
    PutOptI64(w, "bytes_lower_bound", x.bytesLowerBound, layout);
    PutOptI64(w, "bytes_upper_bound", x.bytesUpperBound, layout);
    bytes := Finish(w, layout);
  }

  /** The body of decode after the reader is built; it never steps out of
      the root struct. */
  method Read(rd: Reader) returns (r: Option<NetworkBandwidthPerProtocolFiltersDTO>)
    requires rd.Valid() && Fresh(rd)
    modifies rd
    ensures r == FromStream(old(rd.levels[0].rest))
    ensures rd.Valid() && (r.Some? ==> rd.Depth() == 1)
  {
    var item := rd.Next();
    var ok := rd.StepIn();
    if !ok {
      return None;
    }
    var endpoints :- NextFlagStrings(rd);
    var bytesLowerBound :- NextOptI64(rd);
    var bytesUpperBound :- NextOptI64(rd);
    return Some(NetworkBandwidthPerProtocolFiltersDTO(endpoints.1, endpoints.0, bytesLowerBound, bytesUpperBound));
  }

  method Decode(data: seq<byte>) returns (r: Option<NetworkBandwidthPerProtocolFiltersDTO>)
    ensures r == FromBytes(data)
  {
    var s := IonBytes.Parse(data);
    if s.None? {
      return None;
    }
    var rd := new Reader(s.value);
    r := Read(rd);
  }

  /** The values encode can reproduce: a list held with no mode is not
      written, so it must be empty. */
  predicate Canonical(x: NetworkBandwidthPerProtocolFiltersDTO)
  {
    (x.includeEndpointsMode.None? ==> x.endpoints == [])
  }

  /** `x` with every list that has no mode emptied. */
  function Normal(x: NetworkBandwidthPerProtocolFiltersDTO): (y: NetworkBandwidthPerProtocolFiltersDTO)
    ensures Canonical(y)
    ensures y == x <==> Canonical(x)
  {
    x.(endpoints := if x.includeEndpointsMode.Some? then x.endpoints else [])
  }

  /** decode(encode(x)) is `x` with the lists that have no mode emptied. */
  lemma Reencode(x: NetworkBandwidthPerProtocolFiltersDTO)
    ensures FromBytes(ToBytes(x)) == Some(Normal(x))
  {
    ReadChildren(x);
    IonBytes.ParseSerialize([ToElem(x)]);
  }

  /** The wire order: the children of the root struct, value by value. */
  lemma Layout(x: NetworkBandwidthPerProtocolFiltersDTO)
    ensures Children(ToElem(x))
            == Values(FlagFields("include_endpoints_mode", "endpoints", x.includeEndpointsMode, MapElems(x.endpoints, StringElem))) + ([OptI64Elem(x.bytesLowerBound)] + [OptI64Elem(x.bytesUpperBound)])
  {
    var endpointsFields := FlagFields("include_endpoints_mode", "endpoints", x.includeEndpointsMode, MapElems(x.endpoints, StringElem));
    var bytesLowerBoundFields := [Field("bytes_lower_bound", OptI64Elem(x.bytesLowerBound)), Field("bytes_upper_bound", OptI64Elem(x.bytesUpperBound))];
    ValuesAppend(endpointsFields, bytesLowerBoundFields);
    assert Values(bytesLowerBoundFields) == [OptI64Elem(x.bytesLowerBound)] + [OptI64Elem(x.bytesUpperBound)];
  }

  /** The children of the encoded root read back field by field. */
  lemma ReadChildren(x: NetworkBandwidthPerProtocolFiltersDTO)
    ensures FromChildren(Children(ToElem(x))) == Some(Normal(x))
  {
    var endpointsFields := FlagFields("include_endpoints_mode", "endpoints", x.includeEndpointsMode, MapElems(x.endpoints, StringElem));
    var rest2 := [OptI64Elem(x.bytesUpperBound)];
    var rest1 := [OptI64Elem(x.bytesLowerBound)] + rest2;
    var v := Children(ToElem(x));
    var y := Normal(x);
    Layout(x);
    assert Flagged(v, AsString) == Some(Codec.Read((y.includeEndpointsMode, y.endpoints), rest1)) by {
      FlaggedFlagFields("include_endpoints_mode", "endpoints", x.includeEndpointsMode, x.endpoints, StringElem, AsString, rest1);
    }
    assert Nullable(rest1, AsI64) == Some(Codec.Read(y.bytesLowerBound, rest2)) by {
      NullableOptI64(x.bytesLowerBound, rest2);
    }
    assert Nullable(rest2, AsI64) == Some(Codec.Read(y.bytesUpperBound, [])) by {
      NullableOptI64(x.bytesUpperBound, []);
      assert [OptI64Elem(x.bytesUpperBound)] + [] == [OptI64Elem(x.bytesUpperBound)];
    }
    Steps(v, rest1, rest2, y);
  }

  /** `FromChildren` read off from what each of its steps yields. */
  lemma Steps(v: seq<Elem>, rest1: seq<Elem>, rest2: seq<Elem>, x: NetworkBandwidthPerProtocolFiltersDTO)
    requires Flagged(v, AsString) == Some(Codec.Read((x.includeEndpointsMode, x.endpoints), rest1))
    requires Nullable(rest1, AsI64) == Some(Codec.Read(x.bytesLowerBound, rest2))
    requires Nullable(rest2, AsI64) == Some(Codec.Read(x.bytesUpperBound, []))
    ensures FromChildren(v) == Some(x)
  {
  }

  lemma RoundTrip(x: NetworkBandwidthPerProtocolFiltersDTO)
    requires Canonical(x)
    ensures FromBytes(ToBytes(x)) == Some(x)
  {
    Reencode(x);
  }

  /** A list held with no mode does not survive the round trip. */
  lemma ListWithoutModeIsLost(x: NetworkBandwidthPerProtocolFiltersDTO)
    requires !Canonical(x)
    ensures FromBytes(ToBytes(x)) != Some(x)
  {
    Reencode(x);
  }

  /** How a parent carries this DTO: one blob holding its encoding. */
  function BlobOf(x: NetworkBandwidthPerProtocolFiltersDTO): Elem
  {
    Blob(ToBytes(x))
  }

  /** How a parent reads it back: `as_blob().unwrap()`, then decode. */
  function FromBlob(e: Elem): Option<NetworkBandwidthPerProtocolFiltersDTO>
  {
    var b :- AsBlob(e);
    FromBytes(b)
  }

  lemma BlobReencode(x: NetworkBandwidthPerProtocolFiltersDTO)
    ensures FromBlob(BlobOf(x)) == Some(Normal(x))
  {
    Reencode(x);
  }

  lemma BlobRoundTrip(x: NetworkBandwidthPerProtocolFiltersDTO)
    requires Canonical(x)
    ensures FromBlob(BlobOf(x)) == Some(x)
  {
    RoundTrip(x);
  }

  /** A parent reading one of these: `next`, `read_blob().unwrap()`, decode. */
  method NextOne(rd: Reader) returns (r: Option<NetworkBandwidthPerProtocolFiltersDTO>)
    requires rd.Valid()
    modifies rd
    ensures Stayed(rd) && Got(r, rd.Here().rest) == Scalar(old(rd.Here().rest), FromBlob)
  {
    var b :- NextBlob(rd);
    r := Decode(b);
  }
}
