/** `NetworkBandwidthFiltersDTO` of the reporter API (network_bandwidth/network_bandwidth_filters.rs):
    which protocols and endpoints to include or exclude. */
module ReporterBandwidthFilters {
  import opened Wrappers
  import opened Ion
  import opened IonWriter
  import opened IonReader
  import opened Codec
  import IonBytes

  const DATA_TYPE: string := "network_bandwidth_filters"

  datatype NetworkBandwidthFiltersDTO = NetworkBandwidthFiltersDTO(protocols: seq<string>, includeProtocolsMode: Option<bool>, endpoints: seq<string>, includeEndpointsMode: Option<bool>)

  /** The wire layout, in one struct: each mode, followed by its list only when the mode is set (a null
      bool otherwise). */
  function ToElem(x: NetworkBandwidthFiltersDTO): Elem
  {
    Struct(FlagFields("include_protocols_mode", "protocols", x.includeProtocolsMode, MapElems(x.protocols, StringElem))
           + FlagFields("include_endpoints_mode", "endpoints", x.includeEndpointsMode, MapElems(x.endpoints, StringElem)))
  }

  function ToBytes(x: NetworkBandwidthFiltersDTO): seq<byte>
  {
    IonBytes.Serialize([ToElem(x)])
  }

  /** What decode reads from the children of the root, by position. */
  function FromChildren(v: seq<Elem>): Option<NetworkBandwidthFiltersDTO>
  {
    var protocols :- Flagged(v, AsString);
    var endpoints :- Flagged(protocols.rest, AsString);
    Some(NetworkBandwidthFiltersDTO(protocols.value.1, protocols.value.0, endpoints.value.1, endpoints.value.0))
  }

  function FromStream(s: seq<Elem>): Option<NetworkBandwidthFiltersDTO>
  {
    var v :- Root(s);
    FromChildren(v)
  }

  function FromBytes(b: seq<byte>): Option<NetworkBandwidthFiltersDTO>
  {
    var s :- IonBytes.Parse(b);
    FromStream(s)
  }

  method Encode(x: NetworkBandwidthFiltersDTO) returns (bytes: seq<byte>)
    ensures bytes == ToBytes(x)
  {
    var w := new Writer();
    w.StepIn(StructType);
    ghost var layout := ToElem(x).fields;
    Started(w, layout);
    ghost var protocolsFields := FlagFields("include_protocols_mode", "protocols", x.includeProtocolsMode, MapElems(x.protocols, StringElem));
    ghost var endpointsFields := FlagFields("include_endpoints_mode", "endpoints", x.includeEndpointsMode, MapElems(x.endpoints, StringElem));
    assert layout == protocolsFields + endpointsFields;
    Front(protocolsFields, endpointsFields);
    PutFlagStrings(w, "include_protocols_mode", "protocols", x.includeProtocolsMode, x.protocols, layout);
    Segment(protocolsFields, endpointsFields, []);
    assert layout == protocolsFields + (endpointsFields + []);
    PutFlagStrings(w, "include_endpoints_mode", "endpoints", x.includeEndpointsMode, x.endpoints, layout);
    bytes := Finish(w, layout);
  }

  /** The body of decode after the reader is built; it never steps out of
      the root struct. */
  method Read(rd: Reader) returns (r: Option<NetworkBandwidthFiltersDTO>)
    requires rd.Valid() && Fresh(rd)
    modifies rd
    ensures r == FromStream(old(rd.levels[0].rest))
    ensures rd.Valid() && (r.Some? ==> rd.Depth() == 1)
  {
    var item := rd.Next();
    var ok := rd.StepIn();
    if !ok {
      return None;
    }
    var protocols :- NextFlagStrings(rd);
    var endpoints :- NextFlagStrings(rd);
    return Some(NetworkBandwidthFiltersDTO(protocols.1, protocols.0, endpoints.1, endpoints.0));
  }

  method Decode(data: seq<byte>) returns (r: Option<NetworkBandwidthFiltersDTO>)
    ensures r == FromBytes(data)
  {
    var s := IonBytes.Parse(data);
    if s.None? {
      return None;
    }
    var rd := new Reader(s.value);
    r := Read(rd);
  }

  /** The values encode can reproduce: a list held with no mode is not
      written, so it must be empty. */
  predicate Canonical(x: NetworkBandwidthFiltersDTO)
  {
    (x.includeProtocolsMode.None? ==> x.protocols == []) && (x.includeEndpointsMode.None? ==> x.endpoints == [])
  }

  /** `x` with every list that has no mode emptied. */
  function Normal(x: NetworkBandwidthFiltersDTO): (y: NetworkBandwidthFiltersDTO)
    ensures Canonical(y)
    ensures y == x <==> Canonical(x)
  {
    x.(protocols := if x.includeProtocolsMode.Some? then x.protocols else [], endpoints := if x.includeEndpointsMode.Some? then x.endpoints else [])
  }

  /** decode(encode(x)) is `x` with the lists that have no mode emptied. */
  lemma Reencode(x: NetworkBandwidthFiltersDTO)
    ensures FromBytes(ToBytes(x)) == Some(Normal(x))
  {
    ReadChildren(x);
    IonBytes.ParseSerialize([ToElem(x)]);
  }

  /** The wire order: the children of the root struct, value by value. */
  lemma Layout(x: NetworkBandwidthFiltersDTO)
    ensures Children(ToElem(x))
            == Values(FlagFields("include_protocols_mode", "protocols", x.includeProtocolsMode, MapElems(x.protocols, StringElem))) + Values(FlagFields("include_endpoints_mode", "endpoints", x.includeEndpointsMode, MapElems(x.endpoints, StringElem)))
  {
    var protocolsFields := FlagFields("include_protocols_mode", "protocols", x.includeProtocolsMode, MapElems(x.protocols, StringElem));
    var endpointsFields := FlagFields("include_endpoints_mode", "endpoints", x.includeEndpointsMode, MapElems(x.endpoints, StringElem));
    ValuesAppend(protocolsFields, endpointsFields);
  }

  /** The children of the encoded root read back field by field. */
  lemma ReadChildren(x: NetworkBandwidthFiltersDTO)
    ensures FromChildren(Children(ToElem(x))) == Some(Normal(x))
  {
    var protocolsFields := FlagFields("include_protocols_mode", "protocols", x.includeProtocolsMode, MapElems(x.protocols, StringElem));
    var endpointsFields := FlagFields("include_endpoints_mode", "endpoints", x.includeEndpointsMode, MapElems(x.endpoints, StringElem));
    var rest1 := Values(endpointsFields);
    var v := Children(ToElem(x));
    var y := Normal(x);
    Layout(x);
    assert Flagged(v, AsString) == Some(Codec.Read((y.includeProtocolsMode, y.protocols), rest1)) by {
      FlaggedFlagFields("include_protocols_mode", "protocols", x.includeProtocolsMode, x.protocols, StringElem, AsString, rest1);
    }
    assert Flagged(rest1, AsString) == Some(Codec.Read((y.includeEndpointsMode, y.endpoints), [])) by {
      FlaggedFlagFields("include_endpoints_mode", "endpoints", x.includeEndpointsMode, x.endpoints, StringElem, AsString, []);
      assert Values(endpointsFields) + [] == Values(endpointsFields);
    }
    Steps(v, rest1, y);
  }

  /** `FromChildren` read off from what each of its steps yields. */
  lemma Steps(v: seq<Elem>, rest1: seq<Elem>, x: NetworkBandwidthFiltersDTO)
    requires Flagged(v, AsString) == Some(Codec.Read((x.includeProtocolsMode, x.protocols), rest1))
    requires Flagged(rest1, AsString) == Some(Codec.Read((x.includeEndpointsMode, x.endpoints), []))
    ensures FromChildren(v) == Some(x)
  {
  }

  lemma RoundTrip(x: NetworkBandwidthFiltersDTO)
    requires Canonical(x)
    ensures FromBytes(ToBytes(x)) == Some(x)
  {
    Reencode(x);
  }

  /** A list held with no mode does not survive the round trip. */
  lemma ListWithoutModeIsLost(x: NetworkBandwidthFiltersDTO)
    requires !Canonical(x)
    ensures FromBytes(ToBytes(x)) != Some(x)
  {
    Reencode(x);
  }

  /** `From<&Self>`: a copy built from the getters, equal to the original. */
  function From(item: NetworkBandwidthFiltersDTO): (r: NetworkBandwidthFiltersDTO)
    ensures r == item
  {
    NetworkBandwidthFiltersDTO(item.protocols, item.includeProtocolsMode, item.endpoints, item.includeEndpointsMode)
  }

  /** How a parent carries this DTO: one blob holding its encoding. */
  function BlobOf(x: NetworkBandwidthFiltersDTO): Elem
  {
    Blob(ToBytes(x))
  }

  /** How a parent reads it back: `as_blob().unwrap()`, then decode. */
  function FromBlob(e: Elem): Option<NetworkBandwidthFiltersDTO>
  {
    var b :- AsBlob(e);
    FromBytes(b)
  }

  lemma BlobReencode(x: NetworkBandwidthFiltersDTO)
    ensures FromBlob(BlobOf(x)) == Some(Normal(x))
  {
    Reencode(x);
  }

  lemma BlobRoundTrip(x: NetworkBandwidthFiltersDTO)
    requires Canonical(x)
    ensures FromBlob(BlobOf(x)) == Some(x)
  {
    RoundTrip(x);
  }

  /** How a parent carries an optional one: its blob, or a null blob. */
  function OptBlobOf(o: Option<NetworkBandwidthFiltersDTO>): Elem
  {
    match o
    case Some(x) => BlobOf(x)
    case None => Elem.Null(BlobType)
  }

  function OptNormal(o: Option<NetworkBandwidthFiltersDTO>): (p: Option<NetworkBandwidthFiltersDTO>)
    ensures p.Some? <==> o.Some?
    ensures o.Some? ==> p.value == Normal(o.value)
  {
    match o
    case Some(x) => Some(Normal(x))
    case None => None
  }

  /** An optional one reads back as itself, normalised. */
  lemma NullableOptBlob(o: Option<NetworkBandwidthFiltersDTO>, rest: seq<Elem>)
    ensures Nullable([OptBlobOf(o)] + rest, FromBlob) == Some(Codec.Read(OptNormal(o), rest))
  {
    if o.Some? {
      BlobReencode(o.value);
    }
    assert ([OptBlobOf(o)] + rest)[1..] == rest;
  }

  /** A parent reading an optional one: `next`; a value is read as a blob and
      decoded, anything else is None. */
  method NextMaybe(rd: Reader) returns (r: Option<Option<NetworkBandwidthFiltersDTO>>)
    requires rd.Valid()
    modifies rd
    ensures Stayed(rd) && Got(r, rd.Here().rest) == Nullable(old(rd.Here().rest), FromBlob)
  {
    var item := rd.Next();
    if item.Value? {
      var b :- rd.ReadBlob();
      var x :- Decode(b);
      return Some(Some(x));
    }
    return Some(None);
  }
}
