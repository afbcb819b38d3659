/** `NetworkBandwidthRequestDTO` of the reporter API (network_bandwidth/network_bandwidth_request.rs):
    a time range and optional filters, carried as one blob. */
module ReporterBandwidthRequest {
  import opened Wrappers
  import opened Ion
  import opened IonWriter
  import opened IonReader
  import opened Codec
  import IonBytes
  import ReporterBandwidthFilters

  const DATA_TYPE: string := "network_bandwidth_request"

  datatype NetworkBandwidthRequestDTO = NetworkBandwidthRequestDTO(startDateTime: i64, endDateTime: i64, filters: Option<ReporterBandwidthFilters.NetworkBandwidthFiltersDTO>)

  /** The wire layout, in one struct: "start_date_time", "end_date_time", then "filters" as the
      filters' own encoding in a blob, or a null blob. */
  function ToElem(x: NetworkBandwidthRequestDTO): Elem
  {
    Struct([Field("start_date_time", Int(x.startDateTime)),
            Field("end_date_time", Int(x.endDateTime)),
            Field("filters", ReporterBandwidthFilters.OptBlobOf(x.filters))])
  }

  function ToBytes(x: NetworkBandwidthRequestDTO): seq<byte>
  {
    IonBytes.Serialize([ToElem(x)])
  }

  /** What decode reads from the children of the root, by position. */
  function FromChildren(v: seq<Elem>): Option<NetworkBandwidthRequestDTO>
  {
    var startDateTime :- Scalar(v, AsI64);
    var endDateTime :- Scalar(startDateTime.rest, AsI64);
    var filters :- Nullable(endDateTime.rest, ReporterBandwidthFilters.FromBlob);
    Some(NetworkBandwidthRequestDTO(startDateTime.value, endDateTime.value, filters.value))
  }

  function FromStream(s: seq<Elem>): Option<NetworkBandwidthRequestDTO>
  {
    var v :- Root(s);
    FromChildren(v)
  }

  function FromBytes(b: seq<byte>): Option<NetworkBandwidthRequestDTO>
  {
    var s :- IonBytes.Parse(b);
    FromStream(s)
  }

  method Encode(x: NetworkBandwidthRequestDTO) returns (bytes: seq<byte>)
    ensures bytes == ToBytes(x)
  {
    var w := new Writer();
    w.StepIn(StructType);
    ghost var layout := ToElem(x).fields;
    Started(w, layout);
    PutI64(w, "start_date_time", x.startDateTime, layout);
    PutI64(w, "end_date_time", x.endDateTime, layout);
    match x.filters {
      case Some(filters) =>
        var filtersBytes := ReporterBandwidthFilters.Encode(filters);
        PutBlob(w, "filters", filtersBytes, layout);
      case None =>
        PutNull(w, "filters", BlobType, layout);
    }
    bytes := Finish(w, layout);
  }

  /** The body of decode after the reader is built; it never steps out of
      the root struct. */
  method Read(rd: Reader) returns (r: Option<NetworkBandwidthRequestDTO>)
    requires rd.Valid() && Fresh(rd)
    modifies rd
    ensures r == FromStream(old(rd.levels[0].rest))
    ensures rd.Valid() && (r.Some? ==> rd.Depth() == 1)
  {
    var item := rd.Next();
    var ok := rd.StepIn();
    if !ok {
      return None;
    }
    var startDateTime :- NextI64(rd);
    var endDateTime :- NextI64(rd);
    var filters :- ReporterBandwidthFilters.NextMaybe(rd);
    return Some(NetworkBandwidthRequestDTO(startDateTime, endDateTime, filters));
  }

  method Decode(data: seq<byte>) returns (r: Option<NetworkBandwidthRequestDTO>)
    ensures r == FromBytes(data)
  {
    var s := IonBytes.Parse(data);
    if s.None? {
      return None;
    }
    var rd := new Reader(s.value);
    r := Read(rd);
  }

  /** The values encode can reproduce: those whose filters can be reproduced. */
  predicate Canonical(x: NetworkBandwidthRequestDTO)
  {
    (x.filters.Some? ==> ReporterBandwidthFilters.Canonical(x.filters.value))
  }

  /** `x` with its filters normalised. */
  function Normal(x: NetworkBandwidthRequestDTO): (y: NetworkBandwidthRequestDTO)
    ensures Canonical(y)
    ensures y == x <==> Canonical(x)
  {
    x.(filters := ReporterBandwidthFilters.OptNormal(x.filters))
  }

  /** decode(encode(x)) is `x` with its filters normalised. */
  lemma Reencode(x: NetworkBandwidthRequestDTO)
    ensures FromBytes(ToBytes(x)) == Some(Normal(x))
  {
    ReadChildren(x);
    IonBytes.ParseSerialize([ToElem(x)]);
  }

  /** The wire order: the children of the root struct, value by value. */
  lemma Layout(x: NetworkBandwidthRequestDTO)
    ensures Children(ToElem(x))
            == [Int(x.startDateTime)] + ([Int(x.endDateTime)] + [ReporterBandwidthFilters.OptBlobOf(x.filters)])
  {
    var fields := [Field("start_date_time", Int(x.startDateTime)), Field("end_date_time", Int(x.endDateTime)), Field("filters", ReporterBandwidthFilters.OptBlobOf(x.filters))];
    assert Values(fields) == [Int(x.startDateTime)] + ([Int(x.endDateTime)] + [ReporterBandwidthFilters.OptBlobOf(x.filters)]);
  }

  /** The children of the encoded root read back field by field. */
  lemma ReadChildren(x: NetworkBandwidthRequestDTO)
    ensures FromChildren(Children(ToElem(x))) == Some(Normal(x))
  {
    var rest2 := [ReporterBandwidthFilters.OptBlobOf(x.filters)];
    var rest1 := [Int(x.endDateTime)] + rest2;
    var v := Children(ToElem(x));
    var y := Normal(x);
    Layout(x);
    assert Scalar(v, AsI64) == Some(Codec.Read(y.startDateTime, rest1)) by {
      assert v[1..] == rest1;
    }
    assert Scalar(rest1, AsI64) == Some(Codec.Read(y.endDateTime, rest2)) by {
      assert rest1[1..] == rest2;
    }
    assert Nullable(rest2, ReporterBandwidthFilters.FromBlob) == Some(Codec.Read(y.filters, [])) by {
      ReporterBandwidthFilters.NullableOptBlob(x.filters, []);
      assert [ReporterBandwidthFilters.OptBlobOf(x.filters)] + [] == [ReporterBandwidthFilters.OptBlobOf(x.filters)];
    }
    Steps(v, rest1, rest2, y);
  }

  /** `FromChildren` read off from what each of its steps yields. */
  lemma Steps(v: seq<Elem>, rest1: seq<Elem>, rest2: seq<Elem>, x: NetworkBandwidthRequestDTO)
    requires Scalar(v, AsI64) == Some(Codec.Read(x.startDateTime, rest1))
    requires Scalar(rest1, AsI64) == Some(Codec.Read(x.endDateTime, rest2))
    requires Nullable(rest2, ReporterBandwidthFilters.FromBlob) == Some(Codec.Read(x.filters, []))
    ensures FromChildren(v) == Some(x)
  {
  }

  lemma RoundTrip(x: NetworkBandwidthRequestDTO)
    requires Canonical(x)
    ensures FromBytes(ToBytes(x)) == Some(x)
  {
    Reencode(x);
  }

  /** Filters holding a list with no mode do not survive the round trip. */
  lemma FiltersListWithoutModeIsLost(x: NetworkBandwidthRequestDTO)
    requires !Canonical(x)
    ensures FromBytes(ToBytes(x)) != Some(x)
  {
    Reencode(x);
  }
}
