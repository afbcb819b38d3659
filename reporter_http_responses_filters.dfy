/** `HttpResponsesFiltersDTO` of the reporter API (http_responses/http_responses_filters.rs):
    which response codes and endpoints to include or exclude, and optional bounds on the bytes. */
module ReporterHttpResponsesFilters {
  import opened Wrappers
  import opened Ion
  import opened IonWriter
  import opened IonReader
  import opened Codec
  import IonBytes

  const DATA_TYPE: string := "http_responses_filters"

  datatype HttpResponsesFiltersDTO = HttpResponsesFiltersDTO(httpResponses: seq<i64>, includeHttpResponsesMode: Option<bool>, endpoints: seq<string>, includeEndpointsMode: Option<bool>, bytesLowerBound: Option<i64>, bytesUpperBound: Option<i64>)

  /** The wire layout, in one struct: each mode, followed by its list only when the mode is set (a null
      bool otherwise), then the two bounds, each an integer or a null integer. */
  function ToElem(x: HttpResponsesFiltersDTO): Elem
  {
    Struct(FlagFields("include_http_responses_mode", "http_responses", x.includeHttpResponsesMode, MapElems(x.httpResponses, I64Elem))
           + FlagFields("include_endpoints_mode", "endpoints", x.includeEndpointsMode, MapElems(x.endpoints, StringElem))
           + [Field("bytes_lower_bound", OptI64Elem(x.bytesLowerBound)),
            Field("bytes_upper_bound", OptI64Elem(x.bytesUpperBound))])
  }

  function ToBytes(x: HttpResponsesFiltersDTO): seq<byte>
  {
    IonBytes.Serialize([ToElem(x)])
  }

  /** What decode reads from the children of the root, by position. */
  function FromChildren(v: seq<Elem>): Option<HttpResponsesFiltersDTO>
  {
    var httpResponses :- Flagged(v, AsI64);
    var endpoints :- Flagged(httpResponses.rest, AsString);
    var bytesLowerBound :- Nullable(endpoints.rest, AsI64);
    var bytesUpperBound :- Nullable(bytesLowerBound.rest, AsI64);
    Some(HttpResponsesFiltersDTO(httpResponses.value.1, httpResponses.value.0, endpoints.value.1, endpoints.value.0, bytesLowerBound.value, bytesUpperBound.value))
  }

  function FromStream(s: seq<Elem>): Option<HttpResponsesFiltersDTO>
  {
    var v :- Root(s);
    FromChildren(v)
  }

  function FromBytes(b: seq<byte>): Option<HttpResponsesFiltersDTO>
  {
    var s :- IonBytes.Parse(b);
    FromStream(s)
  }

  method Encode(x: HttpResponsesFiltersDTO) returns (bytes: seq<byte>)
    ensures bytes == ToBytes(x)
  {
    var w := new Writer();
    w.StepIn(StructType);
    ghost var layout := ToElem(x).fields;
    Started(w, layout);
    ghost var httpResponsesFields := FlagFields("include_http_responses_mode", "http_responses", x.includeHttpResponsesMode, MapElems(x.httpResponses, I64Elem));
    ghost var endpointsFields := FlagFields("include_endpoints_mode", "endpoints", x.includeEndpointsMode, MapElems(x.endpoints, StringElem));
    ghost var bytesLowerBoundFields := [Field("bytes_lower_bound", OptI64Elem(x.bytesLowerBound)), Field("bytes_upper_bound", OptI64Elem(x.bytesUpperBound))];
    assert layout == httpResponsesFields + endpointsFields + bytesLowerBoundFields;
    Front(httpResponsesFields, endpointsFields + bytesLowerBoundFields);
    PutFlagI64s(w, "include_http_responses_mode", "http_responses", x.includeHttpResponsesMode, x.httpResponses, layout);
    Segment(httpResponsesFields, endpointsFields, bytesLowerBoundFields);
    PutFlagStrings(w, "include_endpoints_mode", "endpoints", x.includeEndpointsMode, x.endpoints, layout);
    PutOptI64(w, "bytes_lower_bound", x.bytesLowerBound, layout);
    PutOptI64(w, "bytes_upper_bound", x.bytesUpperBound, layout);
    bytes := Finish(w, layout);
  }

  /** The body of decode after the reader is built; it never steps out of
      the root struct. */
  method Read(rd: Reader) returns (r: Option<HttpResponsesFiltersDTO>)
    requires rd.Valid() && Fresh(rd)
    modifies rd
    ensures r == FromStream(old(rd.levels[0].rest))
    ensures rd.Valid() && (r.Some? ==> rd.Depth() == 1)
  {
    var item := rd.Next();
    var ok := rd.StepIn();
    if !ok {
      return None;
    }
    var httpResponses :- NextFlagI64s(rd);
    var endpoints :- NextFlagStrings(rd);
    var bytesLowerBound :- NextOptI64(rd);
    var bytesUpperBound :- NextOptI64(rd);
    return Some(HttpResponsesFiltersDTO(httpResponses.1, httpResponses.0, endpoints.1, endpoints.0, bytesLowerBound, bytesUpperBound));
  }

  method Decode(data: seq<byte>) returns (r: Option<HttpResponsesFiltersDTO>)
    ensures r == FromBytes(data)
  {
    var s := IonBytes.Parse(data);
    if s.None? {
      return None;
    }
    var rd := new Reader(s.value);
    r := Read(rd);
  }

  /** The values encode can reproduce: a list held with no mode is not
      written, so it must be empty. */
  predicate Canonical(x: HttpResponsesFiltersDTO)
  {
    (x.includeHttpResponsesMode.None? ==> x.httpResponses == []) && (x.includeEndpointsMode.None? ==> x.endpoints == [])
  }

  /** `x` with every list that has no mode emptied. */
  function Normal(x: HttpResponsesFiltersDTO): (y: HttpResponsesFiltersDTO)
    ensures Canonical(y)
    ensures y == x <==> Canonical(x)
  {
    x.(httpResponses := if x.includeHttpResponsesMode.Some? then x.httpResponses else [], endpoints := if x.includeEndpointsMode.Some? then x.endpoints else [])
  }

  /** decode(encode(x)) is `x` with the lists that have no mode emptied. */
  lemma Reencode(x: HttpResponsesFiltersDTO)
    ensures FromBytes(ToBytes(x)) == Some(Normal(x))
  {
    ReadChildren(x);
    IonBytes.ParseSerialize([ToElem(x)]);
  }

  /** The wire order: the children of the root struct, value by value. */
  lemma Layout(x: HttpResponsesFiltersDTO)
    ensures Children(ToElem(x))
            == Values(FlagFields("include_http_responses_mode", "http_responses", x.includeHttpResponsesMode, MapElems(x.httpResponses, I64Elem))) + (Values(FlagFields("include_endpoints_mode", "endpoints", x.includeEndpointsMode, MapElems(x.endpoints, StringElem))) + ([OptI64Elem(x.bytesLowerBound)] + [OptI64Elem(x.bytesUpperBound)]))
  {
    var httpResponsesFields := FlagFields("include_http_responses_mode", "http_responses", x.includeHttpResponsesMode, MapElems(x.httpResponses, I64Elem));
    var endpointsFields := FlagFields("include_endpoints_mode", "endpoints", x.includeEndpointsMode, MapElems(x.endpoints, StringElem));
    var bytesLowerBoundFields := [Field("bytes_lower_bound", OptI64Elem(x.bytesLowerBound)), Field("bytes_upper_bound", OptI64Elem(x.bytesUpperBound))];
    ValuesAppend(httpResponsesFields + endpointsFields, bytesLowerBoundFields);
    ValuesAppend(httpResponsesFields, endpointsFields);
    assert Values(bytesLowerBoundFields) == [OptI64Elem(x.bytesLowerBound)] + [OptI64Elem(x.bytesUpperBound)];
  }

  /** The children of the encoded root read back field by field. */
  lemma ReadChildren(x: HttpResponsesFiltersDTO)
    ensures FromChildren(Children(ToElem(x))) == Some(Normal(x))
  {
    var httpResponsesFields := FlagFields("include_http_responses_mode", "http_responses", x.includeHttpResponsesMode, MapElems(x.httpResponses, I64Elem));
    var endpointsFields := FlagFields("include_endpoints_mode", "endpoints", x.includeEndpointsMode, MapElems(x.endpoints, StringElem));
    var rest3 := [OptI64Elem(x.bytesUpperBound)];
    var rest2 := [OptI64Elem(x.bytesLowerBound)] + rest3;
    var rest1 := Values(endpointsFields) + rest2;
    var v := Children(ToElem(x));
    var y := Normal(x);
    Layout(x);
    assert Flagged(v, AsI64) == Some(Codec.Read((y.includeHttpResponsesMode, y.httpResponses), rest1)) by {
      FlaggedFlagFields("include_http_responses_mode", "http_responses", x.includeHttpResponsesMode, x.httpResponses, I64Elem, AsI64, rest1);
    }
    assert Flagged(rest1, AsString) == Some(Codec.Read((y.includeEndpointsMode, y.endpoints), rest2)) by {
      FlaggedFlagFields("include_endpoints_mode", "endpoints", x.includeEndpointsMode, x.endpoints, StringElem, AsString, rest2);
    }
    assert Nullable(rest2, AsI64) == Some(Codec.Read(y.bytesLowerBound, rest3)) by {
      NullableOptI64(x.bytesLowerBound, rest3);
    }
    assert Nullable(rest3, AsI64) == Some(Codec.Read(y.bytesUpperBound, [])) by {
      NullableOptI64(x.bytesUpperBound, []);
      assert [OptI64Elem(x.bytesUpperBound)] + [] == [OptI64Elem(x.bytesUpperBound)];
    }
    Steps(v, rest1, rest2, rest3, y);
  }

  /** `FromChildren` read off from what each of its steps yields. */
  lemma Steps(v: seq<Elem>, rest1: seq<Elem>, rest2: seq<Elem>, rest3: seq<Elem>, x: HttpResponsesFiltersDTO)
    requires Flagged(v, AsI64) == Some(Codec.Read((x.includeHttpResponsesMode, x.httpResponses), rest1))
    requires Flagged(rest1, AsString) == Some(Codec.Read((x.includeEndpointsMode, x.endpoints), rest2))
    requires Nullable(rest2, AsI64) == Some(Codec.Read(x.bytesLowerBound, rest3))
    requires Nullable(rest3, AsI64) == Some(Codec.Read(x.bytesUpperBound, []))
    ensures FromChildren(v) == Some(x)
  {
  }

  lemma RoundTrip(x: HttpResponsesFiltersDTO)
    requires Canonical(x)
    ensures FromBytes(ToBytes(x)) == Some(x)
  {
    Reencode(x);
  }

  /** A list held with no mode does not survive the round trip. */
  lemma ListWithoutModeIsLost(x: HttpResponsesFiltersDTO)
    requires !Canonical(x)
    ensures FromBytes(ToBytes(x)) != Some(x)
  {
    Reencode(x);
  }

  /** How a parent carries this DTO: one blob holding its encoding. */
  function BlobOf(x: HttpResponsesFiltersDTO): Elem
  {
    Blob(ToBytes(x))
  }

  /** How a parent reads it back: `as_blob().unwrap()`, then decode. */
  function FromBlob(e: Elem): Option<HttpResponsesFiltersDTO>
  {
    var b :- AsBlob(e);
    FromBytes(b)
  }

  lemma BlobReencode(x: HttpResponsesFiltersDTO)
    ensures FromBlob(BlobOf(x)) == Some(Normal(x))
  {
    Reencode(x);
  }

  lemma BlobRoundTrip(x: HttpResponsesFiltersDTO)
    requires Canonical(x)
    ensures FromBlob(BlobOf(x)) == Some(x)
  {
    RoundTrip(x);
  }

  /** A parent reading one of these: `next`, `read_blob().unwrap()`, decode. */
  method NextOne(rd: Reader) returns (r: Option<HttpResponsesFiltersDTO>)
    requires rd.Valid()
    modifies rd
    ensures Stayed(rd) && Got(r, rd.Here().rest) == Scalar(old(rd.Here().rest), FromBlob)
  {
    var b :- NextBlob(rd);
    r := Decode(b);
  }
}
