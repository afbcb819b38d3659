/** `HttpClientsRequestDTO` of the reporter API (http_responses/http_responses_request.rs): a time range and
    the filters to apply, carried as one blob. */
module ReporterHttpResponsesRequest {
  import opened Wrappers
  import opened Ion
  import opened IonWriter
  import opened IonReader
  import opened Codec
  import IonBytes
  import ReporterHttpResponsesFilters

  const DATA_TYPE: string := "http_responses_request"

  datatype HttpClientsRequestDTO = HttpClientsRequestDTO(startDateTime: i64, endDateTime: i64, filters: ReporterHttpResponsesFilters.HttpResponsesFiltersDTO)

  /** The wire layout, in one struct: "start_date_time", "end_date_time" and the filters' own encoding
      as the blob "filters". */
  function ToElem(x: HttpClientsRequestDTO): Elem
  {
    Struct([Field("start_date_time", Int(x.startDateTime)),
            Field("end_date_time", Int(x.endDateTime)),
            Field("filters", ReporterHttpResponsesFilters.BlobOf(x.filters))])
  }

  function ToBytes(x: HttpClientsRequestDTO): seq<byte>
  {
    IonBytes.Serialize([ToElem(x)])
  }

  /** What decode reads from the children of the root, by position. */
  function FromChildren(v: seq<Elem>): Option<HttpClientsRequestDTO>
  {
    var startDateTime :- Scalar(v, AsI64);
    var endDateTime :- Scalar(startDateTime.rest, AsI64);
    var filters :- Scalar(endDateTime.rest, ReporterHttpResponsesFilters.FromBlob);
    Some(HttpClientsRequestDTO(startDateTime.value, endDateTime.value, filters.value))
  }

  function FromStream(s: seq<Elem>): Option<HttpClientsRequestDTO>
  {
    var v :- Root(s);
    FromChildren(v)
  }

  function FromBytes(b: seq<byte>): Option<HttpClientsRequestDTO>
  {
    var s :- IonBytes.Parse(b);
    FromStream(s)
  }

  method Encode(x: HttpClientsRequestDTO) returns (bytes: seq<byte>)
    ensures bytes == ToBytes(x)
  {
    var w := new Writer();
    w.StepIn(StructType);
    ghost var layout := ToElem(x).fields;
    Started(w, layout);
    PutI64(w, "start_date_time", x.startDateTime, layout);
    PutI64(w, "end_date_time", x.endDateTime, layout);
    var filtersBytes := ReporterHttpResponsesFilters.Encode(x.filters);
    PutBlob(w, "filters", filtersBytes, layout);
    bytes := Finish(w, layout);
  }

  /** The body of decode after the reader is built; it never steps out of
      the root struct. */
  method Read(rd: Reader) returns (r: Option<HttpClientsRequestDTO>)
    requires rd.Valid() && Fresh(rd)
    modifies rd
    ensures r == FromStream(old(rd.levels[0].rest))
    ensures rd.Valid() && (r.Some? ==> rd.Depth() == 1)
  {
    var item := rd.Next();
    var ok := rd.StepIn();
    if !ok {
      return None;
    }
    var startDateTime :- NextI64(rd);
    var endDateTime :- NextI64(rd);
    var filters :- ReporterHttpResponsesFilters.NextOne(rd);
    return Some(HttpClientsRequestDTO(startDateTime, endDateTime, filters));
  }

  method Decode(data: seq<byte>) returns (r: Option<HttpClientsRequestDTO>)
    ensures r == FromBytes(data)
  {
    var s := IonBytes.Parse(data);
    if s.None? {
      return None;
    }
    var rd := new Reader(s.value);
    r := Read(rd);
  }

  /** The values encode can reproduce: those whose filters can be reproduced. */
  predicate Canonical(x: HttpClientsRequestDTO)
  {
    ReporterHttpResponsesFilters.Canonical(x.filters)
  }

  /** `x` with its filters normalised. */
  function Normal(x: HttpClientsRequestDTO): (y: HttpClientsRequestDTO)
    ensures Canonical(y)
    ensures y == x <==> Canonical(x)
  {
    x.(filters := ReporterHttpResponsesFilters.Normal(x.filters))
  }

  /** decode(encode(x)) is `x` with its filters normalised. */
  lemma Reencode(x: HttpClientsRequestDTO)
    ensures FromBytes(ToBytes(x)) == Some(Normal(x))
  {
    ReadChildren(x);
    IonBytes.ParseSerialize([ToElem(x)]);
  }

  /** The wire order: the children of the root struct, value by value. */
  lemma Layout(x: HttpClientsRequestDTO)
    ensures Children(ToElem(x))
            == [Int(x.startDateTime)] + ([Int(x.endDateTime)] + [ReporterHttpResponsesFilters.BlobOf(x.filters)])
  {
    var fields := [Field("start_date_time", Int(x.startDateTime)), Field("end_date_time", Int(x.endDateTime)), Field("filters", ReporterHttpResponsesFilters.BlobOf(x.filters))];
    assert Values(fields) == [Int(x.startDateTime)] + ([Int(x.endDateTime)] + [ReporterHttpResponsesFilters.BlobOf(x.filters)]);
  }

  /** The children of the encoded root read back field by field. */
  lemma ReadChildren(x: HttpClientsRequestDTO)
    ensures FromChildren(Children(ToElem(x))) == Some(Normal(x))
  {
    var rest2 := [ReporterHttpResponsesFilters.BlobOf(x.filters)];
    var rest1 := [Int(x.endDateTime)] + rest2;
    var v := Children(ToElem(x));
    var y := Normal(x);
    Layout(x);
    assert Scalar(v, AsI64) == Some(Codec.Read(y.startDateTime, rest1)) by {
      assert v[1..] == rest1;
    }
    assert Scalar(rest1, AsI64) == Some(Codec.Read(y.endDateTime, rest2)) by {
      assert rest1[1..] == rest2;
    }
    assert Scalar(rest2, ReporterHttpResponsesFilters.FromBlob) == Some(Codec.Read(y.filters, [])) by {
      ReporterHttpResponsesFilters.BlobReencode(x.filters);
      assert rest2[1..] == [];
    }
    Steps(v, rest1, rest2, y);
  }

  /** `FromChildren` read off from what each of its steps yields. */
  lemma Steps(v: seq<Elem>, rest1: seq<Elem>, rest2: seq<Elem>, x: HttpClientsRequestDTO)
    requires Scalar(v, AsI64) == Some(Codec.Read(x.startDateTime, rest1))
    requires Scalar(rest1, AsI64) == Some(Codec.Read(x.endDateTime, rest2))
    requires Scalar(rest2, ReporterHttpResponsesFilters.FromBlob) == Some(Codec.Read(x.filters, []))
    ensures FromChildren(v) == Some(x)
  {
  }

  lemma RoundTrip(x: HttpClientsRequestDTO)
    requires Canonical(x)
    ensures FromBytes(ToBytes(x)) == Some(x)
  {
    Reencode(x);
  }

  /** Filters holding a list with no mode do not survive the round trip. */
  lemma FiltersListWithoutModeIsLost(x: HttpClientsRequestDTO)
    requires !Canonical(x)
    ensures FromBytes(ToBytes(x)) != Some(x)
  {
    Reencode(x);
  }
}
