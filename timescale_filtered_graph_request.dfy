/** `NetworkGraphRequestDTO` of the timescale API (network_graph_request.rs): a time
    range, a subscribe flag and optional filters written inline. The type declares
    no type tag. */
module TimescaleFilteredGraphRequest {
  import opened Wrappers
  import opened Ion
  import opened IonWriter
  import opened IonReader
  import opened Codec
  import IonBytes
  import TimescaleFilters

  datatype NetworkGraphRequestDTO = NetworkGraphRequestDTO(startDateTime: i64, endDateTime: i64, subscribe: bool, filters: Option<TimescaleFilters.Filters>)

  /** The wire layout, in one struct: "start_date_time", "end_date_time", "subscribe", then
      "filters" as an inline struct, or a null struct. */
  function ToElem(x: NetworkGraphRequestDTO): Elem
  {
    Struct([Field("start_date_time", Int(x.startDateTime)),
            Field("end_date_time", Int(x.endDateTime)),
            Field("subscribe", Bool(x.subscribe)),
            Field("filters", TimescaleFilters.OptElem(x.filters))])
  }

  function ToBytes(x: NetworkGraphRequestDTO): seq<byte>
  {
    IonBytes.Serialize([ToElem(x)])
  }

  /** What decode reads from the children of the root, by position. */
  function FromChildren(v: seq<Elem>): Option<NetworkGraphRequestDTO>
  {
    var startDateTime :- Scalar(v, AsI64);
    var endDateTime :- Scalar(startDateTime.rest, AsI64);
    var subscribe :- Scalar(endDateTime.rest, AsBool);
    var filters :- MaybeNested(subscribe.rest, TimescaleFilters.FromChildren);
    Some(NetworkGraphRequestDTO(startDateTime.value, endDateTime.value, subscribe.value, filters.value))
  }

  function FromStream(s: seq<Elem>): Option<NetworkGraphRequestDTO>
  {
    var v :- Root(s);
    FromChildren(v)
  }

  function FromBytes(b: seq<byte>): Option<NetworkGraphRequestDTO>
  {
    var s :- IonBytes.Parse(b);
    FromStream(s)
  }

  method Encode(x: NetworkGraphRequestDTO) returns (bytes: seq<byte>)
    ensures bytes == ToBytes(x)
  {
    var w := new Writer();
    w.StepIn(StructType);
    ghost var layout := ToElem(x).fields;
    Started(w, layout);
    PutI64(w, "start_date_time", x.startDateTime, layout);
    PutI64(w, "end_date_time", x.endDateTime, layout);
    PutBool(w, "subscribe", x.subscribe, layout);
    TimescaleFilters.PutMaybeNested(w, "filters", x.filters, layout);
    bytes := Finish(w, layout);
  }

  /** The body of decode after the reader is built; it steps back out of
      the root struct. */
  method Read(rd: Reader) returns (r: Option<NetworkGraphRequestDTO>)
    requires rd.Valid() && Fresh(rd)
    modifies rd
    ensures r == FromStream(old(rd.levels[0].rest))
    ensures rd.Valid() && (r.Some? ==> rd.Depth() == 0)
  {
    var item := rd.Next();
    var ok := rd.StepIn();
    if !ok {
      return None;
    }
    var startDateTime :- NextI64(rd);
    var endDateTime :- NextI64(rd);
    var subscribe :- NextBool(rd);
    var filters :- TimescaleFilters.NextMaybeNested(rd);
    ok := rd.StepOut();
    return Some(NetworkGraphRequestDTO(startDateTime, endDateTime, subscribe, filters));
  }

  method Decode(data: seq<byte>) returns (r: Option<NetworkGraphRequestDTO>)
    ensures r == FromBytes(data)
  {
    var s := IonBytes.Parse(data);
    if s.None? {
      return None;
    }
    var rd := new Reader(s.value);
    r := Read(rd);
  }

  lemma RoundTrip(x: NetworkGraphRequestDTO)
    ensures FromBytes(ToBytes(x)) == Some(x)
  {
    ReadChildren(x);
    IonBytes.ParseSerialize([ToElem(x)]);
  }

  /** The wire order: the children of the root struct, value by value. */
  lemma Layout(x: NetworkGraphRequestDTO)
    ensures Children(ToElem(x))
            == [Int(x.startDateTime)] + ([Int(x.endDateTime)] + ([Bool(x.subscribe)] + [TimescaleFilters.OptElem(x.filters)]))
  {
    var fields := [Field("start_date_time", Int(x.startDateTime)), Field("end_date_time", Int(x.endDateTime)), Field("subscribe", Bool(x.subscribe)), Field("filters", TimescaleFilters.OptElem(x.filters))];
    assert Values(fields) == [Int(x.startDateTime)] + ([Int(x.endDateTime)] + ([Bool(x.subscribe)] + [TimescaleFilters.OptElem(x.filters)]));
  }

  /** The children of the encoded root read back field by field. */
  lemma ReadChildren(x: NetworkGraphRequestDTO)
    ensures FromChildren(Children(ToElem(x))) == Some(x)
  {
    var rest3 := [TimescaleFilters.OptElem(x.filters)];
    var rest2 := [Bool(x.subscribe)] + rest3;
    var rest1 := [Int(x.endDateTime)] + rest2;
    var v := Children(ToElem(x));
    Layout(x);
    assert Scalar(v, AsI64) == Some(Codec.Read(x.startDateTime, rest1)) by {
      assert v[1..] == rest1;
    }
    assert Scalar(rest1, AsI64) == Some(Codec.Read(x.endDateTime, rest2)) by {
      assert rest1[1..] == rest2;
    }
    assert Scalar(rest2, AsBool) == Some(Codec.Read(x.subscribe, rest3)) by {
      assert rest2[1..] == rest3;
    }
    assert MaybeNested(rest3, TimescaleFilters.FromChildren) == Some(Codec.Read(x.filters, [])) by {
      TimescaleFilters.MaybeNestedOf(x.filters, []);
      assert [TimescaleFilters.OptElem(x.filters)] + [] == [TimescaleFilters.OptElem(x.filters)];
    }
    Steps(v, rest1, rest2, rest3, x);
  }

  /** `FromChildren` read off from what each of its steps yields. */
  lemma Steps(v: seq<Elem>, rest1: seq<Elem>, rest2: seq<Elem>, rest3: seq<Elem>, x: NetworkGraphRequestDTO)
    requires Scalar(v, AsI64) == Some(Codec.Read(x.startDateTime, rest1))
    requires Scalar(rest1, AsI64) == Some(Codec.Read(x.endDateTime, rest2))
    requires Scalar(rest2, AsBool) == Some(Codec.Read(x.subscribe, rest3))
    requires MaybeNested(rest3, TimescaleFilters.FromChildren) == Some(Codec.Read(x.filters, []))
    ensures FromChildren(v) == Some(x)
  {
  }
}
