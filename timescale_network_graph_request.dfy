/** The three-field `NetworkGraphRequestDTO` of the timescale API
    (network_graph/network_graph_request.rs): a time range and a subscribe flag. */
module TimescaleNetworkGraphRequest {
  import opened Wrappers
  import opened Ion
  import opened IonWriter
  import opened IonReader
  import opened Codec
  import IonBytes

  const DATA_TYPE: string := "network_graph_request"

  datatype NetworkGraphRequestDTO = NetworkGraphRequestDTO(startDateTime: i64, endDateTime: i64, subscribe: bool)

  /** The wire layout: one struct holding "start_date_time", "end_date_time" and "subscribe", in that order. */
  function ToElem(x: NetworkGraphRequestDTO): Elem
  {
    Struct([Field("start_date_time", Int(x.startDateTime)),
            Field("end_date_time", Int(x.endDateTime)),
            Field("subscribe", Bool(x.subscribe))])
  }

  function ToBytes(x: NetworkGraphRequestDTO): seq<byte>
  {
    IonBytes.Serialize([ToElem(x)])
  }

  /** What decode reads from the children of the root, by position. */
  function FromChildren(v: seq<Elem>): Option<NetworkGraphRequestDTO>
  {
    var startDateTime :- Scalar(v, AsI64);
    var endDateTime :- Scalar(startDateTime.rest, AsI64);
    var subscribe :- Scalar(endDateTime.rest, AsBool);
    Some(NetworkGraphRequestDTO(startDateTime.value, endDateTime.value, subscribe.value))
  }

  function FromStream(s: seq<Elem>): Option<NetworkGraphRequestDTO>
  {
    var v :- Root(s);
    FromChildren(v)
  }

  function FromBytes(b: seq<byte>): Option<NetworkGraphRequestDTO>
  {
    var s :- IonBytes.Parse(b);
    FromStream(s)
  }

  method Encode(x: NetworkGraphRequestDTO) returns (bytes: seq<byte>)
    ensures bytes == ToBytes(x)
  {
    var w := new Writer();
    w.StepIn(StructType);
    ghost var layout := ToElem(x).fields;
    Started(w, layout);
    PutI64(w, "start_date_time", x.startDateTime, layout);
    PutI64(w, "end_date_time", x.endDateTime, layout);
    PutBool(w, "subscribe", x.subscribe, layout);
    bytes := Finish(w, layout);
  }

  /** The body of decode after the reader is built; it never steps out of
      the root struct. */
  method Read(rd: Reader) returns (r: Option<NetworkGraphRequestDTO>)
    requires rd.Valid() && Fresh(rd)
    modifies rd
    ensures r == FromStream(old(rd.levels[0].rest))
    ensures rd.Valid() && (r.Some? ==> rd.Depth() == 1)
  {
    var item := rd.Next();
    var ok := rd.StepIn();
    if !ok {
      return None;
    }
    var startDateTime :- NextI64(rd);
    var endDateTime :- NextI64(rd);
    var subscribe :- NextBool(rd);
    return Some(NetworkGraphRequestDTO(startDateTime, endDateTime, subscribe));
  }

  method Decode(data: seq<byte>) returns (r: Option<NetworkGraphRequestDTO>)
    ensures r == FromBytes(data)
  {
    var s := IonBytes.Parse(data);
    if s.None? {
      return None;
    }
    var rd := new Reader(s.value);
    r := Read(rd);
  }

  lemma RoundTrip(x: NetworkGraphRequestDTO)
    ensures FromBytes(ToBytes(x)) == Some(x)
  {
    ReadChildren(x);
    IonBytes.ParseSerialize([ToElem(x)]);
  }

  /** The children of the encoded root read back field by field. */
  lemma ReadChildren(x: NetworkGraphRequestDTO)
    ensures FromChildren(Children(ToElem(x))) == Some(x)
  {
    assert Children(ToElem(x)) == [Int(x.startDateTime), Int(x.endDateTime), Bool(x.subscribe)];
  }

  /** A parent writing one of these inline under `n`: `set_field_name(n)`,
      `step_in(Struct)`, the fields in order, `step_out`. */
  method PutNested(w: Writer, n: string, x: NetworkGraphRequestDTO, ghost layout: seq<Field>)
    requires Expects(w, layout, Field(n, ToElem(x)))
    modifies w
    ensures Filling(w, layout) && OneMore(w)
  {
    ghost var k := |Written(w)|;
    ghost var top, below, name, fs := w.top, w.open.below, w.open.frame.name, w.open.frame.partial.fields;
    ghost var inner := ToElem(x).fields;
    w.SetFieldName(n);
    OpenStruct(top, below, name, fs, n);
    w.StepIn(StructType);
    PutI64(w, "start_date_time", x.startDateTime, inner);
    PutI64(w, "end_date_time", x.endDateTime, inner);
    PutBool(w, "subscribe", x.subscribe, inner);
    assert inner[..|inner|] == inner;
    CloseStruct(top, below, name, fs, n, inner);
    w.StepOut();
    TakeOneMore(layout, k);
  }

  /** Reading the fields in order from inside one of these, as decode does
      once it has stepped in. */
  method Inside(rd: Reader) returns (r: Option<NetworkGraphRequestDTO>)
    requires rd.Valid()
    modifies rd
    ensures Stayed(rd) && r == FromChildren(old(rd.Here().rest))
  {
    var startDateTime :- NextI64(rd);
    var endDateTime :- NextI64(rd);
    var subscribe :- NextBool(rd);
    return Some(NetworkGraphRequestDTO(startDateTime, endDateTime, subscribe));
  }

  /** A parent reading one of these written inline: `next`, `step_in`,
      the fields and `step_out`. */
  method NextNested(rd: Reader) returns (r: Option<NetworkGraphRequestDTO>)
    requires rd.Valid()
    modifies rd
    ensures rd.Valid() && Got(r, rd.Here().rest) == Nested(old(rd.Here().rest), FromChildren)
    ensures r.Some? ==> Stayed(rd)
  {
    var item := rd.Next();
    var ok := rd.StepIn();
    if !ok {
      return None;
    }
    var x :- Inside(rd);
    ok := rd.StepOut();
    return Some(x);
  }

  /** Written inline, one of these reads back as itself, and the cursor
      moves past it and nothing else. */
  lemma NestedOf(x: NetworkGraphRequestDTO, rest: seq<Elem>)
    ensures Nested([ToElem(x)] + rest, FromChildren) == Some(Codec.Read(x, rest))
  {
    ReadChildren(x);
    assert ([ToElem(x)] + rest)[1..] == rest;
  }
}
