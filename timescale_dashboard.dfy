/** `DashboardDTO` of the timescale API (dashboard/dashboard.rs): the charts, each an
    envelope written inline as a struct and read back by field name. */
module TimescaleDashboard {
  import opened Wrappers
  import opened Ion
  import opened IonWriter
  import opened IonReader
  import opened Codec
  import IonBytes
  import Envelope

  const DATA_TYPE: string := "dashboard"

  datatype DashboardDTO = DashboardDTO(charts: seq<Envelope.Envelope>)

  /** The wire layout, in one struct: the list "charts" of envelope structs. */
  function ToElem(x: DashboardDTO): Elem
  {
    Struct([Field("charts", List(MapElems(x.charts, Envelope.ToElem)))])
  }

  function ToBytes(x: DashboardDTO): seq<byte>
  {
    IonBytes.Serialize([ToElem(x)])
  }

  /** What decode reads from the children of the root, by position. */
  function FromChildren(v: seq<Elem>): Option<DashboardDTO>
  {
    var charts :- ListOf(v, Envelope.FromStructByName);
    Some(DashboardDTO(charts.value))
  }

  function FromStream(s: seq<Elem>): Option<DashboardDTO>
  {
    var v :- Root(s);
    FromChildren(v)
  }

  function FromBytes(b: seq<byte>): Option<DashboardDTO>
  {
    var s :- IonBytes.Parse(b);
    FromStream(s)
  }

  method Encode(x: DashboardDTO) returns (bytes: seq<byte>)
    ensures bytes == ToBytes(x)
  {
    var w := new Writer();
    w.StepIn(StructType);
    ghost var layout := ToElem(x).fields;
    Started(w, layout);
    Envelope.PutNestedAll(w, "charts", x.charts, layout);
    bytes := Finish(w, layout);
  }

  /** The body of decode after the reader is built; it steps back out of
      the root struct. */
  method Read(rd: Reader) returns (r: Option<DashboardDTO>)
    requires rd.Valid() && Fresh(rd)
    modifies rd
    ensures r == FromStream(old(rd.levels[0].rest))
    ensures rd.Valid() && (r.Some? ==> rd.Depth() == 0)
  {
    var item := rd.Next();
    var ok := rd.StepIn();
    if !ok {
      return None;
    }
    var charts :- NextListOf(rd, Envelope.FromStructByName);
    ok := rd.StepOut();
    return Some(DashboardDTO(charts));
  }

  method Decode(data: seq<byte>) returns (r: Option<DashboardDTO>)
    ensures r == FromBytes(data)
  {
    var s := IonBytes.Parse(data);
    if s.None? {
      return None;
    }
    var rd := new Reader(s.value);
    r := Read(rd);
  }

  lemma RoundTrip(x: DashboardDTO)
    ensures FromBytes(ToBytes(x)) == Some(x)
  {
    ReadChildren(x);
    IonBytes.ParseSerialize([ToElem(x)]);
  }

  /** The wire order: the children of the root struct, value by value. */
  lemma Layout(x: DashboardDTO)
    ensures Children(ToElem(x))
            == [List(MapElems(x.charts, Envelope.ToElem))]
  {
    var fields := [Field("charts", List(MapElems(x.charts, Envelope.ToElem)))];
    assert Values(fields) == [List(MapElems(x.charts, Envelope.ToElem))];
  }

  /** The children of the encoded root read back field by field. */
  lemma ReadChildren(x: DashboardDTO)
    ensures FromChildren(Children(ToElem(x))) == Some(x)
  {
    var v := Children(ToElem(x));
    Layout(x);
    assert ListOf(v, Envelope.FromStructByName) == Some(Codec.Read(x.charts, [])) by {
      Envelope.NestedListOf(x.charts, []);
      assert [List(MapElems(x.charts, Envelope.ToElem))] + [] == [List(MapElems(x.charts, Envelope.ToElem))];
    }
    Steps(v, x);
  }

  /** `FromChildren` read off from what each of its steps yields. */
  lemma Steps(v: seq<Elem>, x: DashboardDTO)
    requires ListOf(v, Envelope.FromStructByName) == Some(Codec.Read(x.charts, []))
    ensures FromChildren(v) == Some(x)
  {
  }
}
