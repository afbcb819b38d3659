/** `DataPacketDTO` of the agent API (data_packet.rs): one captured packet's raw bytes. */
module AgentDataPacket {
  import opened Wrappers
  import opened Ion
  import opened IonWriter
  import opened IonReader
  import opened Codec
  import IonBytes

  const DATA_TYPE: string := "data_packet"

  datatype DataPacketDTO = DataPacketDTO(data: seq<byte>)

  /** The wire layout: one struct holding the single field "data". */
  function ToElem(x: DataPacketDTO): Elem
  {
    Struct([Field("data", Blob(x.data))])
  }

  function ToBytes(x: DataPacketDTO): seq<byte>
  {
    IonBytes.Serialize([ToElem(x)])
  }

  /** What decode reads from the children of the root, by position. */
  function FromChildren(v: seq<Elem>): Option<DataPacketDTO>
  {
    var data :- Scalar(v, AsBlob);
    Some(DataPacketDTO(data.value))
  }

  function FromStream(s: seq<Elem>): Option<DataPacketDTO>
  {
    var v :- Root(s);
    FromChildren(v)
  }

  function FromBytes(b: seq<byte>): Option<DataPacketDTO>
  {
    var s :- IonBytes.Parse(b);
    FromStream(s)
  }

  method Encode(x: DataPacketDTO) returns (bytes: seq<byte>)
    ensures bytes == ToBytes(x)
  {
    var w := new Writer();
    w.StepIn(StructType);
    ghost var layout := ToElem(x).fields;
    Started(w, layout);
    PutBlob(w, "data", x.data, layout);
    bytes := Finish(w, layout);
  }

  /** The body of decode after the reader is built; it never steps out of
      the root struct. */
  method Read(rd: Reader) returns (r: Option<DataPacketDTO>)
    requires rd.Valid() && Fresh(rd)
    modifies rd
    ensures r == FromStream(old(rd.levels[0].rest))
    ensures rd.Valid() && (r.Some? ==> rd.Depth() == 1)
  {
    var item := rd.Next();
    var ok := rd.StepIn();
    if !ok {
      return None;
    }
    var data :- NextBlob(rd);
    return Some(DataPacketDTO(data));
  }

  method Decode(data: seq<byte>) returns (r: Option<DataPacketDTO>)
    ensures r == FromBytes(data)
  {
    var s := IonBytes.Parse(data);
    if s.None? {
      return None;
    }
    var rd := new Reader(s.value);
    r := Read(rd);
  }

  lemma RoundTrip(x: DataPacketDTO)
    ensures FromBytes(ToBytes(x)) == Some(x)
  {
    IonBytes.ParseSerialize([ToElem(x)]);
    assert Children(ToElem(x)) == [Blob(x.data)];
  }
}
