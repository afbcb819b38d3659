/** `NetworkBandwidthPerEndpointRequestDTO` of the reporter API
    (network_bandwidth_per_endpoint/network_bandwidth_per_endpoint_request.rs): a time range. */
module ReporterBandwidthPerEndpointRequest {
  import opened Wrappers
  import opened Ion
  import opened IonWriter
  import opened IonReader
  import opened Codec
  import IonBytes

  const DATA_TYPE: string := "bandwidth-per-endpoint-request"

  datatype NetworkBandwidthPerEndpointRequestDTO = NetworkBandwidthPerEndpointRequestDTO(startDateTime: i64, endDateTime: i64)

  /** The wire layout: one struct holding "start_date_time" and "end_date_time", in that order. */
  function ToElem(x: NetworkBandwidthPerEndpointRequestDTO): Elem
  {
    Struct([Field("start_date_time", Int(x.startDateTime)),
            Field("end_date_time", Int(x.endDateTime))])
  }

  function ToBytes(x: NetworkBandwidthPerEndpointRequestDTO): seq<byte>
  {
    IonBytes.Serialize([ToElem(x)])
  }

  /** What decode reads from the children of the root, by position. */
  function FromChildren(v: seq<Elem>): Option<NetworkBandwidthPerEndpointRequestDTO>
  {
    var startDateTime :- Scalar(v, AsI64);
    var endDateTime :- Scalar(startDateTime.rest, AsI64);
    Some(NetworkBandwidthPerEndpointRequestDTO(startDateTime.value, endDateTime.value))
  }

  function FromStream(s: seq<Elem>): Option<NetworkBandwidthPerEndpointRequestDTO>
  {
    var v :- Root(s);
    FromChildren(v)
  }

  function FromBytes(b: seq<byte>): Option<NetworkBandwidthPerEndpointRequestDTO>
  {
    var s :- IonBytes.Parse(b);
    FromStream(s)
  }

  method Encode(x: NetworkBandwidthPerEndpointRequestDTO) returns (bytes: seq<byte>)
    ensures bytes == ToBytes(x)
  {
    var w := new Writer();
    w.StepIn(StructType);
    ghost var layout := ToElem(x).fields;
    Started(w, layout);
    PutI64(w, "start_date_time", x.startDateTime, layout);
    PutI64(w, "end_date_time", x.endDateTime, layout);
    bytes := Finish(w, layout);
  }

  /** The body of decode after the reader is built; it never steps out of
      the root struct. */
  method Read(rd: Reader) returns (r: Option<NetworkBandwidthPerEndpointRequestDTO>)
    requires rd.Valid() && Fresh(rd)
    modifies rd
    ensures r == FromStream(old(rd.levels[0].rest))
    ensures rd.Valid() && (r.Some? ==> rd.Depth() == 1)
  {
    var item := rd.Next();
    var ok := rd.StepIn();
    if !ok {
      return None;
    }
    var startDateTime :- NextI64(rd);
    var endDateTime :- NextI64(rd);
    return Some(NetworkBandwidthPerEndpointRequestDTO(startDateTime, endDateTime));
  }

  method Decode(data: seq<byte>) returns (r: Option<NetworkBandwidthPerEndpointRequestDTO>)
    ensures r == FromBytes(data)
  {
    var s := IonBytes.Parse(data);
    if s.None? {
      return None;
    }
    var rd := new Reader(s.value);
    r := Read(rd);
  }

  lemma RoundTrip(x: NetworkBandwidthPerEndpointRequestDTO)
    ensures FromBytes(ToBytes(x)) == Some(x)
  {
    IonBytes.ParseSerialize([ToElem(x)]);
    assert Children(ToElem(x)) == [Int(x.startDateTime), Int(x.endDateTime)];
  }
}
