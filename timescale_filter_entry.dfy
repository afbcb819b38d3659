/** `FilterEntryDTO` of the timescale API
    (network_overview_dashboard_filters/filter_entry.rs): an endpoint, the protocols it
    used and the bytes it received and sent. */
module TimescaleFilterEntry {
  import opened Wrappers
  import opened Ion
  import opened IonWriter
  import opened IonReader
  import opened Codec
  import IonBytes

  const DATA_TYPE: string := "filter-entry"

  datatype FilterEntryDTO = FilterEntryDTO(endpoint: string, protocols: seq<string>, bytesRec: i64, bytesSent: i64)

  /** The wire layout: one struct holding "endpoint", "protocols", "bytes_rec" and "bytes_sent", in that order. */
  function ToElem(x: FilterEntryDTO): Elem
  {
    Struct([Field("endpoint", String(x.endpoint)),
            Field("protocols", List(MapElems(x.protocols, StringElem))),
            Field("bytes_rec", Int(x.bytesRec)),
            Field("bytes_sent", Int(x.bytesSent))])
  }

  function ToBytes(x: FilterEntryDTO): seq<byte>
  {
    IonBytes.Serialize([ToElem(x)])
  }

  /** What decode reads from the children of the root, by position. */
  function FromChildren(v: seq<Elem>): Option<FilterEntryDTO>
  {
    var endpoint :- Scalar(v, AsString);
    var protocols :- ListOf(endpoint.rest, AsString);
    var bytesRec :- Scalar(protocols.rest, AsI64);
    var bytesSent :- Scalar(bytesRec.rest, AsI64);
    Some(FilterEntryDTO(endpoint.value, protocols.value, bytesRec.value, bytesSent.value))
  }

  function FromStream(s: seq<Elem>): Option<FilterEntryDTO>
  {
    var v :- Root(s);
    FromChildren(v)
  }

  function FromBytes(b: seq<byte>): Option<FilterEntryDTO>
  {
    var s :- IonBytes.Parse(b);
    FromStream(s)
  }

  method Encode(x: FilterEntryDTO) returns (bytes: seq<byte>)
    ensures bytes == ToBytes(x)
  {
    var w := new Writer();
    w.StepIn(StructType);
    ghost var layout := ToElem(x).fields;
    Started(w, layout);
    PutString(w, "endpoint", x.endpoint, layout);
    PutStrings(w, "protocols", x.protocols, layout);
    PutI64(w, "bytes_rec", x.bytesRec, layout);
    PutI64(w, "bytes_sent", x.bytesSent, layout);
    bytes := Finish(w, layout);
  }

  /** The body of decode after the reader is built; it steps back out of
      the root struct. */
  method Read(rd: Reader) returns (r: Option<FilterEntryDTO>)
    requires rd.Valid() && Fresh(rd)
    modifies rd
    ensures r == FromStream(old(rd.levels[0].rest))
    ensures rd.Valid() && (r.Some? ==> rd.Depth() == 0)
  {
    var item := rd.Next();
    var ok := rd.StepIn();
    if !ok {
      return None;
    }
    var endpoint :- NextString(rd);
    var protocols :- NextStrings(rd);
    var bytesRec :- NextI64(rd);
    var bytesSent :- NextI64(rd);
    ok := rd.StepOut();
    return Some(FilterEntryDTO(endpoint, protocols, bytesRec, bytesSent));
  }

  method Decode(data: seq<byte>) returns (r: Option<FilterEntryDTO>)
    ensures r == FromBytes(data)
  {
    var s := IonBytes.Parse(data);
    if s.None? {
      return None;
    }
    var rd := new Reader(s.value);
    r := Read(rd);
  }

  lemma RoundTrip(x: FilterEntryDTO)
    ensures FromBytes(ToBytes(x)) == Some(x)
  {
    IonBytes.ParseSerialize([ToElem(x)]);
    var v := Children(ToElem(x));
    assert v == [String(x.endpoint)] + ([List(MapElems(x.protocols, StringElem))] + ([Int(x.bytesRec)] + ([Int(x.bytesSent)] + [])));
    ListOfElems(x.protocols, StringElem, AsString, [Int(x.bytesRec)] + ([Int(x.bytesSent)] + []));
  }

  /** How a parent carries this DTO: one blob holding its encoding. */
  function BlobOf(x: FilterEntryDTO): Elem
  {
    Blob(ToBytes(x))
  }

  /** How a parent reads it back: `as_blob().unwrap()`, then decode. */
  function FromBlob(e: Elem): Option<FilterEntryDTO>
  {
    var b :- AsBlob(e);
    FromBytes(b)
  }

  lemma BlobRoundTrip(x: FilterEntryDTO)
    ensures FromBlob(BlobOf(x)) == Some(x)
  {
    RoundTrip(x);
  }

  /** A parent's encode loop: each element encoded on its own, in order. */
  method EncodeAll(xs: seq<FilterEntryDTO>) returns (bs: seq<seq<byte>>)
    ensures |bs| == |xs| && forall k :: 0 <= k < |xs| ==> bs[k] == ToBytes(xs[k])
  {
    bs := [];
    for i := 0 to |xs|
      invariant |bs| == i && forall k :: 0 <= k < i ==> bs[k] == ToBytes(xs[k])
    {
      var b := Encode(xs[i]);
      bs := bs + [b];
    }
  }

  /** A parent's decode loop over `read_all_elements`: each element is
      `as_blob().unwrap()` and decoded, in order. */
  method DecodeAll(es: seq<Elem>) returns (r: Option<seq<FilterEntryDTO>>)
    ensures r == MapAll(es, FromBlob)
  {
    var acc: seq<FilterEntryDTO> := [];
    for i := 0 to |es|
      invariant MapAll(es[..i], FromBlob) == Some(acc)
    {
      assert es[..i + 1][..i] == es[..i];
      var b := AsBlob(es[i]);
      if b.None? {
        return None;
      }
      var x := Decode(b.value);
      if x.None? {
        return None;
      }
      acc := acc + [x.value];
    }
    assert es[..|es|] == es;
    return Some(acc);
  }

  /** A parent reading a list of these: `next`, `step_in`, the decode loop
      and `step_out`. */
  method NextAll(rd: Reader) returns (r: Option<seq<FilterEntryDTO>>)
    requires rd.Valid()
    modifies rd
    ensures Stayed(rd) && Got(r, rd.Here().rest) == ListOf(old(rd.Here().rest), FromBlob)
  {
    var es :- NextElements(rd);
    r := DecodeAll(es);
  }
}
