/** `HttpRequestMethodDTO` of the reporter API
    (http_request_methods_distribution/http_request_method.rs): how often one HTTP method was used. */
module ReporterHttpRequestMethod {
  import opened Wrappers
  import opened Ion
  import opened IonWriter
  import opened IonReader
  import opened Codec
  import IonBytes

  const DATA_TYPE: string := "http_request_method"

  datatype HttpRequestMethodDTO = HttpRequestMethodDTO(name: string, amount: i64)

  /** The wire layout: one struct holding "name" and "amount", in that order. */
  function ToElem(x: HttpRequestMethodDTO): Elem
  {
    Struct([Field("name", String(x.name)),
            Field("amount", Int(x.amount))])
  }

  function ToBytes(x: HttpRequestMethodDTO): seq<byte>
  {
    IonBytes.Serialize([ToElem(x)])
  }

  /** What decode reads from the children of the root, by position. */
  function FromChildren(v: seq<Elem>): Option<HttpRequestMethodDTO>
  {
    var name :- Scalar(v, AsString);
    var amount :- Scalar(name.rest, AsI64);
    Some(HttpRequestMethodDTO(name.value, amount.value))
  }

  function FromStream(s: seq<Elem>): Option<HttpRequestMethodDTO>
  {
    var v :- Root(s);
    FromChildren(v)
  }

  function FromBytes(b: seq<byte>): Option<HttpRequestMethodDTO>
  {
    var s :- IonBytes.Parse(b);
    FromStream(s)
  }

  method Encode(x: HttpRequestMethodDTO) returns (bytes: seq<byte>)
    ensures bytes == ToBytes(x)
  {
    var w := new Writer();
    w.StepIn(StructType);
    ghost var layout := ToElem(x).fields;
    Started(w, layout);
    PutString(w, "name", x.name, layout);
    PutI64(w, "amount", x.amount, layout);
    bytes := Finish(w, layout);
  }

  /** The body of decode after the reader is built; it steps back out of
      the root struct. */
  method Read(rd: Reader) returns (r: Option<HttpRequestMethodDTO>)
    requires rd.Valid() && Fresh(rd)
    modifies rd
    ensures r == FromStream(old(rd.levels[0].rest))
    ensures rd.Valid() && (r.Some? ==> rd.Depth() == 0)
  {
    var item := rd.Next();
    var ok := rd.StepIn();
    if !ok {
      return None;
    }
    var name :- NextString(rd);
    var amount :- NextI64(rd);
    ok := rd.StepOut();
    return Some(HttpRequestMethodDTO(name, amount));
  }

  method Decode(data: seq<byte>) returns (r: Option<HttpRequestMethodDTO>)
    ensures r == FromBytes(data)
  {
    var s := IonBytes.Parse(data);
    if s.None? {
      return None;
    }
    var rd := new Reader(s.value);
    r := Read(rd);
  }

  lemma RoundTrip(x: HttpRequestMethodDTO)
    ensures FromBytes(ToBytes(x)) == Some(x)
  {
    IonBytes.ParseSerialize([ToElem(x)]);
    assert Children(ToElem(x)) == [String(x.name), Int(x.amount)];
  }

  /** How a parent carries this DTO: one blob holding its encoding. */
  function BlobOf(x: HttpRequestMethodDTO): Elem
  {
    Blob(ToBytes(x))
  }

  /** How a parent reads it back: `as_blob().unwrap()`, then decode. */
  function FromBlob(e: Elem): Option<HttpRequestMethodDTO>
  {
    var b :- AsBlob(e);
    FromBytes(b)
  }

  lemma BlobRoundTrip(x: HttpRequestMethodDTO)
    ensures FromBlob(BlobOf(x)) == Some(x)
  {
    RoundTrip(x);
  }

  /** A parent's encode loop: each element encoded on its own, in order. */
  method EncodeAll(xs: seq<HttpRequestMethodDTO>) returns (bs: seq<seq<byte>>)
    ensures |bs| == |xs| && forall k :: 0 <= k < |xs| ==> bs[k] == ToBytes(xs[k])
  {
    bs := [];
    for i := 0 to |xs|
      invariant |bs| == i && forall k :: 0 <= k < i ==> bs[k] == ToBytes(xs[k])
    {
      var b := Encode(xs[i]);
      bs := bs + [b];
    }
  }

  /** A parent's decode loop over `read_all_elements`: each element is
      `as_blob().unwrap()` and decoded, in order. */
  method DecodeAll(es: seq<Elem>) returns (r: Option<seq<HttpRequestMethodDTO>>)
    ensures r == MapAll(es, FromBlob)
  {
    var acc: seq<HttpRequestMethodDTO> := [];
    for i := 0 to |es|
      invariant MapAll(es[..i], FromBlob) == Some(acc)
    {
      assert es[..i + 1][..i] == es[..i];
      var b := AsBlob(es[i]);
      if b.None? {
        return None;
      }
      var x := Decode(b.value);
      if x.None? {
        return None;
      }
      acc := acc + [x.value];
    }
    assert es[..|es|] == es;
    return Some(acc);
  }

  /** A parent reading a list of these: `next`, `step_in`, the decode loop
      and `step_out`. */
  method NextAll(rd: Reader) returns (r: Option<seq<HttpRequestMethodDTO>>)
    requires rd.Valid()
    modifies rd
    ensures Stayed(rd) && Got(r, rd.Here().rest) == ListOf(old(rd.Here().rest), FromBlob)
  {
    var es :- NextElements(rd);
    r := DecodeAll(es);
  }
}
