/** `HttpClientDTO` of the reporter API (http_clients/http_client.rs): an endpoint, an
    optional user agent and the request line. */
module ReporterHttpClient {
  import opened Wrappers
  import opened Ion
  import opened IonWriter
  import opened IonReader
  import opened Codec
  import IonBytes

  const DATA_TYPE: string := "http_client"

  datatype HttpClientDTO = HttpClientDTO(endpoint: string, userAgent: Option<string>, request: string)

  /** The wire layout, in one struct: "endpoint", "user_agent" as a string or a null string, then "request". */
  function ToElem(x: HttpClientDTO): Elem
  {
    Struct([Field("endpoint", String(x.endpoint)),
            Field("user_agent", OptStringElem(x.userAgent)),
            Field("request", String(x.request))])
  }

  function ToBytes(x: HttpClientDTO): seq<byte>
  {
    IonBytes.Serialize([ToElem(x)])
  }

  /** What decode reads from the children of the root, by position. */
  function FromChildren(v: seq<Elem>): Option<HttpClientDTO>
  {
    var endpoint :- Scalar(v, AsString);
    var userAgent :- Nullable(endpoint.rest, AsString);
    var request :- Scalar(userAgent.rest, AsString);
    Some(HttpClientDTO(endpoint.value, userAgent.value, request.value))
  }

  function FromStream(s: seq<Elem>): Option<HttpClientDTO>
  {
    var v :- Root(s);
    FromChildren(v)
  }

  function FromBytes(b: seq<byte>): Option<HttpClientDTO>
  {
    var s :- IonBytes.Parse(b);
    FromStream(s)
  }

  method Encode(x: HttpClientDTO) returns (bytes: seq<byte>)
    ensures bytes == ToBytes(x)
  {
    var w := new Writer();
    w.StepIn(StructType);
    ghost var layout := ToElem(x).fields;
    Started(w, layout);
    PutString(w, "endpoint", x.endpoint, layout);
    PutOptString(w, "user_agent", x.userAgent, layout);
    PutString(w, "request", x.request, layout);
    bytes := Finish(w, layout);
  }

  /** The body of decode after the reader is built; it steps back out of
      the root struct. */
  method Read(rd: Reader) returns (r: Option<HttpClientDTO>)
    requires rd.Valid() && Fresh(rd)
    modifies rd
    ensures r == FromStream(old(rd.levels[0].rest))
    ensures rd.Valid() && (r.Some? ==> rd.Depth() == 0)
  {
    var item := rd.Next();
    var ok := rd.StepIn();
    if !ok {
      return None;
    }
    var endpoint :- NextString(rd);
    var userAgent :- NextOptString(rd);
    var request :- NextString(rd);
    ok := rd.StepOut();
    return Some(HttpClientDTO(endpoint, userAgent, request));
  }

  method Decode(data: seq<byte>) returns (r: Option<HttpClientDTO>)
    ensures r == FromBytes(data)
  {
    var s := IonBytes.Parse(data);
    if s.None? {
      return None;
    }
    var rd := new Reader(s.value);
    r := Read(rd);
  }

  lemma RoundTrip(x: HttpClientDTO)
    ensures FromBytes(ToBytes(x)) == Some(x)
  {
    ReadChildren(x);
    IonBytes.ParseSerialize([ToElem(x)]);
  }

  /** The wire order: the children of the root struct, value by value. */
  lemma Layout(x: HttpClientDTO)
    ensures Children(ToElem(x))
            == [String(x.endpoint)] + ([OptStringElem(x.userAgent)] + [String(x.request)])
  {
    var fields := [Field("endpoint", String(x.endpoint)), Field("user_agent", OptStringElem(x.userAgent)), Field("request", String(x.request))];
    assert Values(fields) == [String(x.endpoint)] + ([OptStringElem(x.userAgent)] + [String(x.request)]);
  }

  /** The children of the encoded root read back field by field. */
  lemma ReadChildren(x: HttpClientDTO)
    ensures FromChildren(Children(ToElem(x))) == Some(x)
  {
    var rest2 := [String(x.request)];
    var rest1 := [OptStringElem(x.userAgent)] + rest2;
    var v := Children(ToElem(x));
    Layout(x);
    assert Scalar(v, AsString) == Some(Codec.Read(x.endpoint, rest1)) by {
      assert v[1..] == rest1;
    }
    assert Nullable(rest1, AsString) == Some(Codec.Read(x.userAgent, rest2)) by {
      NullableOptString(x.userAgent, rest2);
    }
    assert Scalar(rest2, AsString) == Some(Codec.Read(x.request, [])) by {
      assert rest2[1..] == [];
    }
    Steps(v, rest1, rest2, x);
  }

  /** `FromChildren` read off from what each of its steps yields. */
  lemma Steps(v: seq<Elem>, rest1: seq<Elem>, rest2: seq<Elem>, x: HttpClientDTO)
    requires Scalar(v, AsString) == Some(Codec.Read(x.endpoint, rest1))
    requires Nullable(rest1, AsString) == Some(Codec.Read(x.userAgent, rest2))
    requires Scalar(rest2, AsString) == Some(Codec.Read(x.request, []))
    ensures FromChildren(v) == Some(x)
  {
  }

  /** How a parent carries this DTO: one blob holding its encoding. */
  function BlobOf(x: HttpClientDTO): Elem
  {
    Blob(ToBytes(x))
  }

  /** How a parent reads it back: `as_blob().unwrap()`, then decode. */
  function FromBlob(e: Elem): Option<HttpClientDTO>
  {
    var b :- AsBlob(e);
    FromBytes(b)
  }

  lemma BlobRoundTrip(x: HttpClientDTO)
    ensures FromBlob(BlobOf(x)) == Some(x)
  {
    RoundTrip(x);
  }

  /** A parent's encode loop: each element encoded on its own, in order. */
  method EncodeAll(xs: seq<HttpClientDTO>) returns (bs: seq<seq<byte>>)
    ensures |bs| == |xs| && forall k :: 0 <= k < |xs| ==> bs[k] == ToBytes(xs[k])
  {
    bs := [];
    for i := 0 to |xs|
      invariant |bs| == i && forall k :: 0 <= k < i ==> bs[k] == ToBytes(xs[k])
    {
      var b := Encode(xs[i]);
      bs := bs + [b];
    }
  }

  /** A parent's decode loop over `read_all_elements`: each element is
      `as_blob().unwrap()` and decoded, in order. */
  method DecodeAll(es: seq<Elem>) returns (r: Option<seq<HttpClientDTO>>)
    ensures r == MapAll(es, FromBlob)
  {
    var acc: seq<HttpClientDTO> := [];
    for i := 0 to |es|
      invariant MapAll(es[..i], FromBlob) == Some(acc)
    {
      assert es[..i + 1][..i] == es[..i];
      var b := AsBlob(es[i]);
      if b.None? {
        return None;
      }
      var x := Decode(b.value);
      if x.None? {
        return None;
      }
      acc := acc + [x.value];
    }
    assert es[..|es|] == es;
    return Some(acc);
  }

  /** A parent reading a list of these: `next`, `step_in`, the decode loop
      and `step_out`. */
  method NextAll(rd: Reader) returns (r: Option<seq<HttpClientDTO>>)
    requires rd.Valid()
    modifies rd
    ensures Stayed(rd) && Got(r, rd.Here().rest) == ListOf(old(rd.Here().rest), FromBlob)
  {
    var es :- NextElements(rd);
    r := DecodeAll(es);
  }
}
