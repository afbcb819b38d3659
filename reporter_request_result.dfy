/** `RequestResultDTO` of the reporter API (request_result/request_result.rs): whether a
    request succeeded, an optional description and an optional response envelope. */
module ReporterRequestResult {
  import opened Wrappers
  import opened Ion
  import opened IonWriter
  import opened IonReader
  import opened Codec
  import IonBytes
  import Envelope

  const DATA_TYPE: string := "request_result"

  datatype RequestResultDTO = RequestResultDTO(isOk: bool, description: Option<string>, response: Option<Envelope.Envelope>)

  /** The wire layout, in one struct: the bool "is_ok", "description" as a string or a null string,
      then "response" as the envelope's own encoding in a blob, or a null blob. */
  function ToElem(x: RequestResultDTO): Elem
  {
    Struct([Field("is_ok", Bool(x.isOk)),
            Field("description", OptStringElem(x.description)),
            Field("response", Envelope.OptBlobOf(x.response))])
  }

  function ToBytes(x: RequestResultDTO): seq<byte>
  {
    IonBytes.Serialize([ToElem(x)])
  }

  /** What decode reads from the children of the root, by position. */
  function FromChildren(v: seq<Elem>): Option<RequestResultDTO>
  {
    var isOk :- Scalar(v, AsBool);
    var description :- NullableStrict(isOk.rest, AsString);
    var response :- NullableStrict(description.rest, Envelope.FromBlob);
    Some(RequestResultDTO(isOk.value, description.value, response.value))
  }

  function FromStream(s: seq<Elem>): Option<RequestResultDTO>
  {
    var v :- Root(s);
    FromChildren(v)
  }

  function FromBytes(b: seq<byte>): Option<RequestResultDTO>
  {
    var s :- IonBytes.Parse(b);
    FromStream(s)
  }

  method Encode(x: RequestResultDTO) returns (bytes: seq<byte>)
    ensures bytes == ToBytes(x)
  {
    var w := new Writer();
    w.StepIn(StructType);
    ghost var layout := ToElem(x).fields;
    Started(w, layout);
    PutBool(w, "is_ok", x.isOk, layout);
    PutOptString(w, "description", x.description, layout);
    match x.response {
      case Some(response) =>
        var responseBytes := Envelope.Encode(response);
        PutBlob(w, "response", responseBytes, layout);
      case None =>
        PutNull(w, "response", BlobType, layout);
    }
    bytes := Finish(w, layout);
  }

  /** The body of decode after the reader is built; it steps back out of
      the root struct. */
  method Read(rd: Reader) returns (r: Option<RequestResultDTO>)
    requires rd.Valid() && Fresh(rd)
    modifies rd
    ensures r == FromStream(old(rd.levels[0].rest))
    ensures rd.Valid() && (r.Some? ==> rd.Depth() == 0)
  {
    var item := rd.Next();
    var ok := rd.StepIn();
    if !ok {
      return None;
    }
    var isOk :- NextBool(rd);
    var description :- NextOptStringStrict(rd);
    var response :- Envelope.NextMaybeStrict(rd);
    ok := rd.StepOut();
    return Some(RequestResultDTO(isOk, description, response));
  }

  method Decode(data: seq<byte>) returns (r: Option<RequestResultDTO>)
    ensures r == FromBytes(data)
  {
    var s := IonBytes.Parse(data);
    if s.None? {
      return None;
    }
    var rd := new Reader(s.value);
    r := Read(rd);
  }

  lemma RoundTrip(x: RequestResultDTO)
    ensures FromBytes(ToBytes(x)) == Some(x)
  {
    ReadChildren(x);
    IonBytes.ParseSerialize([ToElem(x)]);
  }

  /** The wire order: the children of the root struct, value by value. */
  lemma Layout(x: RequestResultDTO)
    ensures Children(ToElem(x))
            == [Bool(x.isOk)] + ([OptStringElem(x.description)] + [Envelope.OptBlobOf(x.response)])
  {
    var fields := [Field("is_ok", Bool(x.isOk)), Field("description", OptStringElem(x.description)), Field("response", Envelope.OptBlobOf(x.response))];
    assert Values(fields) == [Bool(x.isOk)] + ([OptStringElem(x.description)] + [Envelope.OptBlobOf(x.response)]);
  }

  /** The children of the encoded root read back field by field. */
  lemma ReadChildren(x: RequestResultDTO)
    ensures FromChildren(Children(ToElem(x))) == Some(x)
  {
    var rest2 := [Envelope.OptBlobOf(x.response)];
    var rest1 := [OptStringElem(x.description)] + rest2;
    var v := Children(ToElem(x));
    Layout(x);
    assert Scalar(v, AsBool) == Some(Codec.Read(x.isOk, rest1)) by {
      assert v[1..] == rest1;
    }
    assert NullableStrict(rest1, AsString) == Some(Codec.Read(x.description, rest2)) by {
      NullableOptString(x.description, rest2);
    }
    assert NullableStrict(rest2, Envelope.FromBlob) == Some(Codec.Read(x.response, [])) by {
      Envelope.NullableOptBlob(x.response, []);
      assert [Envelope.OptBlobOf(x.response)] + [] == [Envelope.OptBlobOf(x.response)];
    }
    Steps(v, rest1, rest2, x);
  }

  /** `FromChildren` read off from what each of its steps yields. */
  lemma Steps(v: seq<Elem>, rest1: seq<Elem>, rest2: seq<Elem>, x: RequestResultDTO)
    requires Scalar(v, AsBool) == Some(Codec.Read(x.isOk, rest1))
    requires NullableStrict(rest1, AsString) == Some(Codec.Read(x.description, rest2))
    requires NullableStrict(rest2, Envelope.FromBlob) == Some(Codec.Read(x.response, []))
    ensures FromChildren(v) == Some(x)
  {
  }

  /** `get_description`: the description, or an error when there is none. */
  function GetDescription(x: RequestResultDTO): (r: Result<string, string>)
    ensures r.Err? <==> x.description.None?
    ensures r.Ok? ==> x.description == Some(r.value)
    ensures r.Err? ==> r.error == "There is no description provided"
  {
    match x.description
    case Some(d) => Ok(d)
    case None => Err("There is no description provided")
  }
}
