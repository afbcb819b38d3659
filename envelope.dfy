/** `Envelope` of the core API: an optional group id, an optional agent id, a
    type name and the encoded payload. Its own codec is not part of this model; this
    module gives it the layout the dashboards use when they write an envelope inline. */
module Envelope {
  import opened Wrappers
  import opened Ion
  import opened IonWriter
  import opened IonReader
  import opened Codec
  import IonBytes

  datatype Envelope = Envelope(groupId: Option<string>, agentId: Option<string>, envelopeType: string, data: seq<byte>)

  /** The wire layout, in one struct: "group_id" and "agent_id", each a string or a null string, then
      "type" and the blob "data". */
  function ToElem(x: Envelope): Elem
  {
    Struct([Field("group_id", OptStringElem(x.groupId)),
            Field("agent_id", OptStringElem(x.agentId)),
            Field("type", String(x.envelopeType)),
            Field("data", Blob(x.data))])
  }

  function ToBytes(x: Envelope): seq<byte>
  {
    IonBytes.Serialize([ToElem(x)])
  }

  /** What decode reads from the children of the root, by position. */
  function FromChildren(v: seq<Elem>): Option<Envelope>
  {
    var groupId :- Nullable(v, AsString);
    var agentId :- Nullable(groupId.rest, AsString);
    var envelopeType :- Scalar(agentId.rest, AsString);
    var data :- Scalar(envelopeType.rest, AsBlob);
    Some(Envelope(groupId.value, agentId.value, envelopeType.value, data.value))
  }

  function FromStream(s: seq<Elem>): Option<Envelope>
  {
    var v :- Root(s);
    FromChildren(v)
  }

  function FromBytes(b: seq<byte>): Option<Envelope>
  {
    var s :- IonBytes.Parse(b);
    FromStream(s)
  }

  method Encode(x: Envelope) returns (bytes: seq<byte>)
    ensures bytes == ToBytes(x)
  {
    var w := new Writer();
    w.StepIn(StructType);
    ghost var layout := ToElem(x).fields;
    Started(w, layout);
    PutOptString(w, "group_id", x.groupId, layout);
    PutOptString(w, "agent_id", x.agentId, layout);
    PutString(w, "type", x.envelopeType, layout);
    PutBlob(w, "data", x.data, layout);
    bytes := Finish(w, layout);
  }

  /** The body of decode after the reader is built; it steps back out of
      the root struct. */
  method Read(rd: Reader) returns (r: Option<Envelope>)
    requires rd.Valid() && Fresh(rd)
    modifies rd
    ensures r == FromStream(old(rd.levels[0].rest))
    ensures rd.Valid() && (r.Some? ==> rd.Depth() == 0)
  {
    var item := rd.Next();
    var ok := rd.StepIn();
    if !ok {
      return None;
    }
    var groupId :- NextOptString(rd);
    var agentId :- NextOptString(rd);
    var envelopeType :- NextString(rd);
    var data :- NextBlob(rd);
    ok := rd.StepOut();
    return Some(Envelope(groupId, agentId, envelopeType, data));
  }

  method Decode(data: seq<byte>) returns (r: Option<Envelope>)
    ensures r == FromBytes(data)
  {
    var s := IonBytes.Parse(data);
    if s.None? {
      return None;
    }
    var rd := new Reader(s.value);
    r := Read(rd);
  }

  lemma RoundTrip(x: Envelope)
    ensures FromBytes(ToBytes(x)) == Some(x)
  {
    ReadChildren(x);
    IonBytes.ParseSerialize([ToElem(x)]);
  }

  /** The wire order: the children of the root struct, value by value. */
  lemma Layout(x: Envelope)
    ensures Children(ToElem(x))
            == [OptStringElem(x.groupId)] + ([OptStringElem(x.agentId)] + ([String(x.envelopeType)] + [Blob(x.data)]))
  {
    var fields := [Field("group_id", OptStringElem(x.groupId)), Field("agent_id", OptStringElem(x.agentId)), Field("type", String(x.envelopeType)), Field("data", Blob(x.data))];
    assert Values(fields) == [OptStringElem(x.groupId)] + ([OptStringElem(x.agentId)] + ([String(x.envelopeType)] + [Blob(x.data)]));
  }

  /** The children of the encoded root read back field by field. */
  lemma ReadChildren(x: Envelope)
    ensures FromChildren(Children(ToElem(x))) == Some(x)
  {
    var rest3 := [Blob(x.data)];
    var rest2 := [String(x.envelopeType)] + rest3;
    var rest1 := [OptStringElem(x.agentId)] + rest2;
    var v := Children(ToElem(x));
    Layout(x);
    assert Nullable(v, AsString) == Some(Codec.Read(x.groupId, rest1)) by {
      NullableOptString(x.groupId, rest1);
    }
    assert Nullable(rest1, AsString) == Some(Codec.Read(x.agentId, rest2)) by {
      NullableOptString(x.agentId, rest2);
    }
    assert Scalar(rest2, AsString) == Some(Codec.Read(x.envelopeType, rest3)) by {
      assert rest2[1..] == rest3;
    }
    assert Scalar(rest3, AsBlob) == Some(Codec.Read(x.data, [])) by {
      assert rest3[1..] == [];
    }
    Steps(v, rest1, rest2, rest3, x);
  }

  /** `FromChildren` read off from what each of its steps yields. */
  lemma Steps(v: seq<Elem>, rest1: seq<Elem>, rest2: seq<Elem>, rest3: seq<Elem>, x: Envelope)
    requires Nullable(v, AsString) == Some(Codec.Read(x.groupId, rest1))
    requires Nullable(rest1, AsString) == Some(Codec.Read(x.agentId, rest2))
    requires Scalar(rest2, AsString) == Some(Codec.Read(x.envelopeType, rest3))
    requires Scalar(rest3, AsBlob) == Some(Codec.Read(x.data, []))
    ensures FromChildren(v) == Some(x)
  {
  }

  /** A parent decoding one of these from a list element by field name:
      `as_struct().unwrap()`, then `get(name).unwrap()` and the accessor for
      each field; a missing field or a value of another type is a failure,
      except that an optional string of another type reads as None. */
  function FromStructByName(e: Elem): Option<Envelope>
  {
    var fs :- AsStruct(e);
    var agentIdValue :- Get(fs, "agent_id");
    var agentId := AsString(agentIdValue);
    var groupIdValue :- Get(fs, "group_id");
    var groupId := AsString(groupIdValue);
    var envelopeTypeValue :- Get(fs, "type");
    var envelopeType :- AsString(envelopeTypeValue);
    var dataValue :- Get(fs, "data");
    var data :- AsBlob(dataValue);
    Some(Envelope(groupId, agentId, envelopeType, data))
  }

  /** What `FromStructByName` needs of a struct to read back `x`: each name
      finds the value encode writes for it. */
  lemma ByNameFrom(fs: seq<Field>, x: Envelope)
    requires Get(fs, "agent_id") == Some(OptStringElem(x.agentId))
    requires Get(fs, "group_id") == Some(OptStringElem(x.groupId))
    requires Get(fs, "type") == Some(String(x.envelopeType))
    requires Get(fs, "data") == Some(Blob(x.data))
    ensures FromStructByName(Struct(fs)) == Some(x)
  {
    AsStringOpt(x.groupId);
    AsStringOpt(x.agentId);
  }

  /** Looking up "group_id" and "agent_id" in the fields encode writes. */
  lemma FoundByName1(x: Envelope)
    ensures Get(ToElem(x).fields, "group_id") == Some(OptStringElem(x.groupId))
    ensures Get(ToElem(x).fields, "agent_id") == Some(OptStringElem(x.agentId))
  {
    var fs := ToElem(x).fields;
    GetFirst(fs, 0, "group_id");
    GetFirst(fs, 1, "agent_id");
  }

  /** Looking up "type" and "data" in the fields encode writes. */
  lemma FoundByName2(x: Envelope)
    ensures Get(ToElem(x).fields, "type") == Some(String(x.envelopeType))
    ensures Get(ToElem(x).fields, "data") == Some(Blob(x.data))
  {
    var fs := ToElem(x).fields;
    GetFirst(fs, 2, "type");
    GetFirst(fs, 3, "data");
  }

  /** Written inline, one of these reads back by name as itself. */
  lemma ByNameRoundTrip(x: Envelope)
    ensures FromStructByName(ToElem(x)) == Some(x)
  {
    FoundByName1(x);
    FoundByName2(x);
    ByNameFrom(ToElem(x).fields, x);
  }

  /** A list of these written inline reads back, element by element, as itself. */
  lemma NestedListOf(xs: seq<Envelope>, rest: seq<Elem>)
    ensures ListOf([List(MapElems(xs, ToElem))] + rest, FromStructByName) == Some(Codec.Read(xs, rest))
  {
    forall k | 0 <= k < |xs|
      ensures FromStructByName(ToElem(xs[k])) == Some(xs[k])
    {
      ByNameRoundTrip(xs[k]);
    }
    ListOfElems(xs, ToElem, FromStructByName, rest);
  }

  /** The fields encode writes, in the opposite order. */
  function ReversedFields(x: Envelope): (fs: seq<Field>)
    ensures Names(fs) == ["data", "type", "agent_id", "group_id"]
  {
    [Field("data", Blob(x.data)),
            Field("type", String(x.envelopeType)),
            Field("agent_id", OptStringElem(x.agentId)),
            Field("group_id", OptStringElem(x.groupId))]
  }

  /** Looking up "group_id" and "agent_id" in those fields. */
  lemma FoundReversed1(x: Envelope)
    ensures Get(ReversedFields(x), "group_id") == Some(OptStringElem(x.groupId))
    ensures Get(ReversedFields(x), "agent_id") == Some(OptStringElem(x.agentId))
  {
    var fs := ReversedFields(x);
    GetFirst(fs, 3, "group_id");
    GetFirst(fs, 2, "agent_id");
  }

  /** Looking up "type" and "data" in those fields. */
  lemma FoundReversed2(x: Envelope)
    ensures Get(ReversedFields(x), "type") == Some(String(x.envelopeType))
    ensures Get(ReversedFields(x), "data") == Some(Blob(x.data))
  {
    var fs := ReversedFields(x);
    GetFirst(fs, 1, "type");
    GetFirst(fs, 0, "data");
  }

  /** Read by name, the fields in the opposite order give back `x`. */
  lemma ReversedReadsByName(x: Envelope)
    ensures FromStructByName(Struct(ReversedFields(x))) == Some(x)
  {
    FoundReversed1(x);
    FoundReversed2(x);
    ByNameFrom(ReversedFields(x), x);
  }

  /** Read by position, as the blob codec reads an envelope, they do not. */
  lemma ReversedFailsByPosition(x: Envelope)
    ensures FromChildren(Values(ReversedFields(x))) == None
  {
    assert Values(ReversedFields(x))[0] == Blob(x.data);
  }

  /** One of these written inline as a list element: `step_in(Struct)`, the
      fields in order, `step_out`. */
  method WriteNested(w: Writer, x: Envelope)
    requires InList(w.St()) && w.fieldName.None?
    modifies w
    ensures w.St() == Emit(old(w.St()), ToElem(x)) && w.output == old(w.output)
  {
    ghost var inner := ToElem(x).fields;
    w.StepIn(StructType);
    PutOptString(w, "group_id", x.groupId, inner);
    PutOptString(w, "agent_id", x.agentId, inner);
    PutString(w, "type", x.envelopeType, inner);
    PutBlob(w, "data", x.data, inner);
    assert inner[..|inner|] == inner;
    w.StepOut();
  }

  /** `for_each(|x| ...)` writing each of `xs` inline into an open list, in order. */
  method WriteNestedAll(w: Writer, xs: seq<Envelope>)
    requires InList(w.St()) && w.fieldName.None?
    modifies w
    ensures w.St() == Into(old(w.St()), MapElems(xs, ToElem))
    ensures w.output == old(w.output)
  {
    ghost var s0 := w.St();
    IntoNone(s0);
    for i := 0 to |xs|
      invariant w.St() == Into(s0, MapElems(xs[..i], ToElem))
      invariant w.output == old(w.output)
    {
      assert xs[..i + 1][..i] == xs[..i];
      IntoEmit(s0, MapElems(xs[..i], ToElem), ToElem(xs[i]));
      WriteNested(w, xs[i]);
    }
    assert xs[..|xs|] == xs;
  }

  /** A parent writing a list of these inline under `n`: `set_field_name(n)`,
      `step_in(List)`, each element as `WriteNested` in order, `step_out`. */
  method PutNestedAll(w: Writer, n: string, xs: seq<Envelope>, ghost layout: seq<Field>)
    requires Expects(w, layout, Field(n, List(MapElems(xs, ToElem))))
    modifies w
    ensures Filling(w, layout) && OneMore(w)
  {
    ghost var s := w.St();
    ghost var es := MapElems(xs, ToElem);
    BeginList(w, n);
    WriteNestedAll(w, xs);
    assert [] + es == es;
    EndList(w, n, es, s, layout);
  }

  /** How a parent carries this DTO: one blob holding its encoding. */
  function BlobOf(x: Envelope): Elem
  {
    Blob(ToBytes(x))
  }

  /** How a parent reads it back: `as_blob().unwrap()`, then decode. */
  function FromBlob(e: Elem): Option<Envelope>
  {
    var b :- AsBlob(e);
    FromBytes(b)
  }

  lemma BlobRoundTrip(x: Envelope)
    ensures FromBlob(BlobOf(x)) == Some(x)
  {
    RoundTrip(x);
  }

  /** A parent's encode loop: each element encoded on its own, in order. */
  method EncodeAll(xs: seq<Envelope>) returns (bs: seq<seq<byte>>)
    ensures |bs| == |xs| && forall k :: 0 <= k < |xs| ==> bs[k] == ToBytes(xs[k])
  {
    bs := [];
    for i := 0 to |xs|
      invariant |bs| == i && forall k :: 0 <= k < i ==> bs[k] == ToBytes(xs[k])
    {
      var b := Encode(xs[i]);
      bs := bs + [b];
    }
  }

  /** A parent's decode loop over `read_all_elements`: each element is
      `as_blob().unwrap()` and decoded, in order. */
  method DecodeAll(es: seq<Elem>) returns (r: Option<seq<Envelope>>)
    ensures r == MapAll(es, FromBlob)
  {
    var acc: seq<Envelope> := [];
    for i := 0 to |es|
      invariant MapAll(es[..i], FromBlob) == Some(acc)
    {
      assert es[..i + 1][..i] == es[..i];
      var b := AsBlob(es[i]);
      if b.None? {
        return None;
      }
      var x := Decode(b.value);
      if x.None? {
        return None;
      }
      acc := acc + [x.value];
    }
    assert es[..|es|] == es;
    return Some(acc);
  }

  /** A parent reading a list of these: `next`, `step_in`, the decode loop
      and `step_out`. */
  method NextAll(rd: Reader) returns (r: Option<seq<Envelope>>)
    requires rd.Valid()
    modifies rd
    ensures Stayed(rd) && Got(r, rd.Here().rest) == ListOf(old(rd.Here().rest), FromBlob)
  {
    var es :- NextElements(rd);
    r := DecodeAll(es);
  }

  /** How a parent carries an optional one: its blob, or a null blob. */
  function OptBlobOf(o: Option<Envelope>): Elem
  {
    match o
    case Some(x) => BlobOf(x)
    case None => Elem.Null(BlobType)
  }

  /** An optional one reads back as itself. */
  lemma NullableOptBlob(o: Option<Envelope>, rest: seq<Elem>)
    ensures Nullable([OptBlobOf(o)] + rest, FromBlob) == Some(Codec.Read(o, rest))
  {
    if o.Some? {
      BlobRoundTrip(o.value);
    }
    assert ([OptBlobOf(o)] + rest)[1..] == rest;
  }

  /** A parent reading an optional one: `next`; a value is read as a blob and
      decoded, a null is None, and the end of the container is a failure
      (`StreamItem::Nothing => todo!()`). */
  method NextMaybeStrict(rd: Reader) returns (r: Option<Option<Envelope>>)
    requires rd.Valid()
    modifies rd
    ensures Stayed(rd) && Got(r, rd.Here().rest) == NullableStrict(old(rd.Here().rest), FromBlob)
  {
    var item := rd.Next();
    if item.Nothing? {
      return None;
    }
    if item.Value? {
      var b :- rd.ReadBlob();
      var x :- Decode(b);
      return Some(Some(x));
    }
    return Some(None);
  }
}
