/** `Filters` of the timescale API (filters.rs): whether the listed names are
    included or excluded. The type declares no type tag. */
module TimescaleFilters {
  import opened Wrappers
  import opened Ion
  import opened IonWriter
  import opened IonReader
  import opened Codec
  import IonBytes

  datatype Filters = Filters(included: bool, filters: seq<string>)

  /** The wire layout: one struct holding "include" and "filters", in that order. */
  function ToElem(x: Filters): Elem
  {
    Struct([Field("include", Bool(x.included)),
            Field("filters", List(MapElems(x.filters, StringElem)))])
  }

  function ToBytes(x: Filters): seq<byte>
  {
    IonBytes.Serialize([ToElem(x)])
  }

  /** What decode reads from the children of the root, by position. */
  function FromChildren(v: seq<Elem>): Option<Filters>
  {
    var included :- Scalar(v, AsBool);
    var filters :- ListOf(included.rest, AsString);
    Some(Filters(included.value, filters.value))
  }

  function FromStream(s: seq<Elem>): Option<Filters>
  {
    var v :- Root(s);
    FromChildren(v)
  }

  function FromBytes(b: seq<byte>): Option<Filters>
  {
    var s :- IonBytes.Parse(b);
    FromStream(s)
  }

  method Encode(x: Filters) returns (bytes: seq<byte>)
    ensures bytes == ToBytes(x)
  {
    var w := new Writer();
    w.StepIn(StructType);
    ghost var layout := ToElem(x).fields;
    Started(w, layout);
    PutBool(w, "include", x.included, layout);
    PutStrings(w, "filters", x.filters, layout);
    bytes := Finish(w, layout);
  }

  /** The body of decode after the reader is built; it steps back out of
      the root struct. */
  method Read(rd: Reader) returns (r: Option<Filters>)
    requires rd.Valid() && Fresh(rd)
    modifies rd
    ensures r == FromStream(old(rd.levels[0].rest))
    ensures rd.Valid() && (r.Some? ==> rd.Depth() == 0)
  {
    var item := rd.Next();
    var ok := rd.StepIn();
    if !ok {
      return None;
    }
    var included :- NextBool(rd);
    var filters :- NextStrings(rd);
    ok := rd.StepOut();
    return Some(Filters(included, filters));
  }

  method Decode(data: seq<byte>) returns (r: Option<Filters>)
    ensures r == FromBytes(data)
  {
    var s := IonBytes.Parse(data);
    if s.None? {
      return None;
    }
    var rd := new Reader(s.value);
    r := Read(rd);
  }

  lemma RoundTrip(x: Filters)
    ensures FromBytes(ToBytes(x)) == Some(x)
  {
    ReadChildren(x);
    IonBytes.ParseSerialize([ToElem(x)]);
  }

  /** The children of the encoded root read back field by field. */
  lemma ReadChildren(x: Filters)
    ensures FromChildren(Children(ToElem(x))) == Some(x)
  {
    var v := Children(ToElem(x));
    assert v == [Bool(x.included)] + ([List(MapElems(x.filters, StringElem))] + []);
    ListOfElems(x.filters, StringElem, AsString, []);
  }

  /** A parent writing one of these inline under `n`: `set_field_name(n)`,
      `step_in(Struct)`, the fields in order, `step_out`. */
  method PutNested(w: Writer, n: string, x: Filters, ghost layout: seq<Field>)
    requires Expects(w, layout, Field(n, ToElem(x)))
    modifies w
    ensures Filling(w, layout) && OneMore(w)
  {
    ghost var k := |Written(w)|;
    ghost var top, below, name, fs := w.top, w.open.below, w.open.frame.name, w.open.frame.partial.fields;
    ghost var inner := ToElem(x).fields;
    w.SetFieldName(n);
    OpenStruct(top, below, name, fs, n);
    w.StepIn(StructType);
    PutBool(w, "include", x.included, inner);
    PutStrings(w, "filters", x.filters, inner);
    assert inner[..|inner|] == inner;
    CloseStruct(top, below, name, fs, n, inner);
    w.StepOut();
    TakeOneMore(layout, k);
  }

  /** Reading the fields in order from inside one of these, as decode does
      once it has stepped in. */
  method Inside(rd: Reader) returns (r: Option<Filters>)
    requires rd.Valid()
    modifies rd
    ensures Stayed(rd) && r == FromChildren(old(rd.Here().rest))
  {
    var included :- NextBool(rd);
    var filters :- NextStrings(rd);
    return Some(Filters(included, filters));
  }

  /** A parent reading one of these written inline: `next`, `step_in`,
      the fields and `step_out`. */
  method NextNested(rd: Reader) returns (r: Option<Filters>)
    requires rd.Valid()
    modifies rd
    ensures rd.Valid() && Got(r, rd.Here().rest) == Nested(old(rd.Here().rest), FromChildren)
    ensures r.Some? ==> Stayed(rd)
  {
    var item := rd.Next();
    var ok := rd.StepIn();
    if !ok {
      return None;
    }
    var x :- Inside(rd);
    ok := rd.StepOut();
    return Some(x);
  }

  /** Written inline, one of these reads back as itself, and the cursor
      moves past it and nothing else. */
  lemma NestedOf(x: Filters, rest: seq<Elem>)
    ensures Nested([ToElem(x)] + rest, FromChildren) == Some(Codec.Read(x, rest))
  {
    ReadChildren(x);
    assert ([ToElem(x)] + rest)[1..] == rest;
  }

  /** How a parent writes an optional one inline: the struct, or a null struct. */
  function OptElem(o: Option<Filters>): Elem
  {
    match o
    case Some(x) => ToElem(x)
    case None => Elem.Null(StructType)
  }

  /** `set_field_name(n)`, then `PutNested` on a value and `write_null(Struct)` on None. */
  method PutMaybeNested(w: Writer, n: string, o: Option<Filters>, ghost layout: seq<Field>)
    requires Expects(w, layout, Field(n, OptElem(o)))
    modifies w
    ensures Filling(w, layout) && OneMore(w)
  {
    match o
    case Some(x) => PutNested(w, n, x, layout);
    case None => PutNull(w, n, StructType, layout);
  }

  /** A parent reading an optional one written inline: `next`; on a value
      the struct read by `Inside`, on a null None, and at the end of the
      container a failure (`todo!()`). */
  method NextMaybeNested(rd: Reader) returns (r: Option<Option<Filters>>)
    requires rd.Valid()
    modifies rd
    ensures rd.Valid() && Got(r, rd.Here().rest) == MaybeNested(old(rd.Here().rest), FromChildren)
    ensures r.Some? ==> Stayed(rd)
  {
    var item := rd.Next();
    if item.Nothing? {
      return None;
    }
    if item.Null? {
      return Some(None);
    }
    var ok := rd.StepIn();
    if !ok {
      return None;
    }
    var x :- Inside(rd);
    ok := rd.StepOut();
    return Some(Some(x));
  }

  /** An optional one written inline reads back as itself: a null struct
      as None. */
  lemma MaybeNestedOf(o: Option<Filters>, rest: seq<Elem>)
    ensures MaybeNested([OptElem(o)] + rest, FromChildren) == Some(Codec.Read(o, rest))
  {
    assert ([OptElem(o)] + rest)[1..] == rest;
    if o.Some? {
      NestedOf(o.value, rest);
    }
  }
}
