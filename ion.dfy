/** The Amazon Ion data model, restricted to the value types the record codecs
    write and read: typed nulls, booleans, 64-bit integers, strings, blobs,
    lists and structs. A struct keeps its fields in the order they were written,
    because every positional decoder depends on that order. */
module Ion {
  import opened Wrappers

  type byte = x: int | 0 <= x < 256

  const I64_MIN: int := -0x8000_0000_0000_0000
  const I64_MAX: int := 0x7FFF_FFFF_FFFF_FFFF

  /** Rust's `i64`. Every integer a codec writes is one, and `read_i64` yields one. */
  type i64 = x: int | I64_MIN <= x <= I64_MAX

  /** `ion_rs::IonType`, for the types that occur in this system. */
  datatype IonType = NullType | BoolType | IntType | StringType | BlobType | ListType | StructType

  datatype Elem =
    | Null(ty: IonType)
    | Bool(b: bool)
    | Int(i: i64)
    | String(s: string)
    | Blob(bytes: seq<byte>)
    | List(items: seq<Elem>)
    | Struct(fields: seq<Field>)

  datatype Field = Field(name: string, value: Elem)

  function TypeOf(e: Elem): IonType
  {
    match e
    case Null(t) => t
    case Bool(_) => BoolType
    case Int(_) => IntType
    case String(_) => StringType
    case Blob(_) => BlobType
    case List(_) => ListType
    case Struct(_) => StructType
  }

  /** A value a reader can step into. */
  predicate IsContainer(e: Elem)
  {
    e.List? || e.Struct?
  }

  /** The field values of a struct, in order. */
  function Values(fs: seq<Field>): (vs: seq<Elem>)
    ensures |vs| == |fs|
    ensures forall k :: 0 <= k < |fs| ==> vs[k] == fs[k].value
  {
    if fs == [] then [] else Values(fs[..|fs| - 1]) + [fs[|fs| - 1].value]
  }

  lemma ValuesAppend(a: seq<Field>, b: seq<Field>)
    ensures Values(a + b) == Values(a) + Values(b)
  {
    assert forall k :: 0 <= k < |a + b| ==> Values(a + b)[k] == (Values(a) + Values(b))[k];
  }

  /** The field names of a struct, in order. */
  function Names(fs: seq<Field>): (ns: seq<string>)
    ensures |ns| == |fs|
    ensures forall k :: 0 <= k < |fs| ==> ns[k] == fs[k].name
  {
    if fs == [] then [] else Names(fs[..|fs| - 1]) + [fs[|fs| - 1].name]
  }

  /** What a reader visits after stepping into a container: the items of a
      list, or the field values of a struct (field names play no part). */
  function Children(e: Elem): seq<Elem>
    requires IsContainer(e)
  {
    if e.List? then e.items else Values(e.fields)
  }

  // The element accessors of `ion_rs::Element`. Each yields None for a typed
  // null and for a value of another type.

  /** `as_string` and `as_text` (this model has no symbols). */
  function AsString(e: Elem): (r: Option<string>)
    ensures r.Some? <==> e.String?
    ensures r.Some? ==> e == String(r.value)
  {
    if e.String? then Some(e.s) else None
  }

  /** `as_i64`. */
  function AsI64(e: Elem): (r: Option<i64>)
    ensures r.Some? <==> e.Int?
    ensures r.Some? ==> e == Int(r.value)
  {
    if e.Int? then Some(e.i) else None
  }

  /** `as_bool`. */
  function AsBool(e: Elem): (r: Option<bool>)
    ensures r.Some? <==> e.Bool?
    ensures r.Some? ==> e == Bool(r.value)
  {
    if e.Bool? then Some(e.b) else None
  }

  /** `as_blob`. */
  function AsBlob(e: Elem): (r: Option<seq<byte>>)
    ensures r.Some? <==> e.Blob?
    ensures r.Some? ==> e == Blob(r.value)
  {
    if e.Blob? then Some(e.bytes) else None
  }

  /** `as_sequence`. */
  function AsSequence(e: Elem): (r: Option<seq<Elem>>)
    ensures r.Some? <==> e.List?
    ensures r.Some? ==> e == List(r.value)
  {
    if e.List? then Some(e.items) else None
  }

  /** `as_struct`. */
  function AsStruct(e: Elem): (r: Option<seq<Field>>)
    ensures r.Some? <==> e.Struct?
    ensures r.Some? ==> e == Struct(r.value)
  {
    if e.Struct? then Some(e.fields) else None
  }

  /** `Struct::get`: the value of the first field called `name`, if any. */
  function Get(fs: seq<Field>, name: string): (r: Option<Elem>)
    ensures r.None? <==> name !in Names(fs)
    ensures r.Some? ==> exists k :: 0 <= k < |fs| && fs[k].name == name && fs[k].value == r.value
  {
    if fs == [] then None
    else if fs[0].name == name then Some(fs[0].value)
    else Get(fs[1..], name)
  }

  /** `get` finds the value of the first field with the name. */
  lemma {:induction false} GetFirst(fs: seq<Field>, k: nat, name: string)
    requires k < |fs| && fs[k].name == name
    requires forall j :: 0 <= j < k ==> fs[j].name != name
    ensures Get(fs, name) == Some(fs[k].value)
  {
    if k > 0 {
      assert fs[0].name != name;
      GetFirst(fs[1..], k - 1, name);
    }
  }
}
