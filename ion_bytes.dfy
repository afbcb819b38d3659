/** The byte boundary between a writer's output and a reader's input.

    A binary Ion stream is replaced by a simple self-delimiting stand-in: a tag
    byte per value, base-128 variable-length unsigned integers for lengths and
    counts, and the lengths of strings, blobs, lists and structs written before
    their contents. What the record codecs rely on is only that reading the
    bytes back yields the same top-level values, and that is proved here
    (`ParseSerialize`). */
module IonBytes {
  import opened Wrappers
  import opened Ion

  /** A base-128 unsigned integer, least significant group first; the high
      bit of a byte says another byte follows. */
  function VarUInt(n: nat): (b: seq<byte>)
    ensures |b| > 0
    decreases n
  {
    if n < 128 then [n] else [128 + n % 128] + VarUInt(n / 128)
  }

  function ReadVarUInt(b: seq<byte>): (r: Option<(nat, seq<byte>)>)
    ensures r.Some? ==> |r.value.1| < |b|
  {
    if |b| == 0 then None
    else if b[0] < 128 then Some((b[0], b[1..]))
    else
      match ReadVarUInt(b[1..])
      case None => None
      case Some((m, rest)) => Some((b[0] - 128 + 128 * m, rest))
  }

  lemma {:induction false} ReadVarUIntOf(n: nat, rest: seq<byte>)
    ensures ReadVarUInt(VarUInt(n) + rest) == Some((n, rest))
    decreases n
  {
    if n >= 128 {
      ReadVarUIntOf(n / 128, rest);
      assert VarUInt(n) + rest == [128 + n % 128] + (VarUInt(n / 128) + rest);
    }
  }

  function TypeCode(t: IonType): byte
  {
    match t
    case NullType => 0
    case BoolType => 1
    case IntType => 2
    case StringType => 3
    case BlobType => 4
    case ListType => 5
    case StructType => 6
  }

  function CodeType(c: byte): Option<IonType>
  {
    if c == 0 then Some(NullType)
    else if c == 1 then Some(BoolType)
    else if c == 2 then Some(IntType)
    else if c == 3 then Some(StringType)
    else if c == 4 then Some(BlobType)
    else if c == 5 then Some(ListType)
    else if c == 6 then Some(StructType)
    else None
  }

  /** A Unicode scalar value, the code points a Dafny `char` can hold. */
  predicate IsScalar(n: nat)
  {
    n < 0xD800 || (0xE000 <= n < 0x11_0000)
  }

  function Chars(s: string): seq<byte>
  {
    if s == [] then [] else VarUInt(s[0] as int) + Chars(s[1..])
  }

  /** A string: its length in characters, then each code point. */
  function Text(s: string): seq<byte>
  {
    VarUInt(|s|) + Chars(s)
  }

  function ReadChars(b: seq<byte>, n: nat): (r: Option<(string, seq<byte>)>)
    ensures r.Some? ==> |r.value.1| <= |b|
    decreases n
  {
    if n == 0 then Some(([], b))
    else
      match ReadVarUInt(b)
      case None => None
      case Some((c, rest)) =>
        if !IsScalar(c) then None
        else
          match ReadChars(rest, n - 1)
          case None => None
          case Some((s, rest')) => Some(([c as char] + s, rest'))
  }

  function ReadText(b: seq<byte>): (r: Option<(string, seq<byte>)>)
    ensures r.Some? ==> |r.value.1| < |b|
  {
    match ReadVarUInt(b)
    case None => None
    case Some((n, rest)) => ReadChars(rest, n)
  }

  lemma {:induction false} ReadCharsOf(s: string, rest: seq<byte>)
    ensures ReadChars(Chars(s) + rest, |s|) == Some((s, rest))
    decreases |s|
  {
    if s != [] {
      var c, tail := s[0] as int, Chars(s[1..]) + rest;
      assert Chars(s) + rest == VarUInt(c) + tail;
      ReadVarUIntOf(c, tail);
      assert IsScalar(c);
      ReadCharsOf(s[1..], rest);
      assert ReadChars(tail, |s| - 1) == Some((s[1..], rest));
      assert [c as char] + s[1..] == s;
    } else {
      assert Chars(s) + rest == rest;
    }
  }

  lemma ReadTextOf(s: string, rest: seq<byte>)
    ensures ReadText(Text(s) + rest) == Some((s, rest))
  {
    ReadVarUIntOf(|s|, Chars(s) + rest);
    assert Text(s) + rest == VarUInt(|s|) + (Chars(s) + rest);
    ReadCharsOf(s, rest);
  }

  function Ser(e: Elem): seq<byte>
    decreases e, 1
  {
    match e
    case Null(t) => [0, TypeCode(t)]
    case Bool(b) => [1, if b then 1 else 0]
    case Int(i) => [2] + VarUInt(i - I64_MIN)
    case String(s) => [3] + Text(s)
    case Blob(d) => [4] + VarUInt(|d|) + d
    case List(items) => [5] + VarUInt(|items|) + SerList(items)
    case Struct(fs) => [6] + VarUInt(|fs|) + SerFields(fs)
  }

  function SerList(es: seq<Elem>): seq<byte>
    decreases es, 0
  {
    if es == [] then [] else Ser(es[0]) + SerList(es[1..])
  }

  function SerFields(fs: seq<Field>): seq<byte>
    decreases fs, 0
  {
    if fs == [] then [] else Text(fs[0].name) + Ser(fs[0].value) + SerFields(fs[1..])
  }

  function ParseElem(b: seq<byte>): (r: Option<(Elem, seq<byte>)>)
    ensures r.Some? ==> |r.value.1| < |b|
    decreases |b|, 1
  {
    if |b| == 0 then None
    else if b[0] == 0 then ParseNull(b[1..])
    else if b[0] == 1 then ParseBool(b[1..])
    else if b[0] == 2 then ParseInt(b[1..])
    else if b[0] == 3 then ParseString(b[1..])
    else if b[0] == 4 then ParseBlob(b[1..])
    else if b[0] == 5 then ParseList(b[1..])
    else if b[0] == 6 then ParseStruct(b[1..])
    else None
  }

  function ParseNull(body: seq<byte>): (r: Option<(Elem, seq<byte>)>)
    ensures r.Some? ==> |r.value.1| < |body|
  {
    if |body| == 0 then None
    else match CodeType(body[0])
         case None => None
         case Some(t) => Some((Null(t), body[1..]))
  }

  function ParseBool(body: seq<byte>): (r: Option<(Elem, seq<byte>)>)
    ensures r.Some? ==> |r.value.1| < |body|
  {
    if |body| == 0 || body[0] > 1 then None else Some((Bool(body[0] == 1), body[1..]))
  }

  function ParseInt(body: seq<byte>): (r: Option<(Elem, seq<byte>)>)
    ensures r.Some? ==> |r.value.1| < |body|
  {
    match ReadVarUInt(body)
    case None => None
    case Some((n, rest)) =>
      if n + I64_MIN <= I64_MAX then Some((Int(n + I64_MIN), rest)) else None
  }

  function ParseString(body: seq<byte>): (r: Option<(Elem, seq<byte>)>)
    ensures r.Some? ==> |r.value.1| < |body|
  {
    match ReadText(body)
    case None => None
    case Some((s, rest)) => Some((String(s), rest))
  }

  function ParseBlob(body: seq<byte>): (r: Option<(Elem, seq<byte>)>)
    ensures r.Some? ==> |r.value.1| < |body|
  {
    match ReadVarUInt(body)
    case None => None
    case Some((n, rest)) =>
      if n <= |rest| then Some((Blob(rest[..n]), rest[n..])) else None
  }

  function ParseList(body: seq<byte>): (r: Option<(Elem, seq<byte>)>)
    ensures r.Some? ==> |r.value.1| < |body|
    decreases |body|, 0
  {
    match ReadVarUInt(body)
    case None => None
    case Some((n, rest)) =>
      match ParseElems(rest, n)
      case None => None
      case Some((items, rest')) => Some((List(items), rest'))
  }

  function ParseStruct(body: seq<byte>): (r: Option<(Elem, seq<byte>)>)
    ensures r.Some? ==> |r.value.1| < |body|
    decreases |body|, 0
  {
    match ReadVarUInt(body)
    case None => None
    case Some((n, rest)) =>
      match ParseFields(rest, n)
      case None => None
      case Some((fs, rest')) => Some((Struct(fs), rest'))
  }

  function ParseElems(b: seq<byte>, n: nat): (r: Option<(seq<Elem>, seq<byte>)>)
    ensures r.Some? ==> |r.value.1| <= |b|
    decreases |b|, n + 2
  {
    if n == 0 then Some(([], b))
    else
      match ParseElem(b)
      case None => None
      case Some((e, rest)) =>
        match ParseElems(rest, n - 1)
        case None => None
        case Some((es, rest')) => Some(([e] + es, rest'))
  }

  function ParseFields(b: seq<byte>, n: nat): (r: Option<(seq<Field>, seq<byte>)>)
    ensures r.Some? ==> |r.value.1| <= |b|
    decreases |b|, n + 2
  {
    if n == 0 then Some(([], b))
    else
      match ReadText(b)
      case None => None
      case Some((name, rest)) =>
        match ParseElem(rest)
        case None => None
        case Some((v, rest')) =>
          match ParseFields(rest', n - 1)
          case None => None
          case Some((fs, rest'')) => Some(([Field(name, v)] + fs, rest''))
  }

  /** The bytes `output()` returns once the writer has flushed the top-level
      values `s`. */
  function Serialize(s: seq<Elem>): seq<byte>
  {
    VarUInt(|s|) + SerList(s)
  }

  /** The top-level values a reader built on `b` visits; None when the bytes
      are not a complete stream. */
  function Parse(b: seq<byte>): Option<seq<Elem>>
  {
    match ReadVarUInt(b)
    case None => None
    case Some((n, rest)) =>
      match ParseElems(rest, n)
      case None => None
      case Some((s, rest')) => if rest' == [] then Some(s) else None
  }

  lemma ParseSerNull(t: IonType, rest: seq<byte>)
    ensures ParseElem(Ser(Null(t)) + rest) == Some((Null(t), rest))
  {
    var b := Ser(Null(t)) + rest;
    assert b == [0, TypeCode(t)] + rest;
    assert b[1..] == [TypeCode(t)] + rest;
    assert ParseNull(b[1..]) == Some((Null(t), rest));
  }

  lemma ParseSerBool(v: bool, rest: seq<byte>)
    ensures ParseElem(Ser(Bool(v)) + rest) == Some((Bool(v), rest))
  {
    var b := Ser(Bool(v)) + rest;
    assert b == [1, if v then 1 else 0] + rest;
    assert b[1..] == [if v then 1 else 0] + rest;
    assert ParseBool(b[1..]) == Some((Bool(v), rest));
  }

  lemma ParseSerInt(i: i64, rest: seq<byte>)
    ensures ParseElem(Ser(Int(i)) + rest) == Some((Int(i), rest))
  {
    var b := Ser(Int(i)) + rest;
    assert b == [2] + (VarUInt(i - I64_MIN) + rest);
    ReadVarUIntOf(i - I64_MIN, rest);
    assert ParseInt(b[1..]) == Some((Int(i), rest));
  }

  lemma ParseSerString(s: string, rest: seq<byte>)
    ensures ParseElem(Ser(String(s)) + rest) == Some((String(s), rest))
  {
    var b := Ser(String(s)) + rest;
    assert b == [3] + (Text(s) + rest);
    ReadTextOf(s, rest);
    assert ParseString(b[1..]) == Some((String(s), rest));
  }

  lemma ParseSerBlob(d: seq<byte>, rest: seq<byte>)
    ensures ParseElem(Ser(Blob(d)) + rest) == Some((Blob(d), rest))
  {
    var b := Ser(Blob(d)) + rest;
    assert b == [4] + (VarUInt(|d|) + (d + rest));
    ReadVarUIntOf(|d|, d + rest);
    assert (d + rest)[..|d|] == d && (d + rest)[|d|..] == rest;
    assert ParseBlob(b[1..]) == Some((Blob(d), rest));
  }

  lemma {:induction false} ParseSer(e: Elem, rest: seq<byte>)
    ensures ParseElem(Ser(e) + rest) == Some((e, rest))
    decreases e, 1
  {
    match e
    case Null(t) => ParseSerNull(t, rest);
    case Bool(v) => ParseSerBool(v, rest);
    case Int(i) => ParseSerInt(i, rest);
    case String(s) => ParseSerString(s, rest);
    case Blob(d) => ParseSerBlob(d, rest);
    case List(items) => ParseSerListElem(items, rest);
    case Struct(fs) => ParseSerStruct(fs, rest);
  }

  lemma {:induction false} ParseSerListElem(items: seq<Elem>, rest: seq<byte>)
    ensures ParseElem(Ser(List(items)) + rest) == Some((List(items), rest))
    decreases items, 2
  {
    var b := Ser(List(items)) + rest;
    assert b == [5] + (VarUInt(|items|) + (SerList(items) + rest));
    ReadVarUIntOf(|items|, SerList(items) + rest);
    ParseSerList(items, rest);
    assert ParseList(b[1..]) == Some((List(items), rest));
  }

  lemma {:induction false} ParseSerStruct(fs: seq<Field>, rest: seq<byte>)
    ensures ParseElem(Ser(Struct(fs)) + rest) == Some((Struct(fs), rest))
    decreases fs, 2
  {
    var b := Ser(Struct(fs)) + rest;
    assert b == [6] + (VarUInt(|fs|) + (SerFields(fs) + rest));
    ReadVarUIntOf(|fs|, SerFields(fs) + rest);
    ParseSerFields(fs, rest);
    assert ParseStruct(b[1..]) == Some((Struct(fs), rest));
  }

  lemma {:induction false} ParseSerList(es: seq<Elem>, rest: seq<byte>)
    ensures ParseElems(SerList(es) + rest, |es|) == Some((es, rest))
    decreases es, 0
  {
    if es != [] {
      ParseSer(es[0], SerList(es[1..]) + rest);
      assert SerList(es) + rest == Ser(es[0]) + (SerList(es[1..]) + rest);
      ParseSerList(es[1..], rest);
      assert [es[0]] + es[1..] == es;
    } else {
      assert SerList(es) + rest == rest;
    }
  }

  lemma {:induction false} ParseSerFields(fs: seq<Field>, rest: seq<byte>)
    ensures ParseFields(SerFields(fs) + rest, |fs|) == Some((fs, rest))
    decreases fs, 0
  {
    if fs != [] {
      var tail := SerFields(fs[1..]) + rest;
      ReadTextOf(fs[0].name, Ser(fs[0].value) + tail);
      ParseSer(fs[0].value, tail);
      assert SerFields(fs) + rest == Text(fs[0].name) + (Ser(fs[0].value) + tail);
      ParseSerFields(fs[1..], rest);
      assert [Field(fs[0].name, fs[0].value)] + fs[1..] == fs;
    } else {
      assert SerFields(fs) + rest == rest;
    }
  }

  /** Reading back what a writer flushed yields exactly the values it wrote. */
  lemma ParseSerialize(s: seq<Elem>)
    ensures Parse(Serialize(s)) == Some(s)
  {
    ReadVarUIntOf(|s|, SerList(s));
    ParseSerList(s, []);
    assert SerList(s) + [] == SerList(s);
  }
}
