/** The idioms every record codec repeats. On the writing side: a field is a
    `set_field_name` followed by one write, a list is written element by
    element between `step_in(List)` and `step_out`. On the reading side: a
    field is a `next` followed by one read, a list is entered, read whole with
    `read_all_elements` and left. The positional decode functions say what
    those reads yield from the children of the root container. */
module Codec {
  import opened Wrappers
  import opened Ion
  import opened IonWriter
  import opened IonReader
  import IonBytes

  // ---------------------------------------------------------------------
  // Element-wise mapping

  /** The elements `g` makes of `xs`, in the same order. */
  function MapElems<T>(xs: seq<T>, g: T -> Elem): (es: seq<Elem>)
    ensures |es| == |xs|
    ensures forall k :: 0 <= k < |xs| ==> es[k] == g(xs[k])
  {
    if xs == [] then [] else MapElems(xs[..|xs| - 1], g) + [g(xs[|xs| - 1])]
  }

  /** Every element of `es` read with `f`, in order; None as soon as one
      cannot be (where the source's `unwrap` panics). */
  function MapAll<T>(es: seq<Elem>, f: Elem -> Option<T>): (r: Option<seq<T>>)
    ensures r.Some? <==> forall k :: 0 <= k < |es| ==> f(es[k]).Some?
    ensures r.Some? ==> |r.value| == |es| && forall k :: 0 <= k < |es| ==> f(es[k]) == Some(r.value[k])
  {
    if es == [] then Some([])
    else
      match MapAll(es[..|es| - 1], f)
      case None => None
      case Some(init) =>
        match f(es[|es| - 1])
        case None => None
        case Some(x) => Some(init + [x])
  }

  /** Reading back the elements made from `xs` gives `xs`, in order, when
      each element reads back to the value it was made from. */
  lemma MapAllMapElems<T>(xs: seq<T>, g: T -> Elem, f: Elem -> Option<T>)
    requires forall k :: 0 <= k < |xs| ==> f(g(xs[k])) == Some(xs[k])
    ensures MapAll(MapElems(xs, g), f) == Some(xs)
  {
    var r := MapAll(MapElems(xs, g), f);
    assert r.Some?;
    assert r.value == xs;
  }

  function StringElem(s: string): Elem
  {
    String(s)
  }

  function I64Elem(i: i64): Elem
  {
    Int(i)
  }

  function BlobElem(d: seq<byte>): Elem
  {
    Blob(d)
  }

  // ---------------------------------------------------------------------
  // Writing lists

  /** The state after the elements `es` are written into the innermost
      container of `s`, a list. */
  function Into(s: State, es: seq<Elem>): State
    requires InList(s)
  {
    var f := s.open.frame;
    State(s.top, Push(s.open.below, Frame(f.name, List(f.partial.items + es))), None)
  }

  lemma IntoNone(s: State)
    requires InList(s) && s.fieldName.None?
    ensures Into(s, []) == s
  {
    assert s.open.frame.partial.items + [] == s.open.frame.partial.items;
  }

  lemma IntoEmit(s: State, es: seq<Elem>, v: Elem)
    requires InList(s)
    ensures InList(Into(s, es)) && Ready(Into(s, es))
    ensures Emit(Into(s, es), v) == Into(s, es + [v])
  {
    var items := s.open.frame.partial.items;
    assert items + es + [v] == items + (es + [v]);
  }

  /** `for_each(|x| writer.write_string(x))` inside an open list. */
  method WriteStrings(w: Writer, xs: seq<string>)
    requires InList(w.St()) && w.fieldName.None?
    modifies w
    ensures w.St() == Into(old(w.St()), MapElems(xs, StringElem))
    ensures w.output == old(w.output)
  {
    ghost var s0 := w.St();
    IntoNone(s0);
    for i := 0 to |xs|
      invariant w.St() == Into(s0, MapElems(xs[..i], StringElem))
      invariant w.output == old(w.output)
    {
      assert xs[..i + 1][..i] == xs[..i];
      IntoEmit(s0, MapElems(xs[..i], StringElem), StringElem(xs[i]));
      w.WriteString(xs[i]);
    }
    assert xs[..|xs|] == xs;
  }

  /** `for_each(|x| writer.write_i64(x))` inside an open list. */
  method WriteI64s(w: Writer, xs: seq<i64>)
    requires InList(w.St()) && w.fieldName.None?
    modifies w
    ensures w.St() == Into(old(w.St()), MapElems(xs, I64Elem))
    ensures w.output == old(w.output)
  {
    ghost var s0 := w.St();
    IntoNone(s0);
    for i := 0 to |xs|
      invariant w.St() == Into(s0, MapElems(xs[..i], I64Elem))
      invariant w.output == old(w.output)
    {
      assert xs[..i + 1][..i] == xs[..i];
      IntoEmit(s0, MapElems(xs[..i], I64Elem), I64Elem(xs[i]));
      w.WriteI64(xs[i]);
    }
    assert xs[..|xs|] == xs;
  }

  /** `for_each(|x| writer.write_blob(x.encode()))` inside an open list, with
      the children's encodings `bs` made beforehand. */
  method WriteBlobs(w: Writer, bs: seq<seq<byte>>)
    requires InList(w.St()) && w.fieldName.None?
    modifies w
    ensures w.St() == Into(old(w.St()), MapElems(bs, BlobElem))
    ensures w.output == old(w.output)
  {
    ghost var s0 := w.St();
    IntoNone(s0);
    for i := 0 to |bs|
      invariant w.St() == Into(s0, MapElems(bs[..i], BlobElem))
      invariant w.output == old(w.output)
    {
      assert bs[..i + 1][..i] == bs[..i];
      IntoEmit(s0, MapElems(bs[..i], BlobElem), BlobElem(bs[i]));
      w.WriteBlob(bs[i]);
    }
    assert bs[..|bs|] == bs;
  }

  // ---------------------------------------------------------------------
  // Writing the fields of a struct

  /** The fields written so far into the innermost open container, when it
      is a struct. */
  function Written(w: Writer): seq<Field>
    reads w
  {
    if InStruct(w.St()) then w.open.frame.partial.fields else []
  }

  /** `w` is filling a struct laid out as `layout`: the innermost open
      container is a struct, the fields written into it so far are the first
      fields of `layout`, and no field name is pending. */
  ghost predicate Filling(w: Writer, layout: seq<Field>)
    reads w
  {
    InStruct(w.St()) && w.fieldName.None? &&
    |Written(w)| <= |layout| && Written(w) == layout[..|Written(w)|]
  }

  /** The next field of `layout` is `f`. */
  ghost predicate Expects(w: Writer, layout: seq<Field>, f: Field)
    reads w
  {
    Filling(w, layout) && |Written(w)| < |layout| && layout[|Written(w)|] == f
  }

  /** One more field went into the innermost struct, and nothing around it
      changed: the containers it sits in, the name it was opened under, the
      finished top-level values and the output. */
  twostate predicate OneMore(w: Writer)
    reads w
  {
    w.open.Push? && old(w.open).Push? &&
    w.open.below == old(w.open.below) && w.open.frame.name == old(w.open.frame.name) &&
    |Written(w)| == old(|Written(w)|) + 1 &&
    w.top == old(w.top) && w.output == old(w.output)
  }

  lemma TakeOneMore(layout: seq<Field>, k: nat)
    requires k < |layout|
    ensures layout[..k] + [layout[k]] == layout[..k + 1]
  {
  }

  /** `step_in(List)` under the name `n` inside a struct: an empty list on
      top of the struct. */
  lemma OpenList(top: seq<Elem>, below: Stack, name: string, fs: seq<Field>, n: string)
    ensures Open(State(top, Push(below, Frame(name, Struct(fs))), Some(n)), ListType)
         == State(top, Push(Push(below, Frame(name, Struct(fs))), Frame(n, List([]))), None)
  {
  }

  /** `step_out` of a list opened under the name `n` inside a struct: the
      list becomes the struct's last field. */
  lemma CloseList(top: seq<Elem>, below: Stack, name: string, fs: seq<Field>, n: string, es: seq<Elem>)
    ensures Close(State(top, Push(Push(below, Frame(name, Struct(fs))), Frame(n, List(es))), None))
         == State(top, Push(below, Frame(name, Struct(fs + [Field(n, List(es))]))), None)
  {
  }

  /** `set_field_name(n)` and `step_in(List)` inside a struct: an empty list
      opened under `n` on top of the struct state. */
  method BeginList(w: Writer, n: string)
    requires InStruct(w.St()) && w.fieldName.None?
    modifies w
    ensures w.St() == State(old(w.top), Push(old(w.open), Frame(n, List([]))), None)
    ensures w.output == old(w.output)
  {
    ghost var top, below, name, fs := w.top, w.open.below, w.open.frame.name, w.open.frame.partial.fields;
    w.SetFieldName(n);
    OpenList(top, below, name, fs, n);
    w.StepIn(ListType);
  }

  /** `step_out` of a list opened with `BeginList` over the struct state `s`
      and holding `es`: the list is the struct's next field in `layout`, and
      the containers around the struct and the output are as they were. */
  method EndList(w: Writer, n: string, ghost es: seq<Elem>, ghost s: State, ghost layout: seq<Field>)
    requires InStruct(s) && s.fieldName.None?
    requires |s.open.frame.partial.fields| < |layout|
    requires s.open.frame.partial.fields == layout[..|s.open.frame.partial.fields|]
    requires layout[|s.open.frame.partial.fields|] == Field(n, List(es))
    requires w.St() == State(s.top, Push(s.open, Frame(n, List(es))), None)
    modifies w
    ensures Filling(w, layout)
    ensures w.open.Push? && w.open.below == s.open.below && w.open.frame.name == s.open.frame.name
    ensures |Written(w)| == |s.open.frame.partial.fields| + 1
    ensures w.top == s.top && w.output == old(w.output)
  {
    ghost var k := |s.open.frame.partial.fields|;
    CloseList(s.top, s.open.below, s.open.frame.name, s.open.frame.partial.fields, n, es);
    w.StepOut();
    TakeOneMore(layout, k);
  }

  /** `set_field_name(n)` and `write_bool(b)`. */
  method PutBool(w: Writer, n: string, b: bool, ghost layout: seq<Field>)
    requires Expects(w, layout, Field(n, Bool(b)))
    modifies w
    ensures Filling(w, layout) && OneMore(w)
  {
    ghost var k := |Written(w)|;
    w.SetFieldName(n);
    w.WriteBool(b);
    TakeOneMore(layout, k);
  }

  /** `set_field_name(n)` and `write_i64(i)`. */
  method PutI64(w: Writer, n: string, i: i64, ghost layout: seq<Field>)
    requires Expects(w, layout, Field(n, Int(i)))
    modifies w
    ensures Filling(w, layout) && OneMore(w)
  {
    ghost var k := |Written(w)|;
    w.SetFieldName(n);
    w.WriteI64(i);
    TakeOneMore(layout, k);
  }

  /** `set_field_name(n)` and `write_string(s)`. */
  method PutString(w: Writer, n: string, s: string, ghost layout: seq<Field>)
    requires Expects(w, layout, Field(n, String(s)))
    modifies w
    ensures Filling(w, layout) && OneMore(w)
  {
    ghost var k := |Written(w)|;
    w.SetFieldName(n);
    w.WriteString(s);
    TakeOneMore(layout, k);
  }

  /** `set_field_name(n)` and `write_blob(d)`. */
  method PutBlob(w: Writer, n: string, d: seq<byte>, ghost layout: seq<Field>)
    requires Expects(w, layout, Field(n, Blob(d)))
    modifies w
    ensures Filling(w, layout) && OneMore(w)
  {
    ghost var k := |Written(w)|;
    w.SetFieldName(n);
    w.WriteBlob(d);
    TakeOneMore(layout, k);
  }

  /** `set_field_name(n)` and `write_null(t)`. */
  method PutNull(w: Writer, n: string, t: IonType, ghost layout: seq<Field>)
    requires Expects(w, layout, Field(n, Elem.Null(t)))
    modifies w
    ensures Filling(w, layout) && OneMore(w)
  {
    ghost var k := |Written(w)|;
    w.SetFieldName(n);
    w.WriteNull(t);
    TakeOneMore(layout, k);
  }

  /** `set_field_name(n)`, `step_in(List)`, every string written, `step_out`. */
  method PutStrings(w: Writer, n: string, xs: seq<string>, ghost layout: seq<Field>)
    requires Expects(w, layout, Field(n, List(MapElems(xs, StringElem))))
    modifies w
    ensures Filling(w, layout) && OneMore(w)
  {
    ghost var s := w.St();
    ghost var es := MapElems(xs, StringElem);
    BeginList(w, n);
    WriteStrings(w, xs);
    assert [] + es == es;
    EndList(w, n, es, s, layout);
  }

  /** `set_field_name(n)`, `step_in(List)`, every integer written, `step_out`. */
  method PutI64s(w: Writer, n: string, xs: seq<i64>, ghost layout: seq<Field>)
    requires Expects(w, layout, Field(n, List(MapElems(xs, I64Elem))))
    modifies w
    ensures Filling(w, layout) && OneMore(w)
  {
    ghost var s := w.St();
    ghost var es := MapElems(xs, I64Elem);
    BeginList(w, n);
    WriteI64s(w, xs);
    assert [] + es == es;
    EndList(w, n, es, s, layout);
  }

  /** `set_field_name(n)`, `step_in(List)`, every blob written, `step_out`. */
  method PutBlobs(w: Writer, n: string, bs: seq<seq<byte>>, ghost layout: seq<Field>)
    requires Expects(w, layout, Field(n, List(MapElems(bs, BlobElem))))
    modifies w
    ensures Filling(w, layout) && OneMore(w)
  {
    ghost var s := w.St();
    ghost var es := MapElems(bs, BlobElem);
    BeginList(w, n);
    WriteBlobs(w, bs);
    assert [] + es == es;
    EndList(w, n, es, s, layout);
  }

  // ---------------------------------------------------------------------
  // Optional values and presence-flagged lists

  /** An optional integer as encode writes it: the value, or a null Int. */
  function OptI64Elem(o: Option<i64>): Elem
  {
    match o
    case Some(i) => Int(i)
    case None => Elem.Null(IntType)
  }

  /** An optional string as encode writes it: the value, or a null String. */
  function OptStringElem(o: Option<string>): Elem
  {
    match o
    case Some(s) => String(s)
    case None => Elem.Null(StringType)
  }

  /** The fields a presence-flagged list takes up: with a mode, the mode as a
      Bool and then the list under its own name; without one, a null Bool
      and no list at all. */
  function FlagFields(n: string, ln: string, mode: Option<bool>, items: seq<Elem>): (fs: seq<Field>)
    ensures |fs| == if mode.Some? then 2 else 1
    ensures fs[0].name == n && (mode.None? <==> fs[0].value == Elem.Null(BoolType))
  {
    match mode
    case Some(b) => [Field(n, Bool(b)), Field(ln, List(items))]
    case None => [Field(n, Elem.Null(BoolType))]
  }

  /** The fields of `layout` from the current one on start with `fs`. */
  ghost predicate Upcoming(w: Writer, layout: seq<Field>, fs: seq<Field>)
    reads w
  {
    Filling(w, layout) && |Written(w)| + |fs| <= |layout| &&
    layout[|Written(w)|..|Written(w)| + |fs|] == fs
  }

  /** As `OneMore`, for `m` fields. */
  twostate predicate Grew(w: Writer, m: nat)
    reads w
  {
    w.open.Push? && old(w.open).Push? &&
    w.open.below == old(w.open.below) && w.open.frame.name == old(w.open.frame.name) &&
    |Written(w)| == old(|Written(w)|) + m &&
    w.top == old(w.top) && w.output == old(w.output)
  }

  /** The fields of `pre + (mid + post)` right after `pre` are `mid`. */
  lemma Segment(pre: seq<Field>, mid: seq<Field>, post: seq<Field>)
    ensures (pre + (mid + post))[|pre|..|pre| + |mid|] == mid
  {
    assert (pre + (mid + post))[|pre|..] == mid + post;
  }

  /** The first fields of `mid + post` are `mid`. */
  lemma Front(mid: seq<Field>, post: seq<Field>)
    ensures (mid + post)[0..|mid|] == mid
  {
  }

  /** `set_field_name(n)`, then `write_i64` on a value and `write_null(Int)`
      on None. */
  method PutOptI64(w: Writer, n: string, o: Option<i64>, ghost layout: seq<Field>)
    requires Expects(w, layout, Field(n, OptI64Elem(o)))
    modifies w
    ensures Filling(w, layout) && OneMore(w)
  {
    match o
    case Some(i) => PutI64(w, n, i, layout);
    case None => PutNull(w, n, IntType, layout);
  }

  /** `set_field_name(n)`, then `write_string` on a value and
      `write_null(String)` on None. */
  method PutOptString(w: Writer, n: string, o: Option<string>, ghost layout: seq<Field>)
    requires Expects(w, layout, Field(n, OptStringElem(o)))
    modifies w
    ensures Filling(w, layout) && OneMore(w)
  {
    match o
    case Some(s) => PutString(w, n, s, layout);
    case None => PutNull(w, n, StringType, layout);
  }

  /** A presence-flagged string list: on `Some(b)`, the Bool `b` under `n`
      and then the list `ln`; on None, a null Bool under `n` only. */
  method PutFlagStrings(w: Writer, n: string, ln: string, mode: Option<bool>, xs: seq<string>, ghost layout: seq<Field>)
    requires Upcoming(w, layout, FlagFields(n, ln, mode, MapElems(xs, StringElem)))
    modifies w
    ensures Filling(w, layout) && Grew(w, |FlagFields(n, ln, mode, MapElems(xs, StringElem))|)
  {
    match mode
    case Some(b) =>
      PutBool(w, n, b, layout);
      PutStrings(w, ln, xs, layout);
    case None =>
      PutNull(w, n, BoolType, layout);
  }

  /** As `PutFlagStrings`, for a list of integers. */
  method PutFlagI64s(w: Writer, n: string, ln: string, mode: Option<bool>, xs: seq<i64>, ghost layout: seq<Field>)
    requires Upcoming(w, layout, FlagFields(n, ln, mode, MapElems(xs, I64Elem)))
    modifies w
    ensures Filling(w, layout) && Grew(w, |FlagFields(n, ln, mode, MapElems(xs, I64Elem))|)
  {
    match mode
    case Some(b) =>
      PutBool(w, n, b, layout);
      PutI64s(w, ln, xs, layout);
    case None =>
      PutNull(w, n, BoolType, layout);
  }

  /** A writer that has just stepped into its root struct is filling it,
      whatever its layout. */
  lemma Started(w: Writer, layout: seq<Field>)
    requires w.St() == State([], Push(Bottom, Frame("", Struct([]))), None)
    ensures Filling(w, layout) && Written(w) == []
  {
  }

  /** `step_out`, `flush` and `output` once every field of the root struct
      is written: the output holds that struct and nothing else. */
  method Finish(w: Writer, ghost layout: seq<Field>) returns (bytes: seq<byte>)
    requires Filling(w, layout) && |Written(w)| == |layout|
    requires w.open.below == Bottom && w.top == []
    modifies w
    ensures bytes == IonBytes.Serialize([Struct(layout)])
  {
    assert layout[..|layout|] == layout;
    w.StepOut();
    assert w.top == [Struct(layout)];
    w.Flush();
    bytes := w.output;
  }

  // ---------------------------------------------------------------------
  // Positional decoding

  /** A value a decoder read, and the children still ahead of the cursor. */
  datatype Read<T> = Read(value: T, rest: seq<Elem>)

  /** `next` and `step_in` on a fresh reader: the children of the first
      top-level value, which must be a list or a struct. */
  function Root(s: seq<Elem>): Option<seq<Elem>>
  {
    if s != [] && IsContainer(s[0]) then Some(Children(s[0])) else None
  }

  /** `next` then a `read_*(...).unwrap()` that `f` models: the next child
      must be there and of `f`'s type. */
  function Scalar<T>(rest: seq<Elem>, f: Elem -> Option<T>): Option<Read<T>>
  {
    if rest == [] then None
    else
      match f(rest[0])
      case None => None
      case Some(x) => Some(Read(x, rest[1..]))
  }

  /** `next` then `match current() { Value(_) => Some(read...unwrap()), _ => None }`:
      a typed null or the end of the container reads as None. */
  function Nullable<T>(rest: seq<Elem>, f: Elem -> Option<T>): Option<Read<Option<T>>>
  {
    if rest == [] then Some(Read(None, []))
    else if rest[0].Null? then Some(Read(None, rest[1..]))
    else
      match f(rest[0])
      case None => None
      case Some(x) => Some(Read(Some(x), rest[1..]))
  }

  /** As `Nullable`, for the decoders whose `StreamItem::Nothing` arm is
      `todo!()`: the end of the container is a failure. */
  function NullableStrict<T>(rest: seq<Elem>, f: Elem -> Option<T>): Option<Read<Option<T>>>
  {
    if rest == [] then None else Nullable(rest, f)
  }

  /** `next`, `step_in`, `read_all_elements`, `step_out`: the next child must
      be a list (or a struct), and yields its children. */
  function Elements(rest: seq<Elem>): Option<Read<seq<Elem>>>
  {
    if rest == [] || !IsContainer(rest[0]) then None
    else Some(Read(Children(rest[0]), rest[1..]))
  }

  /** `Elements`, with every element read by `f`. */
  function ListOf<T>(rest: seq<Elem>, f: Elem -> Option<T>): Option<Read<seq<T>>>
  {
    var es :- Elements(rest);
    var xs :- MapAll(es.value, f);
    Some(Read(xs, es.rest))
  }

  /** A list written from `xs` with `g` reads back as `xs` with `f`, when `f`
      undoes `g`; the cursor moves past the list and nothing else. */
  lemma ListOfElems<T>(xs: seq<T>, g: T -> Elem, f: Elem -> Option<T>, rest: seq<Elem>)
    requires forall k :: 0 <= k < |xs| ==> f(g(xs[k])) == Some(xs[k])
    ensures ListOf([List(MapElems(xs, g))] + rest, f) == Some(Read(xs, rest))
  {
    MapAllMapElems(xs, g, f);
    assert ([List(MapElems(xs, g))] + rest)[1..] == rest;
  }

  /** An optional integer written as encode does reads back as itself. */
  lemma NullableOptI64(o: Option<i64>, rest: seq<Elem>)
    ensures Nullable([OptI64Elem(o)] + rest, AsI64) == Some(Read(o, rest))
  {
    assert ([OptI64Elem(o)] + rest)[1..] == rest;
  }

  /** An optional string written as encode does reads back as itself. */
  lemma NullableOptString(o: Option<string>, rest: seq<Elem>)
    ensures Nullable([OptStringElem(o)] + rest, AsString) == Some(Read(o, rest))
  {
    assert ([OptStringElem(o)] + rest)[1..] == rest;
  }

  /** `as_string` undoes `OptStringElem`: a null string reads as None. */
  lemma AsStringOpt(o: Option<string>)
    ensures AsString(OptStringElem(o)) == o
  {
  }

  /** `next`, then on `StreamItem::Value(_)`: `read_bool().unwrap()` and the
      list that follows (`Elements` read with `f`); on a null or at the end
      of the container: `(None, vec![])`, and no list is read. */
  function Flagged<T>(rest: seq<Elem>, f: Elem -> Option<T>): Option<Read<(Option<bool>, seq<T>)>>
  {
    if rest == [] then Some(Read((None, []), []))
    else if rest[0].Null? then Some(Read((None, []), rest[1..]))
    else
      var b :- AsBool(rest[0]);
      var xs :- ListOf(rest[1..], f);
      Some(Read((Some(b), xs.value), xs.rest))
  }

  /** The fields of a flagged list read back: with a mode, the mode and the
      list; without one, no mode and an empty list, whatever the list held. */
  lemma FlaggedFlagFields<T>(n: string, ln: string, mode: Option<bool>, xs: seq<T>,
                             g: T -> Elem, f: Elem -> Option<T>, rest: seq<Elem>)
    requires forall k :: 0 <= k < |xs| ==> f(g(xs[k])) == Some(xs[k])
    ensures Flagged(Values(FlagFields(n, ln, mode, MapElems(xs, g))) + rest, f)
            == Some(Read((mode, if mode.Some? then xs else []), rest))
  {
    var es := MapElems(xs, g);
    match mode
    case Some(b) =>
      assert Values(FlagFields(n, ln, mode, es)) == [Bool(b), List(es)];
      ListOfElems(xs, g, f, rest);
      FlaggedPresent(b, es, xs, f, rest);
    case None =>
      assert Values(FlagFields(n, ln, mode, es)) == [Elem.Null(BoolType)];
      assert ([Elem.Null(BoolType)] + rest)[1..] == rest;
  }

  lemma FlaggedPresent<T>(b: bool, items: seq<Elem>, xs: seq<T>, f: Elem -> Option<T>, rest: seq<Elem>)
    requires ListOf([List(items)] + rest, f) == Some(Read(xs, rest))
    ensures Flagged([Bool(b), List(items)] + rest, f) == Some(Read((Some(b), xs), rest))
  {
    assert ([Bool(b), List(items)] + rest)[1..] == [List(items)] + rest;
  }

  /** `read_all_elements` followed by `as_string().unwrap()` on each. */
  method ReadAll<T>(es: seq<Elem>, f: Elem -> Option<T>) returns (r: Option<seq<T>>)
    ensures r == MapAll(es, f)
  {
    var acc: seq<T> := [];
    for i := 0 to |es|
      invariant MapAll(es[..i], f) == Some(acc)
    {
      assert es[..i + 1][..i] == es[..i];
      var x := f(es[i]);
      if x.None? {
        return None;
      }
      acc := acc + [x.value];
    }
    assert es[..|es|] == es;
    return Some(acc);
  }

  // ---------------------------------------------------------------------
  // Reading the fields of a struct

  /** A reader's outcome seen as a positional read: the value read, and the
      children still ahead of the cursor afterwards. */
  function Got<T>(r: Option<T>, rest: seq<Elem>): Option<Read<T>>
  {
    match r
    case None => None
    case Some(x) => Some(Read(x, rest))
  }

  /** The cursor is still in the same container, and the levels around it
      are as they were. */
  twostate predicate Stayed(rd: Reader)
    reads rd
  {
    old(rd.Valid()) && rd.Valid() && |rd.levels| == old(|rd.levels|) &&
    rd.levels[..|rd.levels| - 1] == old(rd.levels[..|rd.levels| - 1])
  }

  /** `next` and `read_bool().unwrap()`. */
  method NextBool(rd: Reader) returns (r: Option<bool>)
    requires rd.Valid()
    modifies rd
    ensures Stayed(rd) && Got(r, rd.Here().rest) == Scalar(old(rd.Here().rest), AsBool)
  {
    var item := rd.Next();
    r := rd.ReadBool();
  }

  /** `next` and `read_i64().unwrap()`. */
  method NextI64(rd: Reader) returns (r: Option<i64>)
    requires rd.Valid()
    modifies rd
    ensures Stayed(rd) && Got(r, rd.Here().rest) == Scalar(old(rd.Here().rest), AsI64)
  {
    var item := rd.Next();
    r := rd.ReadI64();
  }

  /** `next` and `read_string().unwrap()`. */
  method NextString(rd: Reader) returns (r: Option<string>)
    requires rd.Valid()
    modifies rd
    ensures Stayed(rd) && Got(r, rd.Here().rest) == Scalar(old(rd.Here().rest), AsString)
  {
    var item := rd.Next();
    r := rd.ReadString();
  }

  /** `next` and `read_blob().unwrap()`. */
  method NextBlob(rd: Reader) returns (r: Option<seq<byte>>)
    requires rd.Valid()
    modifies rd
    ensures Stayed(rd) && Got(r, rd.Here().rest) == Scalar(old(rd.Here().rest), AsBlob)
  {
    var item := rd.Next();
    r := rd.ReadBlob();
  }

  /** `next`, then `Some(read_i64().unwrap())` on a value and None on
      anything else. */
  method NextOptI64(rd: Reader) returns (r: Option<Option<i64>>)
    requires rd.Valid()
    modifies rd
    ensures Stayed(rd) && Got(r, rd.Here().rest) == Nullable(old(rd.Here().rest), AsI64)
  {
    var item := rd.Next();
    if item.Value? {
      var i :- rd.ReadI64();
      return Some(Some(i));
    }
    return Some(None);
  }

  /** `next`, then `Some(read_string().unwrap())` on a value and None on
      anything else. */
  method NextOptString(rd: Reader) returns (r: Option<Option<string>>)
    requires rd.Valid()
    modifies rd
    ensures Stayed(rd) && Got(r, rd.Here().rest) == Nullable(old(rd.Here().rest), AsString)
  {
    var item := rd.Next();
    if item.Value? {
      var s :- rd.ReadString();
      return Some(Some(s));
    }
    return Some(None);
  }

  /** As `NextOptString`, with the end of the container a failure
      (`StreamItem::Nothing => todo!()`). */
  method NextOptStringStrict(rd: Reader) returns (r: Option<Option<string>>)
    requires rd.Valid()
    modifies rd
    ensures Stayed(rd) && Got(r, rd.Here().rest) == NullableStrict(old(rd.Here().rest), AsString)
  {
    var item := rd.Next();
    if item.Nothing? {
      return None;
    }
    if item.Value? {
      var s :- rd.ReadString();
      return Some(Some(s));
    }
    return Some(None);
  }

  /** `next`, `step_in().unwrap()` and `read_all_elements().unwrap()`, with
      the cursor left inside the list: the children of the next list or
      struct, and the enclosing container's cursor moved past it. */
  method EnterElements(rd: Reader) returns (r: Option<seq<Elem>>)
    requires rd.Valid()
    modifies rd
    ensures rd.Valid()
    ensures r.None? ==> Elements(old(rd.Here().rest)).None? && Stayed(rd)
    ensures r.Some? ==>
              && |rd.levels| == old(|rd.levels|) + 1
              && rd.levels[..old(|rd.levels|) - 1] == old(rd.levels[..|rd.levels| - 1])
              && Elements(old(rd.Here().rest)) == Some(Read(r.value, rd.levels[old(|rd.levels|) - 1].rest))
  {
    var item := rd.Next();
    var ok := rd.StepIn();
    if !ok {
      return None;
    }
    var es := rd.ReadAllElements();
    return Some(es);
  }

  /** `EnterElements` followed by `step_out().unwrap()`: the children of the
      next list or struct, with the cursor back in the enclosing container. */
  method NextElements(rd: Reader) returns (r: Option<seq<Elem>>)
    requires rd.Valid()
    modifies rd
    ensures Stayed(rd) && Got(r, rd.Here().rest) == Elements(old(rd.Here().rest))
  {
    var es :- EnterElements(rd);
    var ok := rd.StepOut();
    return Some(es);
  }

  /** A list of strings: `NextElements` with `as_string().unwrap()` on each
      element, in order. */
  method NextStrings(rd: Reader) returns (r: Option<seq<string>>)
    requires rd.Valid()
    modifies rd
    ensures Stayed(rd) && Got(r, rd.Here().rest) == ListOf(old(rd.Here().rest), AsString)
  {
    var es :- NextElements(rd);
    r := ReadAll(es, AsString);
  }

  /** A list of integers: `NextElements` with `as_i64().unwrap()` on each
      element, in order. */
  method NextI64s(rd: Reader) returns (r: Option<seq<i64>>)
    requires rd.Valid()
    modifies rd
    ensures Stayed(rd) && Got(r, rd.Here().rest) == ListOf(old(rd.Here().rest), AsI64)
  {
    var es :- NextElements(rd);
    r := ReadAll(es, AsI64);
  }

  /** A presence-flagged list of strings (`Flagged`), read as decode does. */
  method NextFlagStrings(rd: Reader) returns (r: Option<(Option<bool>, seq<string>)>)
    requires rd.Valid()
    modifies rd
    ensures Stayed(rd) && Got(r, rd.Here().rest) == Flagged(old(rd.Here().rest), AsString)
  {
    var item := rd.Next();
    if !item.Value? {
      return Some((None, []));
    }
    var b :- rd.ReadBool();
    var xs :- NextStrings(rd);
    return Some((Some(b), xs));
  }

  /** A presence-flagged list of integers (`Flagged`), read as decode does. */
  method NextFlagI64s(rd: Reader) returns (r: Option<(Option<bool>, seq<i64>)>)
    requires rd.Valid()
    modifies rd
    ensures Stayed(rd) && Got(r, rd.Here().rest) == Flagged(old(rd.Here().rest), AsI64)
  {
    var item := rd.Next();
    if !item.Value? {
      return Some((None, []));
    }
    var b :- rd.ReadBool();
    var xs :- NextI64s(rd);
    return Some((Some(b), xs));
  }

  /** A list read whole, each element with `f`: `NextElements`, then
      `f(...).unwrap()` on every element, in order. */
  method NextListOf<T>(rd: Reader, f: Elem -> Option<T>) returns (r: Option<seq<T>>)
    requires rd.Valid()
    modifies rd
    ensures Stayed(rd) && Got(r, rd.Here().rest) == ListOf(old(rd.Here().rest), f)
  {
    var es :- NextElements(rd);
    r := ReadAll(es, f);
  }

  // ---------------------------------------------------------------------
  // Structs written inline

  /** `next`, `step_in`, the fields read by position (what `f` yields from
      the children) and `step_out`: the next child must be a list or a struct. */
  function Nested<T>(rest: seq<Elem>, f: seq<Elem> -> Option<T>): Option<Read<T>>
  {
    if rest == [] || !IsContainer(rest[0]) then None
    else
      var x :- f(Children(rest[0]));
      Some(Read(x, rest[1..]))
  }

  /** `next`, then `Nested` on `StreamItem::Value(_)` and None on a null; the
      end of the container is a failure (`StreamItem::Nothing => todo!()`). */
  function MaybeNested<T>(rest: seq<Elem>, f: seq<Elem> -> Option<T>): Option<Read<Option<T>>>
  {
    if rest == [] then None
    else if rest[0].Null? then Some(Read(None, rest[1..]))
    else
      var x :- Nested(rest, f);
      Some(Read(Some(x.value), x.rest))
  }

  /** `step_in(Struct)` under the name `n` inside a struct: an empty struct on
      top of it. */
  lemma OpenStruct(top: seq<Elem>, below: Stack, name: string, fs: seq<Field>, n: string)
    ensures Open(State(top, Push(below, Frame(name, Struct(fs))), Some(n)), StructType)
         == State(top, Push(Push(below, Frame(name, Struct(fs))), Frame(n, Struct([]))), None)
  {
  }

  /** `step_out` of a struct opened under the name `n` inside a struct: the
      inner struct becomes the outer one's last field. */
  lemma CloseStruct(top: seq<Elem>, below: Stack, name: string, fs: seq<Field>, n: string, inner: seq<Field>)
    ensures Close(State(top, Push(Push(below, Frame(name, Struct(fs))), Frame(n, Struct(inner))), None))
         == State(top, Push(below, Frame(name, Struct(fs + [Field(n, Struct(inner))]))), None)
  {
  }

  /** A reader the decoder built itself: at the top level, before the first
      value. */
  ghost predicate Fresh(rd: Reader)
    reads rd
  {
    |rd.levels| == 1 && rd.levels[0].current.None?
  }
}
