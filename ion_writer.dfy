/** The `ion_rs` writer as the encoders drive it: `step_in`, `set_field_name`,
    the `write_*` calls, `step_out`, `flush` and `output`. */
module IonWriter {
  import opened Wrappers
  import opened Ion
  import IonBytes

  /** A container the writer has stepped into and not yet out of: the field
      name it will be stored under when its parent is a struct ("" when it is
      not), and the list or struct written into it so far. */
  datatype Frame = Frame(name: string, partial: Elem)

  /** The open containers, innermost on top. */
  datatype Stack = Bottom | Push(below: Stack, frame: Frame)

  function Height(st: Stack): nat
  {
    match st
    case Bottom => 0
    case Push(below, _) => Height(below) + 1
  }

  /** The writer's whole state: the finished top-level values, the open
      containers and the field name set for the next value. */
  datatype State = State(top: seq<Elem>, open: Stack, fieldName: Option<string>)

  /** Every open frame holds a list or a struct. */
  ghost predicate WellFormed(st: Stack)
  {
    match st
    case Bottom => true
    case Push(below, f) => IsContainer(f.partial) && WellFormed(below)
  }

  predicate InStruct(s: State)
  {
    s.open.Push? && s.open.frame.partial.Struct?
  }

  predicate InList(s: State)
  {
    s.open.Push? && s.open.frame.partial.List?
  }

  /** A value may be written: inside a struct it needs a field name. */
  predicate Ready(s: State)
  {
    InStruct(s) ==> s.fieldName.Some?
  }

  /** The name the next value is stored under. */
  function Slot(s: State): string
    requires Ready(s)
  {
    if InStruct(s) then s.fieldName.value else ""
  }

  /** `v` added at the end of container `f`. */
  function Append(f: Frame, name: string, v: Elem): Frame
  {
    match f.partial
    case List(items) => Frame(f.name, List(items + [v]))
    case Struct(fields) => Frame(f.name, Struct(fields + [Field(name, v)]))
    case _ => f
  }

  /** The state after the finished value `v` is written: it becomes a
      top-level value when nothing is open and the last child of the
      innermost container otherwise; the field name is used up either way. */
  function Emit(s: State, v: Elem): State
    requires Ready(s)
  {
    match s.open
    case Bottom => State(s.top + [v], Bottom, None)
    case Push(below, f) => State(s.top, Push(below, Append(f, Slot(s), v)), None)
  }

  /** An empty container of type `t`. */
  function Empty(t: IonType): Elem
  {
    if t == ListType then List([]) else Struct([])
  }

  /** The state after `step_in(t)`: a new innermost container that takes the
      pending field name. */
  function Open(s: State, t: IonType): State
    requires Ready(s)
  {
    State(s.top, Push(s.open, Frame(Slot(s), Empty(t))), None)
  }

  /** The state after `step_out`: the innermost container, finished, is
      written into its parent under the name it was opened with. */
  function Close(s: State): State
    requires s.open.Push?
  {
    var f := s.open.frame;
    var parent := State(s.top, s.open.below, None);
    Emit(if InStruct(parent) then parent.(fieldName := Some(f.name)) else parent, f.partial)
  }

  /** Writing a value keeps every open frame a container, and so do
      `step_in` and `step_out`. */
  lemma {:induction false} EmitWellFormed(s: State, v: Elem)
    requires WellFormed(s.open) && Ready(s)
    ensures WellFormed(Emit(s, v).open)
  {
    match s.open
    case Bottom =>
    case Push(below, f) =>
      assert IsContainer(Append(f, Slot(s), v).partial);
  }

  lemma OpenWellFormed(s: State, t: IonType)
    requires WellFormed(s.open) && Ready(s) && (t == ListType || t == StructType)
    ensures WellFormed(Open(s, t).open)
  {
  }

  lemma {:induction false} CloseWellFormed(s: State)
    requires WellFormed(s.open) && s.open.Push?
    ensures WellFormed(Close(s).open)
  {
    var f := s.open.frame;
    var parent := State(s.top, s.open.below, None);
    var p := if InStruct(parent) then parent.(fieldName := Some(f.name)) else parent;
    assert WellFormed(p.open);
    EmitWellFormed(p, f.partial);
  }

  /** Depth: `step_in` adds one open container, `step_out` removes one and
      a write leaves their number alone. */
  lemma Depths(s: State, v: Elem, t: IonType)
    requires Ready(s)
    ensures Height(Open(s, t).open) == Height(s.open) + 1
    ensures Height(Emit(s, v).open) == Height(s.open)
    ensures s.open.Push? ==> Height(Close(s).open) == Height(s.open) - 1
  {
  }

  /** Inside a struct the pending field name labels the next value written,
      and is used up by it. */
  lemma NameLabelsNextValue(s: State, n: string, v: Elem)
    requires InStruct(s)
    ensures var s' := Emit(s.(fieldName := Some(n)), v);
      s'.fieldName.None? && s'.open.below == s.open.below && s'.top == s.top &&
      s'.open.frame.partial.fields == s.open.frame.partial.fields + [Field(n, v)]
  {
  }

  /** Outside any container a value becomes the next top-level value, and
      any name set before it plays no part. */
  lemma TopLevelValue(s: State, v: Elem)
    requires s.open == Bottom
    ensures Emit(s, v) == State(s.top + [v], Bottom, None)
  {
  }

  /** `step_in` straight followed by `step_out` writes an empty container
      under the pending name, as a single write would. */
  lemma EmptyContainer(s: State, t: IonType)
    requires Ready(s)
    ensures Close(Open(s, t)) == Emit(s, Empty(t))
  {
    var o := Open(s, t);
    var parent := State(s.top, s.open, None);
    if InStruct(parent) {
      assert Slot(s) == s.fieldName.value;
    }
  }

  class Writer {
    var top: seq<Elem>
    var open: Stack
    var fieldName: Option<string>
    var output: seq<byte>

    function St(): State
      reads this
    {
      State(top, open, fieldName)
    }

    function Depth(): nat
      reads this
    {
      Height(open)
    }

    constructor ()
      ensures St() == State([], Bottom, None) && output == []
    {
      top, open, fieldName, output := [], Bottom, None, [];
    }

    /** `set_field_name`: the next value written is stored under `name`. */
    method SetFieldName(name: string)
      modifies this
      ensures St() == old(St()).(fieldName := Some(name))
      ensures output == old(output)
    {
      fieldName := Some(name);
    }

    /** `step_in`: opens a list or a struct. */
    method StepIn(t: IonType)
      requires Ready(St())
      requires t == ListType || t == StructType
      modifies this
      ensures St() == Open(old(St()), t)
      ensures output == old(output)
    {
      var s := Open(St(), t);
      top, open, fieldName := s.top, s.open, s.fieldName;
    }

    /** `step_out`: closes the innermost container. There must be one. */
    method StepOut()
      requires open.Push?
      modifies this
      ensures St() == Close(old(St()))
      ensures output == old(output)
    {
      var s := Close(St());
      top, open, fieldName := s.top, s.open, s.fieldName;
    }

    method Put(v: Elem)
      requires Ready(St()) && !IsContainer(v)
      modifies this
      ensures St() == Emit(old(St()), v)
      ensures output == old(output)
    {
      var s := Emit(St(), v);
      top, open, fieldName := s.top, s.open, s.fieldName;
    }

    /** `write_bool`. */
    method WriteBool(b: bool)
      requires Ready(St())
      modifies this
      ensures St() == Emit(old(St()), Bool(b))
      ensures output == old(output)
    {
      Put(Bool(b));
    }

    /** `write_i64`. */
    method WriteI64(i: i64)
      requires Ready(St())
      modifies this
      ensures St() == Emit(old(St()), Int(i))
      ensures output == old(output)
    {
      Put(Int(i));
    }

    /** `write_string`. */
    method WriteString(s: string)
      requires Ready(St())
      modifies this
      ensures St() == Emit(old(St()), String(s))
      ensures output == old(output)
    {
      Put(String(s));
    }

    /** `write_blob`. */
    method WriteBlob(d: seq<byte>)
      requires Ready(St())
      modifies this
      ensures St() == Emit(old(St()), Blob(d))
      ensures output == old(output)
    {
      Put(Blob(d));
    }

    /** `write_null`: a null of the given type. */
    method WriteNull(t: IonType)
      requires Ready(St())
      modifies this
      ensures St() == Emit(old(St()), Null(t))
      ensures output == old(output)
    {
      Put(Null(t));
    }

    /** `flush`: possible only with every container closed; afterwards
        `output` holds the bytes of all top-level values written. */
    method Flush()
      requires open == Bottom
      modifies this
      ensures St() == old(St())
      ensures output == IonBytes.Serialize(top)
    {
      output := IonBytes.Serialize(top);
    }
  }
}
