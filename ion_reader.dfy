/** The `ion_rs` reader as the decoders drive it: a cursor that moves with
    `next`, enters and leaves containers with `step_in` and `step_out`, and
    reads the value it is on with the `read_*` calls. */
module IonReader {
  import opened Wrappers
  import opened Ion

  /** `ion_rs::StreamItem`: what the cursor is on. */
  datatype StreamItem = Value(ty: IonType) | Null(ty: IonType) | Nothing

  function ItemOf(e: Elem): StreamItem
  {
    if e.Null? then StreamItem.Null(e.ty) else Value(TypeOf(e))
  }

  /** One level of the cursor: the value it is on (None before the first
      value and after the last) and the values still ahead of it. */
  datatype Level = Level(current: Option<Elem>, rest: seq<Elem>)

  /** The level after `next`: the first value ahead, or nothing at the end. */
  function Advance(l: Level): Level
  {
    if l.rest == [] then Level(None, []) else Level(Some(l.rest[0]), l.rest[1..])
  }

  /** A cursor standing before the values `s`. */
  function Before(s: seq<Elem>): Level
  {
    Level(None, s)
  }

  /** The value under the cursor, read with an element accessor. */
  function ReadWith<T>(l: Level, f: Elem -> Option<T>): Option<T>
  {
    if l.current.Some? then f(l.current.value) else None
  }

  /** A level whose current value is a list or a struct. */
  predicate OnContainer(l: Level)
  {
    l.current.Some? && IsContainer(l.current.value)
  }

  class Reader {
    /** The levels the cursor is in; the first is the top-level stream. */
    var levels: seq<Level>

    ghost predicate Valid()
      reads this
    {
      |levels| > 0
    }

    function Depth(): nat
      reads this
      requires Valid()
    {
      |levels| - 1
    }

    function Here(): Level
      reads this
      requires Valid()
    {
      levels[|levels| - 1]
    }

    /** `current`. */
    function Current(): (r: StreamItem)
      reads this
      requires Valid()
      ensures r.Nothing? <==> Here().current.None?
      ensures r.Null? <==> Here().current.Some? && Here().current.value.Null?
      ensures r.Null? ==> r.ty == Here().current.value.ty
      ensures r.Value? ==> r.ty == TypeOf(Here().current.value)
    {
      if Here().current.Some? then ItemOf(Here().current.value) else Nothing
    }

    /** A reader over the top-level values `stream`, before the first. */
    constructor (stream: seq<Elem>)
      ensures Valid() && levels == [Before(stream)]
    {
      levels := [Before(stream)];
    }

    /** `next`: moves to the next value of the current container, or to
        nothing past its end. */
    method Next() returns (item: StreamItem)
      requires Valid()
      modifies this
      ensures Valid()
      ensures levels == old(levels[..|levels| - 1]) + [Advance(old(Here()))]
      ensures item == Current()
    {
      levels := levels[..|levels| - 1] + [Advance(Here())];
      item := Current();
    }

    /** `step_in`: enters the list or struct under the cursor, before its
        first child; fails on anything else, a typed null included. */
    method StepIn() returns (ok: bool)
      requires Valid()
      modifies this
      ensures Valid()
      ensures ok == OnContainer(old(Here()))
      ensures ok ==> levels == old(levels) + [Before(Children(old(Here()).current.value))]
      ensures !ok ==> levels == old(levels)
    {
      ok := OnContainer(Here());
      if ok {
        levels := levels + [Before(Children(Here().current.value))];
      }
    }

    /** `step_out`: leaves the current container, skipping what is left of
        it; the cursor stays on the container in its parent. Fails at the top
        level, where there is nothing to leave. */
    method StepOut() returns (ok: bool)
      requires Valid()
      modifies this
      ensures Valid()
      ensures ok == (old(Depth()) > 0)
      ensures ok ==> levels == old(levels[..|levels| - 1])
      ensures !ok ==> levels == old(levels)
    {
      ok := |levels| > 1;
      if ok {
        levels := levels[..|levels| - 1];
      }
    }

    /** `read_bool`: the boolean under the cursor; fails on anything else. */
    method ReadBool() returns (r: Option<bool>)
      requires Valid()
      ensures r == ReadWith(Here(), AsBool)
    {
      r := ReadWith(Here(), AsBool);
    }

    /** `read_i64`. */
    method ReadI64() returns (r: Option<i64>)
      requires Valid()
      ensures r == ReadWith(Here(), AsI64)
    {
      r := ReadWith(Here(), AsI64);
    }

    /** `read_string` and `read_str`. */
    method ReadString() returns (r: Option<string>)
      requires Valid()
      ensures r == ReadWith(Here(), AsString)
    {
      r := ReadWith(Here(), AsString);
    }

    /** `read_blob`. */
    method ReadBlob() returns (r: Option<seq<byte>>)
      requires Valid()
      ensures r == ReadWith(Here(), AsBlob)
    {
      r := ReadWith(Here(), AsBlob);
    }

    /** `read_all_elements`: every value after the cursor in the current
        container, in order; the cursor ends past the last. */
    method ReadAllElements() returns (es: seq<Elem>)
      requires Valid()
      modifies this
      ensures Valid()
      ensures es == old(Here().rest)
      ensures levels == old(levels[..|levels| - 1]) + [Level(None, [])]
    {
      es := Here().rest;
      levels := levels[..|levels| - 1] + [Level(None, [])];
    }
  }
}
