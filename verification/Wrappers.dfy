module Wrappers {
  datatype Option<+T> = None | Some(value: T)

  /** Some element, always the same one for the same set. */
  ghost function Pick<T>(s: set<T>): (x: T)
    requires s != {}
    ensures x in s
  {
    var x :| x in s;
    x
  }
}

/** The wrap-around of Go's fixed-width integers. */
module Machine {
  const MAX_INT32: int := 0x7FFF_FFFF
  const MAX_INT64: int := 0x7FFF_FFFF_FFFF_FFFF

  type Int32 = x: int | -0x8000_0000 <= x <= 0x7FFF_FFFF
  type Int64 = x: int | -0x8000_0000_0000_0000 <= x <= 0x7FFF_FFFF_FFFF_FFFF

  /** The value a Go int32 holds after a conversion or an operation whose exact result is x: the
      one in range that differs from x by a multiple of 2^32. */
  function Wrap32(x: int): Int32
    decreases if x > 0x7FFF_FFFF then x else 0, if x < 0 then -x else 0
  {
    if x > 0x7FFF_FFFF then Wrap32(x - 0x1_0000_0000)
    else if x < -0x8000_0000 then Wrap32(x + 0x1_0000_0000)
    else x
  }

  /** The value a Go int64 holds after an operation whose exact result is x. */
  function Wrap64(x: int): Int64
    decreases if x > 0x7FFF_FFFF_FFFF_FFFF then x else 0, if x < 0 then -x else 0
  {
    if x > 0x7FFF_FFFF_FFFF_FFFF then Wrap64(x - 0x1_0000_0000_0000_0000)
    else if x < -0x8000_0000_0000_0000 then Wrap64(x + 0x1_0000_0000_0000_0000)
    else x
  }

  function Add64(x: int, y: int): Int64 {
    Wrap64(x + y)
  }

  function Sub64(x: int, y: int): Int64 {
    Wrap64(x - y)
  }

  lemma WrapShift64(x: int)
    ensures Wrap64(x - 0x1_0000_0000_0000_0000) == Wrap64(x)
  {
  }

  /** Wrapping after every addition is the same as wrapping once at the end. */
  lemma {:induction false} WrapSum64(x: int, y: int)
    ensures Wrap64(Wrap64(x) + y) == Wrap64(x + y)
    decreases if x > MAX_INT64 then x else 0, if x < 0 then -x else 0
  {
    if x > MAX_INT64 {
      WrapSum64(x - 0x1_0000_0000_0000_0000, y);
      WrapShift64(x + y);
    } else if x < -MAX_INT64 - 1 {
      WrapSum64(x + 0x1_0000_0000_0000_0000, y);
      WrapShift64(x + y + 0x1_0000_0000_0000_0000);
    }
  }
}
