/** Bytes, machine integers and little-endian fields, shared by every codec of the model. */
module Bytes {
  const TWO_TO_16 := 0x1_0000
  const TWO_TO_31 := 0x8000_0000
  const TWO_TO_32 := 0x1_0000_0000
  const TWO_TO_64 := 0x1_0000_0000_0000_0000

  type byte = b: int | 0 <= b < 256
  type u16 = x: int | 0 <= x < TWO_TO_16
  type u32 = x: int | 0 <= x < TWO_TO_32
  type i32 = x: int | -TWO_TO_31 <= x < TWO_TO_31
  type u64 = x: int | 0 <= x < TWO_TO_64

  datatype Option<+T> = None | Some(value: T)

  /** Two's complement view of a signed 32-bit field, and back. */
  function ToU32(x: i32): (r: u32)
    ensures ToI32(r) == x
  {
    if x < 0 then x + TWO_TO_32 else x
  }

  function ToI32(x: u32): (r: i32)
  {
    if x >= TWO_TO_31 then x - TWO_TO_32 else x
  }

  lemma I32Bits(x: u32)
    ensures ToU32(ToI32(x)) == x
  {}

  function LE16(v: u16): (r: seq<byte>)
    ensures |r| == 2 && FromLE16(r) == v
  {
    [v % 256, v / 256]
  }

  function FromLE16(b: seq<byte>): (r: u16)
    requires |b| == 2
  {
    b[0] as int + 256 * b[1] as int
  }

  function LE32(v: u32): (r: seq<byte>)
    ensures |r| == 4 && FromLE32(r) == v
  {
    LE16(v % TWO_TO_16) + LE16(v / TWO_TO_16)
  }

  function FromLE32(b: seq<byte>): (r: u32)
    requires |b| == 4
  {
    FromLE16(b[..2]) as int + TWO_TO_16 * FromLE16(b[2..]) as int
  }

  /** Bytes laid end to end. */
  function Flatten<T>(xs: seq<seq<T>>): seq<T>
  {
    if xs == [] then [] else xs[0] + Flatten(xs[1..])
  }

  lemma {:induction false} FlattenAppend<T>(xs: seq<seq<T>>, ys: seq<seq<T>>)
    ensures Flatten(xs + ys) == Flatten(xs) + Flatten(ys)
  {
    if xs == [] {
      assert xs + ys == ys;
    } else {
      assert (xs + ys)[1..] == xs[1..] + ys;
      FlattenAppend(xs[1..], ys);
    }
  }

  lemma FlattenOne<T>(x: seq<T>)
    ensures Flatten([x]) == x
  {
    assert [x][1..] == [];
  }

  lemma FlattenSnoc<T>(xs: seq<seq<T>>, x: seq<T>)
    ensures Flatten(xs + [x]) == Flatten(xs) + x
  {
    FlattenAppend(xs, [x]);
    FlattenOne(x);
  }

  function TotalLength<T>(xs: seq<seq<T>>): nat
  {
    |Flatten(xs)|
  }
}
