/** Small building blocks shared by the other modules: an optional value and
    the fixed-width integers of the C++ program. */
module Basics {

  datatype Option<+T> = None | Some(value: T)

  const TwoTo31: int := 0x8000_0000
  const TwoTo32: int := 0x1_0000_0000

  /** A C++ `int`. */
  newtype Int32 = x: int | -0x8000_0000 <= x < 0x8000_0000

  /** A C++ `uint32_t`. */
  newtype UInt32 = x: int | 0 <= x < 0x1_0000_0000

  /** The conversion of an integer to a 32-bit `int` (what a `size_t` or a
      `uint32_t` becomes when it is returned or stored as an `int`): the value
      modulo 2^32, read in the signed range. */
  function ToInt32(x: int): (r: Int32)
    ensures -TwoTo31 <= x < TwoTo31 ==> r as int == x
    ensures (r as int - x) % TwoTo32 == 0
    ensures 0 <= x < TwoTo32 ==> (r < 0 <==> x >= TwoTo31)
  {
    var m := x % TwoTo32;
    if m < TwoTo31 then m as Int32 else (m - TwoTo32) as Int32
  }

  /** Applies `f` to every element, keeping the order. */
  function MapSeq<A, B>(xs: seq<A>, f: A -> B): (r: seq<B>)
    ensures |r| == |xs|
    ensures forall i :: 0 <= i < |xs| ==> r[i] == f(xs[i])
  {
    if xs == [] then [] else [f(xs[0])] + MapSeq(xs[1..], f)
  }
}
