/** Values shared by every part of the broker model: machine integers, byte strings,
    and the types that stand for the broker's exceptions. */
module Prelude {

  newtype byte = x: int | 0 <= x < 0x100

  newtype uint64 = x: int | 0 <= x < 0x1_0000_0000_0000_0000

  type Bytes = seq<byte>

  datatype Option<+T> = None | Some(value: T)

  /** The result of an operation that may throw `E` instead of returning a `T`. */
  datatype Result<+T, +E> = Ok(value: T) | Err(error: E)

  /** The result of an operation that returns nothing and may throw. */
  datatype Outcome = Done | Thrown

  function Reversed<T>(s: seq<T>): (r: seq<T>)
    ensures |r| == |s|
    ensures forall i :: 0 <= i < |s| ==> r[i] == s[|s| - 1 - i]
  {
    if s == [] then [] else Reversed(s[1..]) + [s[0]]
  }
}
