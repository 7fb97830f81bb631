/** Types shared by every module: an optional value and the machine integers of the source. */
module Basics {
  datatype Option<+T> = None | Some(value: T)

  type u8 = x: int | 0 <= x < 0x100
  type u16 = x: int | 0 <= x < 0x1_0000
  type u32 = x: int | 0 <= x < 0x1_0000_0000
  type u64 = x: int | 0 <= x < 0x1_0000_0000_0000_0000

  const U64_LIMIT: int := 0x1_0000_0000_0000_0000

  /** Position of the first element at or after `from` with the property, or the length. */
  function FirstIndex<T>(q: seq<T>, p: T -> bool, from: nat): (k: nat)
    requires from <= |q|
    ensures from <= k <= |q| && (k < |q| ==> p(q[k]))
    ensures forall j :: from <= j < k ==> !p(q[j])
    decreases |q| - from
  {
    if from == |q| || p(q[from]) then from else FirstIndex(q, p, from + 1)
  }

  /** The sequence without its element at `i`; the others keep their order. */
  function RemoveAt<T>(q: seq<T>, i: nat): (r: seq<T>)
    requires i < |q|
    ensures |r| == |q| - 1
    ensures forall j :: 0 <= j < |r| ==> r[j] == q[if j < i then j else j + 1]
  {
    q[..i] + q[i + 1..]
  }

  /** A buffer or vector whose length fits the `uint64_t` it is written with. */
  type Sized<T> = s: seq<T> | |s| < U64_LIMIT witness []
}
