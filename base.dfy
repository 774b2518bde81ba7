/**
 * Small shared vocabulary: optional values, results, bytes, and the
 * concatenation of byte strings that the transfer protocol relies on.
 */
module Base {

  datatype Option<+T> = None | Some(value: T)

  datatype Result<+T, +E> = Success(value: T) | Failure(error: E)

  /** One octet, as stored in a Uint8Array. */
  newtype Byte = b: int | 0 <= b < 256

  type Bytes = seq<Byte>

  function Min(a: int, b: int): (m: int)
    ensures m <= a && m <= b && (m == a || m == b)
  {
    if a <= b then a else b
  }

  /**
   * JavaScript's `x || d` on an optional number: a missing number, 0 or NaN
   * (an unparsable setting, stood for by `None`) gives the default.
   */
  function OrDefault(x: Option<int>, d: int): (r: int)
    ensures x.Some? && x.value != 0 ==> r == x.value
    ensures x.None? || x.value == 0 ==> r == d
  {
    if x.Some? && x.value != 0 then x.value else d
  }

  /** The byte strings of `parts`, concatenated in order (a Blob built from parts). */
  function Flatten(parts: seq<Bytes>): Bytes
  {
    if parts == [] then [] else parts[0] + Flatten(parts[1..])
  }

  /** Sum of the lengths of `parts` (byteLength summed over chunks). */
  function TotalLength(parts: seq<Bytes>): nat
  {
    if parts == [] then 0 else |parts[0]| + TotalLength(parts[1..])
  }

  lemma {:induction false} FlattenAppend(a: seq<Bytes>, b: seq<Bytes>)
    ensures Flatten(a + b) == Flatten(a) + Flatten(b)
  {
    if a == [] {
      assert a + b == b;
    } else {
      assert (a + b)[1..] == a[1..] + b;
      FlattenAppend(a[1..], b);
    }
  }

  lemma {:induction false} TotalLengthAppend(a: seq<Bytes>, b: seq<Bytes>)
    ensures TotalLength(a + b) == TotalLength(a) + TotalLength(b)
  {
    if a == [] {
      assert a + b == b;
    } else {
      assert (a + b)[1..] == a[1..] + b;
      TotalLengthAppend(a[1..], b);
    }
  }

  /** The total length of the parts is the length of their concatenation. */
  lemma {:induction false} TotalLengthIsFlattenLength(parts: seq<Bytes>)
    ensures TotalLength(parts) == |Flatten(parts)|
  {
    if parts != [] {
      TotalLengthIsFlattenLength(parts[1..]);
    }
  }
}
