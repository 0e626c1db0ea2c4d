/** Shared vocabulary: optional values, UUIDs, and Go's 64-bit signed integers. */
module Basics {

  datatype Option<+T> = None | Some(value: T)

  datatype Result<+T, +E> = Ok(value: T) | Err(error: E)

  const TWO_128: int := 0x1_0000_0000_0000_0000_0000_0000_0000_0000

  /** A UUID is a 128-bit number (RFC 9562, section 4). */
  type Uuid = u: int | 0 <= u < TWO_128

  const NIL_UUID: Uuid := 0

  const TWO_63: int := 0x8000_0000_0000_0000
  const TWO_64: int := 0x1_0000_0000_0000_0000

  /** Go's int64, and its int on a 64-bit platform. */
  type Int64 = x: int | -TWO_63 <= x < TWO_63

  predicate FitsInt64(x: int) {
    -TWO_63 <= x < TWO_63
  }

  /** The value that an int64 operation leaves for the exact result x: 2^64 added or taken away until it fits. */
  function Wrap(x: int): (r: Int64)
    ensures FitsInt64(x) <==> r == x
    decreases if x < 0 then -x else x + 1
  {
    if x < -TWO_63 then Wrap(x + TWO_64)
    else if x >= TWO_63 then Wrap(x - TWO_64)
    else x
  }

  /** Two values that differ by a multiple of 2^64 wrap alike. */
  lemma {:induction false} WrapCongruent(x: int, y: int, k: int)
    requires x == y + k * TWO_64
    ensures Wrap(x) == Wrap(y)
    decreases if k < 0 then -k else k
  {
    if k > 0 {
      WrapCongruent(x - TWO_64, y, k - 1);
      WrapShift(x - TWO_64);
    } else if k < 0 {
      WrapCongruent(x + TWO_64, y, k + 1);
      WrapShift(x);
    }
  }

  lemma WrapShift(x: int)
    ensures Wrap(x) == Wrap(x + TWO_64)
  {
  }

  /** Wrapping takes away a multiple of 2^64. */
  lemma {:induction false} WrapQuotient(x: int) returns (k: int)
    ensures Wrap(x) == x + k * TWO_64
    decreases if x < 0 then -x else x + 1
  {
    if x < -TWO_63 {
      k := WrapQuotient(x + TWO_64);
      k := k + 1;
    } else if x >= TWO_63 {
      k := WrapQuotient(x - TWO_64);
      k := k - 1;
    } else {
      k := 0;
    }
  }

  lemma WrapLeft(x: int, y: int)
    ensures Wrap(Wrap(x) + y) == Wrap(x + y)
  {
    var k := WrapQuotient(x);
    WrapCongruent(Wrap(x) + y, x + y, k);
  }

  /** A wrapped operand changes no wrapped sum. */
  lemma WrapAdd(x: int, y: int)
    ensures Wrap(Wrap(x) + y) == Wrap(x + y)
    ensures Wrap(x + Wrap(y)) == Wrap(x + y)
    ensures Wrap(Wrap(x) + Wrap(y)) == Wrap(x + y)
  {
    WrapLeft(x, y);
    WrapLeft(y, x);
    WrapLeft(x, Wrap(y));
  }

  lemma WrapBoth(x: int, y: int)
    ensures Wrap(Wrap(x) + Wrap(y)) == Wrap(x + y)
  {
    WrapAdd(x, y);
  }
}
