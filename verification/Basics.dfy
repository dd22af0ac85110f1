/** Types shared by the models of the package's components. */
module Basics {

  /** An octet, with ordinary integer arithmetic. */
  type byte = n: int | 0 <= n < 0x100

  type uint16 = n: int | 0 <= n < 0x1_0000

  type uint32 = n: int | 0 <= n < 0x1_0000_0000

  datatype Option<+T> = None | Some(value: T)

  /** A value, or the reason for which the operation returned an error. */
  datatype Result<+T> = Ok(value: T) | Err(reason: string)

  /** What Go's int64 keeps of an integer; a Duration is an int64 count of nanoseconds. */
  function Wrap64(n: int): int {
    (n + 0x8000_0000_0000_0000) % 0x1_0000_0000_0000_0000 - 0x8000_0000_0000_0000
  }

  // Arithmetic that the solver needs help with.

  lemma Distribute(a: int, b: int, m: int)
    ensures (a + b) * m == a * m + b * m
  {
  }

  lemma DivisionUnique(a: int, b: int, c: int, d: int, m: nat)
    requires 0 <= b < m && 0 <= d < m && a * m + b == c * m + d
    ensures a == c && b == d
  {
    Distribute(a, -c, m);
    assert (-c) * m == -(c * m);
    assert (a - c) * m == d - b;
    AtLeast(a - c, m);
  }

  lemma AtLeast(n: int, m: nat)
    ensures n >= 1 ==> n * m >= m
    ensures n <= -1 ==> n * m + m <= 0
  {
  }

  /** A multiple leaves no remainder. */
  lemma MultipleDivides(a: nat, m: nat)
    requires m > 0
    ensures (a * m) % m == 0
  {
    DivisionUnique((a * m) / m, (a * m) % m, a, 0, m);
  }

  lemma MoreIsMore(a: nat, b: nat, c: nat)
    requires a <= b
    ensures a * c <= b * c
  {
  }
}
