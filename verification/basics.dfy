/** Shared vocabulary: optional values, results, and the integer semantics of
    the JVM (truncating division, truncating casts, 32-bit wrap-around). */
module Basics {

  /** An optional value, standing in for a nullable reference. */
  datatype Option<+T> = None | Some(value: T)

  /** A value or a failure, standing in for a call that may throw. */
  datatype Result<+T, +E> = Ok(value: T) | Err(error: E)

  const IntMin: int := -0x8000_0000
  const IntMax: int := 0x7FFF_FFFF

  /** Values of Java's 32-bit `int`. */
  type Int32 = x: int | IntMin <= x <= IntMax

  function Min(a: int, b: int): int { if a <= b then a else b }

  function Max(a: int, b: int): int { if a >= b then a else b }

  function MinR(a: real, b: real): real { if a <= b then a else b }

  function MaxR(a: real, b: real): real { if a >= b then a else b }

  function Abs(x: int): nat { if x < 0 then -x else x }

  function DivNat(a: nat, b: nat): (q: nat)
    requires b > 0
  {
    a / b
  }

  /** Java's `/` on integers, which truncates toward zero (Dafny's is Euclidean). */
  function JavaDiv(a: int, b: int): (q: int)
    requires b != 0
    ensures Abs(q) == Abs(a) / Abs(b)
    ensures a >= 0 && b > 0 ==> q == a / b
    ensures q < 0 ==> (a < 0) != (b < 0)
  {
    var m: int := DivNat(Abs(a), Abs(b));
    if (a < 0) == (b < 0) then m else -m
  }

  /** Java's `(int)` / `(long)` cast of a finite double: truncation toward zero. */
  function Trunc(x: real): (n: int)
    ensures x >= 0.0 ==> n == x.Floor
    ensures x >= 0.0 ==> 0 <= n && n as real <= x < n as real + 1.0
    ensures x < 0.0 ==> n <= 0 && x <= n as real
  {
    if x >= 0.0 then x.Floor else -((-x).Floor)
  }

  /** Two's-complement wrap-around of a mathematical integer into a Java `int`. */
  function Wrap32(x: int): (w: Int32)
    ensures (w - x) % 0x1_0000_0000 == 0
    ensures IntMin <= x <= IntMax ==> w == x
  {
    var m := x % 0x1_0000_0000;
    if m > IntMax then m - 0x1_0000_0000 else m
  }
}
