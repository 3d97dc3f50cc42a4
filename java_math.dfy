/** java.lang.Math and integer division as the game uses them. */
module JavaMath {
  function Max(a: int, b: int): (r: int)
    ensures r >= a && r >= b && (r == a || r == b)
  {
    if a >= b then a else b
  }

  function Min(a: int, b: int): (r: int)
    ensures r <= a && r <= b && (r == a || r == b)
  {
    if a <= b then a else b
  }

  /** Java's `/` on int: the quotient truncated toward zero. */
  function Div(a: int, b: int): (q: int)
    requires b != 0
    ensures a >= 0 && b > 0 ==> q == a / b
  {
    if (a >= 0) == (b > 0) then
      (if a >= 0 then a / b else (-a) / (-b))
    else
      -(if a >= 0 then a / (-b) else (-a) / b)
  }

  /** Java's `%` on int: the remainder of the truncated quotient, with the dividend's sign. */
  function Rem(a: int, b: int): (r: int)
    requires b != 0
    ensures a >= 0 && b > 0 ==> r == a % b
    ensures a >= 0 ==> r >= 0
  {
    a - b * Div(a, b)
  }

  /** The value a loop `for (i = start; i <= end; i++)` leaves in `i`. */
  function Stop(start: int, end: int): int {
    if start <= end then end + 1 else start
  }
}
