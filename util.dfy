/** Small helpers shared by every module: an optional value and the
    JavaScript fallback idioms the game's code relies on. */
module Util {

  /** A value that may be absent (`undefined` or `null` in the game's code). */
  datatype Option<T> = None | Some(value: T)

  /** JavaScript's `a || d` on an optional number: both an absent value and 0
      are falsy, so either falls back to `d`. */
  function OrDefault(a: Option<real>, d: real): (r: real)
    ensures a.Some? && a.value != 0.0 ==> r == a.value
    ensures a.None? || a.value == 0.0 ==> r == d
  {
    if a.Some? && a.value != 0.0 then a.value else d
  }

  /** JavaScript's `a ?? d`: only an absent value falls back, 0 is kept. */
  function Coalesce<T>(a: Option<T>, d: T): (r: T)
    ensures a.Some? ==> r == a.value
    ensures a.None? ==> r == d
  {
    if a.Some? then a.value else d
  }

  function Min(a: real, b: real): (r: real)
    ensures r <= a && r <= b && (r == a || r == b)
  {
    if a <= b then a else b
  }

  function Max(a: real, b: real): (r: real)
    ensures r >= a && r >= b && (r == a || r == b)
  {
    if a >= b then a else b
  }

  /** `Math.round` on a real: the nearest integer, halves rounded up. */
  function Round(v: real): (r: int)
    ensures v - 0.5 < r as real <= v + 0.5
  {
    (v + 0.5).Floor
  }
}
