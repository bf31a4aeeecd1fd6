/** Small value types shared by the three components. */
module Common {

  /** A value that may be absent: JavaScript's `null`/`undefined` beside a real value. */
  datatype Option<T> = None | Some(value: T)

  /** A position in scene coordinates, in metres (the `{x, y, z}` objects of the scene). */
  datatype Vec3 = Vec3(x: real, y: real, z: real)

  /** `Math.abs` on reals. */
  function Abs(r: real): (a: real)
    ensures a >= 0.0
    ensures a == r || a == -r
  {
    if r < 0.0 then -r else r
  }

  /** `Math.min` of two reals. */
  function Min(a: real, b: real): (m: real)
    ensures m <= a && m <= b
    ensures m == a || m == b
  {
    if a <= b then a else b
  }

  /** `Math.max` of two reals. */
  function Max(a: real, b: real): (m: real)
    ensures m >= a && m >= b
    ensures m == a || m == b
  {
    if a >= b then a else b
  }
}
