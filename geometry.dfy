/** Plain values shared by the engine's modules: points, transforms, fonts and
    the two result wrappers. Java `float` quantities are modelled as `real`. */
module Geometry {

  datatype Option<+T> = None | Some(value: T)

  /** A point or a size: the value carried by a `Vector2f` or `Coordinates2f`. */
  datatype Vec = Vec(x: real, y: real)

  /** Position plus dimensions (the engine's `Transform`). The engine expects
      non-negative width and height but does not enforce it. */
  datatype Transform = Transform(x: real, y: real, width: real, height: real)
  {
    function MaxX(): real { x + width }
    function MaxY(): real { y + height }
    function Centre(): Vec { Vec(x + width / 2.0, y + height / 2.0) }
    function Position(): Vec { Vec(x, y) }
    function WithPosition(p: Vec): (t: Transform)
      ensures t.Position() == p && t.width == width && t.height == height
    {
      Transform(p.x, p.y, width, height)
    }
  }

  /** A `java.awt.Font`, reduced to what the engine reads of it. */
  datatype Font = Font(name: string, size: int)

  function Min(a: real, b: real): (m: real)
    ensures m <= a && m <= b && (m == a || m == b)
  {
    if a <= b then a else b
  }

  function Max(a: real, b: real): (m: real)
    ensures m >= a && m >= b && (m == a || m == b)
  {
    if a >= b then a else b
  }
}
