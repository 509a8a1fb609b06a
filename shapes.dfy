/** Drawable shapes: the `createShape` factory, the position-restoring
    `drawAtZero`, and the triangle whose bounding transform is derived from
    its three points. */
module Shapes {
  import opened Geometry

  /** The shape kinds; `Unlisted` stands for any kind `createShape` has no
      case for. */
  datatype EnumShape = Rectangle | Oval | RoundRectangle | Line | Triangle | Unlisted(name: string)

  class SaltyShape {
    const shapeType: EnumShape
    var transform: Transform
    var filled: bool
    /** The arc of a round rectangle; `None` is the round rectangle's own
        default. Unused by the other kinds. */
    const arc: Option<real>

    constructor (transform: Transform, shapeType: EnumShape, arc: Option<real>)
      ensures this.transform == transform && this.shapeType == shapeType && this.arc == arc
      ensures filled
    {
      this.shapeType := shapeType;
      this.transform := transform;
      this.arc := arc;
      filled := true;
    }

    method SetTransform(transform: Transform)
      modifies this`transform
      ensures this.transform == transform
    {
      this.transform := transform;
    }

    method SetPosition(position: Vec)
      modifies this`transform
      ensures transform == old(transform).WithPosition(position)
    {
      transform := transform.WithPosition(position);
    }

    method SetFilled(filled: bool)
      modifies this`filled
      ensures this.filled == filled
    {
      this.filled := filled;
    }

    /** Draws as if placed at (0, 0): `drawnAt` is the transform the shape's
        own `draw` sees; afterwards the position is what it was. */
    method DrawAtZero() returns (drawnAt: Transform)
      modifies this`transform
      ensures drawnAt == old(transform).WithPosition(Vec(0.0, 0.0))
      ensures transform == old(transform)
    {
      var pos := transform.Position();
      SetPosition(Vec(0.0, 0.0));
      drawnAt := transform;
      SetPosition(pos);
    }
  }

  /** The bounding transform of three points as the triangle derives it:
      the left and top edges are the least coordinates, but the right (and
      bottom) edge is `min(p3, max(p1, p2))`, not the greatest coordinate. */
  function TriangleTransform(p1: Vec, p2: Vec, p3: Vec): (t: Transform)
    ensures t.x <= p1.x && t.x <= p2.x && t.x <= p3.x && (t.x == p1.x || t.x == p2.x || t.x == p3.x)
    ensures t.y <= p1.y && t.y <= p2.y && t.y <= p3.y && (t.y == p1.y || t.y == p2.y || t.y == p3.y)
    ensures t.width >= 0.0 && t.height >= 0.0
    ensures t.MaxX() == Min(p3.x, Max(p1.x, p2.x)) && t.MaxY() == Min(p3.y, Max(p1.y, p2.y))
  {
    var x0 := p1.x;
    var x1 := Min(p2.x, x0);
    var x := Min(p3.x, x1);
    var y0 := p1.y;
    var y1 := Min(p2.y, y0);
    var y := Min(p3.y, y1);
    var maxX0 := p1.x;
    var maxX1 := Max(p2.x, maxX0);
    var maxX := Min(p3.x, maxX1);
    var maxY0 := p1.y;
    var maxY1 := Max(p2.y, maxY0);
    var maxY := Min(p3.y, maxY1);
    Transform(x, y, maxX - x, maxY - y)
  }

  /** The least transform enclosing the three points: what the triangle's
      transform is evidently meant to be. */
  function BoundingTransform(p1: Vec, p2: Vec, p3: Vec): (t: Transform)
    ensures t.width >= 0.0 && t.height >= 0.0
  {
    var x := Min(p1.x, Min(p2.x, p3.x));
    var y := Min(p1.y, Min(p2.y, p3.y));
    Transform(x, y, Max(p1.x, Max(p2.x, p3.x)) - x, Max(p1.y, Max(p2.y, p3.y)) - y)
  }

  ghost predicate Encloses(t: Transform, p: Vec)
  {
    t.x <= p.x <= t.MaxX() && t.y <= p.y <= t.MaxY()
  }

  /** The corrected transform encloses all three points, and each of its
      four edges passes through one of them. */
  lemma BoundingTransformIsTight(p1: Vec, p2: Vec, p3: Vec)
    ensures var t := BoundingTransform(p1, p2, p3);
            Encloses(t, p1) && Encloses(t, p2) && Encloses(t, p3)
            && (t.x == p1.x || t.x == p2.x || t.x == p3.x)
            && (t.y == p1.y || t.y == p2.y || t.y == p3.y)
            && (t.MaxX() == p1.x || t.MaxX() == p2.x || t.MaxX() == p3.x)
            && (t.MaxY() == p1.y || t.MaxY() == p2.y || t.MaxY() == p3.y)
  {
  }

  /** The derivation as written agrees with the corrected one exactly when
      the third point ties, on each axis, with the greater of the other two. */
  lemma TransformsAgreeIffPoint3TiesMax(p1: Vec, p2: Vec, p3: Vec)
    ensures TriangleTransform(p1, p2, p3) == BoundingTransform(p1, p2, p3)
            <==> p3.x == Max(p1.x, p2.x) && p3.y == Max(p1.y, p2.y)
  {
    var a, b := TriangleTransform(p1, p2, p3), BoundingTransform(p1, p2, p3);
    var m12x, m12y := Max(p1.x, p2.x), Max(p1.y, p2.y);
    assert b.MaxX() == Max(p1.x, Max(p2.x, p3.x)) >= m12x;
    assert b.MaxY() == Max(p1.y, Max(p2.y, p3.y)) >= m12y;
    if p3.x == m12x && p3.y == m12y {
      assert Max(p1.x, Max(p2.x, p3.x)) == p3.x;
      assert Max(p1.y, Max(p2.y, p3.y)) == p3.y;
      assert a.x == b.x && a.y == b.y;
      assert a.MaxX() == b.MaxX() && a.MaxY() == b.MaxY();
      assert a.width == b.width && a.height == b.height;
    } else if p3.x != m12x {
      assert a.MaxX() < b.MaxX();
    } else {
      assert a.MaxY() < b.MaxY();
    }
  }

  /** Whatever the points, the transform as written reaches no further
      right or down than the corrected one. */
  lemma TriangleTransformWithinBounds(p1: Vec, p2: Vec, p3: Vec)
    ensures var a, b := TriangleTransform(p1, p2, p3), BoundingTransform(p1, p2, p3);
            a.Position() == b.Position() && a.width <= b.width && a.height <= b.height
  {
    var a, b := TriangleTransform(p1, p2, p3), BoundingTransform(p1, p2, p3);
    assert a.x == b.x && a.y == b.y;
    assert a.MaxX() <= Max(p1.x, p2.x) <= b.MaxX();
    assert a.MaxY() <= Max(p1.y, p2.y) <= b.MaxY();
  }

  /** The transform as written encloses the triangle exactly when the
      derivation happens to be right. */
  lemma TriangleTransformEnclosesIff(p1: Vec, p2: Vec, p3: Vec)
    ensures var t := TriangleTransform(p1, p2, p3);
            Encloses(t, p1) && Encloses(t, p2) && Encloses(t, p3)
            <==> p3.x == Max(p1.x, p2.x) && p3.y == Max(p1.y, p2.y)
  {
    var t := TriangleTransform(p1, p2, p3);
    var m12x, m12y := Max(p1.x, p2.x), Max(p1.y, p2.y);
    if p3.x == m12x && p3.y == m12y {
      TransformsAgreeIffPoint3TiesMax(p1, p2, p3);
      BoundingTransformIsTight(p1, p2, p3);
    } else if p3.x < m12x {
      assert t.MaxX() == p3.x;
      assert !Encloses(t, p1) || !Encloses(t, p2);
    } else if p3.x > m12x {
      assert t.MaxX() == m12x;
      assert !Encloses(t, p3);
    } else if p3.y < m12y {
      assert t.MaxY() == p3.y;
      assert !Encloses(t, p1) || !Encloses(t, p2);
    } else {
      assert t.MaxY() == m12y;
      assert !Encloses(t, p3);
    }
  }

  /** The points `createShape` gives a triangle on a transform: bottom
      left, top middle and bottom right. */
  function TrianglePoints(t: Transform): (ps: seq<Vec>)
    ensures |ps| == 3
  {
    [Vec(t.x, t.MaxY()), Vec(t.Centre().x, t.y), Vec(t.MaxX(), t.MaxY())]
  }

  /** A triangle created on a transform of non-negative size gets, as
      written, a transform of only half that width. */
  lemma CreatedTriangleHalfWidth(t: Transform)
    requires t.width >= 0.0 && t.height >= 0.0
    ensures var ps := TrianglePoints(t);
            TriangleTransform(ps[0], ps[1], ps[2]) == Transform(t.x, t.y, t.width / 2.0, t.height)
  {
  }

  /** Hence a triangle created on a transform of positive width leaves its
      own bottom-right point outside its transform. */
  lemma CreatedTriangleMissesCorner(t: Transform)
    requires t.width > 0.0 && t.height >= 0.0
    ensures var ps := TrianglePoints(t);
            !Encloses(TriangleTransform(ps[0], ps[1], ps[2]), ps[2])
            && Encloses(BoundingTransform(ps[0], ps[1], ps[2]), ps[2])
  {
    var ps := TrianglePoints(t);
    CreatedTriangleHalfWidth(t);
    BoundingTransformIsTight(ps[0], ps[1], ps[2]);
  }

  class TriangleShape {
    /** What `TriangleShape` inherits from `SaltyShape`. */
    const base: SaltyShape
    var point1: Vec
    var point2: Vec
    var point3: Vec

    constructor (point1: Vec, point2: Vec, point3: Vec)
      ensures this.point1 == point1 && this.point2 == point2 && this.point3 == point3
      ensures fresh(base) && base.shapeType == Triangle && base.filled && base.arc == None
      ensures base.transform == TriangleTransform(point1, point2, point3)
    {
      this.point1 := point1;
      this.point2 := point2;
      this.point3 := point3;
      base := new SaltyShape(TriangleTransform(point1, point2, point3), Triangle, None);
    }

    /** Point `index + 1`; `None` for an index outside 0..2, where the Java
        code throws. */
    function GetPoint(index: int): (p: Option<Vec>)
      reads this
      ensures p.Some? <==> 0 <= index <= 2
    {
      if index < 0 || index > 2 then None
      else if index == 0 then Some(point1)
      else if index == 1 then Some(point2)
      else Some(point3)
    }

    function GetPoints(): (ps: seq<Vec>)
      reads this
      ensures |ps| == 3
      ensures forall i :: 0 <= i < 3 ==> GetPoint(i) == Some(ps[i])
    {
      [point1, point2, point3]
    }

    method SetPoint1(point1: Vec)
      modifies this`point1, base`transform
      ensures this.point1 == point1
      ensures base.transform == TriangleTransform(point1, point2, point3)
    {
      this.point1 := point1;
      base.SetTransform(TriangleTransform(this.point1, point2, point3));
    }

    method SetPoint2(point2: Vec)
      modifies this`point2, base`transform
      ensures this.point2 == point2
      ensures base.transform == TriangleTransform(point1, point2, point3)
    {
      this.point2 := point2;
      base.SetTransform(TriangleTransform(point1, this.point2, point3));
    }

    method SetPoint3(point3: Vec)
      modifies this`point3, base`transform
      ensures this.point3 == point3
      ensures base.transform == TriangleTransform(point1, point2, point3)
    {
      this.point3 := point3;
      base.SetTransform(TriangleTransform(point1, point2, this.point3));
    }
  }

  /** The result of `createShape`: a plain shape, a triangle, or `null`. */
  datatype Created = NoShape | Plain(shape: SaltyShape) | TriangleCreated(triangle: TriangleShape)

  method CreateShape(shapeType: EnumShape, transform: Transform, arcIfRoundRect: seq<real>)
    returns (r: Created)
    ensures shapeType == Rectangle || shapeType == Oval || shapeType == Line ==>
              r.Plain? && fresh(r.shape) && r.shape.shapeType == shapeType
              && r.shape.transform == transform && r.shape.arc == None && r.shape.filled
    ensures shapeType == RoundRectangle ==>
              r.Plain? && fresh(r.shape) && r.shape.shapeType == RoundRectangle
              && r.shape.transform == transform && r.shape.filled
              && r.shape.arc == (if |arcIfRoundRect| < 1 then None else Some(arcIfRoundRect[0]))
    ensures shapeType == Triangle ==>
              r.TriangleCreated? && fresh(r.triangle) && fresh(r.triangle.base)
              && r.triangle.base.shapeType == Triangle && r.triangle.base.filled && r.triangle.base.arc == None
              && [r.triangle.point1, r.triangle.point2, r.triangle.point3] == TrianglePoints(transform)
              && r.triangle.base.transform == TriangleTransform(r.triangle.point1, r.triangle.point2, r.triangle.point3)
    ensures shapeType.Unlisted? ==> r == NoShape
  {
    match shapeType
    case Rectangle =>
      var s := new SaltyShape(transform, Rectangle, None);
      r := Plain(s);
    case Oval =>
      var s := new SaltyShape(transform, Oval, None);
      r := Plain(s);
    case RoundRectangle =>
      var arc := if |arcIfRoundRect| < 1 then None else Some(arcIfRoundRect[0]);
      var s := new SaltyShape(transform, RoundRectangle, arc);
      r := Plain(s);
    case Line =>
      var s := new SaltyShape(transform, Line, None);
      r := Plain(s);
    case Triangle =>
      var centre := transform.Centre();
      var t := new TriangleShape(Vec(transform.x, transform.MaxY()), Vec(centre.x, transform.y),
                                 Vec(transform.MaxX(), transform.MaxY()));
      r := TriangleCreated(t);
    case Unlisted(_) =>
      r := NoShape;
  }
}
