/** The engine's mutable two-component vector and the value-level arithmetic
    its in-place methods are specified by. */
module Vectors {
  import opened Geometry

  /** `Float.MAX_VALUE`, written out exactly: (2 - 2^-23) * 2^127. */
  const FLOAT_MAX_VALUE: real := 340282346638528859811704183484516925440.0
  /** `Float.MIN_VALUE`, written out exactly: 2^-149, the smallest POSITIVE float. */
  const FLOAT_MIN_VALUE: real := 1.0 / 713623846352979940529142984724747568191373312.0

  /** The range of a Java `int`. */
  const INT_MIN: int := -0x8000_0000
  const INT_MAX: int := 0x7fff_ffff

  /** The engine's integer point (`Coordinates`), two Java `int`s. */
  datatype Coordinates = Coordinates(x: int, y: int)

  function Sum(a: Vec, b: Vec): Vec { Vec(a.x + b.x, a.y + b.y) }
  function Difference(a: Vec, b: Vec): Vec { Vec(a.x - b.x, a.y - b.y) }
  function Product(a: Vec, b: Vec): Vec { Vec(a.x * b.x, a.y * b.y) }
  function Quotient(a: Vec, b: Vec): Vec
    requires b.x != 0.0 && b.y != 0.0
  {
    Vec(a.x / b.x, a.y / b.y)
  }

  /** Java's `(int)` cast of a float: rounds toward zero and saturates at the
      bounds of `int`. */
  function ToInt(r: real): (i: int)
    ensures INT_MIN <= i <= INT_MAX
    ensures INT_MIN as real <= r <= INT_MAX as real && r >= 0.0 ==> i as real <= r < i as real + 1.0
    ensures INT_MIN as real <= r <= INT_MAX as real && r < 0.0 ==> i as real - 1.0 < r <= i as real
    ensures r > INT_MAX as real ==> i == INT_MAX
    ensures r < INT_MIN as real ==> i == INT_MIN
  {
    var t := if r >= 0.0 then r.Floor else -((-r).Floor);
    if t > INT_MAX then INT_MAX else if t < INT_MIN then INT_MIN else t
  }

  /** What `convertToCoordinates` computes from a vector's value. */
  function Truncated(v: Vec): Coordinates
  {
    Coordinates(ToInt(v.x), ToInt(v.y))
  }

  /** What `parseCoordinates2f` stores: each `int` widened to a float. */
  function Widened(c: Coordinates): Vec
  {
    Vec(c.x as real, c.y as real)
  }

  ghost predicate IsIntegral(r: real) { r == r.Floor as real }

  /** `subtract` undoes an `add` of the same amounts. */
  lemma SubtractUndoesAdd(a: Vec, b: Vec)
    ensures Difference(Sum(a, b), b) == a
    ensures Sum(Difference(a, b), b) == a
  {
  }

  /** `divide` by a vector with no zero component undoes `multiply` by it. */
  lemma DivideUndoesMultiply(a: Vec, b: Vec)
    requires b.x != 0.0 && b.y != 0.0
    ensures Quotient(Product(a, b), b) == a
  {
    assert (a.x * b.x) / b.x == a.x;
    assert (a.y * b.y) / b.y == a.y;
  }

  /** Converting to coordinates and parsing them back gives integral
      components, and it is the identity on integral vectors in `int` range. */
  lemma {:induction false} ConvertParseRoundTrip(v: Vec)
    ensures IsIntegral(Widened(Truncated(v)).x) && IsIntegral(Widened(Truncated(v)).y)
    ensures IsIntegral(v.x) && IsIntegral(v.y)
            && INT_MIN as real <= v.x <= INT_MAX as real
            && INT_MIN as real <= v.y <= INT_MAX as real
            ==> Widened(Truncated(v)) == v
  {
    TruncateIntegral(v.x);
    TruncateIntegral(v.y);
  }

  lemma TruncateIntegral(r: real)
    ensures (ToInt(r) as real).Floor == ToInt(r)
    ensures IsIntegral(r) && INT_MIN as real <= r <= INT_MAX as real ==> ToInt(r) as real == r
  {
    if IsIntegral(r) && INT_MIN as real <= r <= INT_MAX as real {
      var t := r.Floor;
      assert t as real == r;
      if r >= 0.0 {
        assert ToInt(r) == t;
      } else {
        assert (-r).Floor == -t;
        assert ToInt(r) == t;
      }
    }
  }

  class Vector2f {
    var x: real
    var y: real

    function Value(): Vec
      reads this
    {
      Vec(x, y)
    }

    constructor (x: real, y: real)
      ensures Value() == Vec(x, y)
    {
      this.x := x;
      this.y := y;
    }

    /** The copy constructor `Vector2f(Vector2f position)`. */
    constructor Copy(position: Vector2f)
      ensures Value() == position.Value()
    {
      x := position.x;
      y := position.y;
    }

    static method Zero() returns (v: Vector2f)
      ensures fresh(v) && v.Value() == Vec(0.0, 0.0)
    {
      v := new Vector2f(0.0, 0.0);
    }

    static method One() returns (v: Vector2f)
      ensures fresh(v) && v.Value() == Vec(1.0, 1.0)
    {
      v := new Vector2f(1.0, 1.0);
    }

    static method Max() returns (v: Vector2f)
      ensures fresh(v) && v.Value() == Vec(FLOAT_MAX_VALUE, FLOAT_MAX_VALUE)
    {
      v := new Vector2f(FLOAT_MAX_VALUE, FLOAT_MAX_VALUE);
    }

    /** Not the most negative vector: both components are the smallest
        POSITIVE float. */
    static method Min() returns (v: Vector2f)
      ensures fresh(v) && v.Value() == Vec(FLOAT_MIN_VALUE, FLOAT_MIN_VALUE)
      ensures 0.0 < v.x < 1.0 && 0.0 < v.y < 1.0
    {
      v := new Vector2f(FLOAT_MIN_VALUE, FLOAT_MIN_VALUE);
    }

    method SetX(x: real)
      modifies this`x
      ensures Value() == Vec(x, old(y))
    {
      this.x := x;
    }

    method SetY(y: real)
      modifies this`y
      ensures Value() == Vec(old(x), y)
    {
      this.y := y;
    }

    method Add(x1: real, y1: real) returns (r: Vector2f)
      modifies this
      ensures r == this
      ensures Value() == Sum(old(Value()), Vec(x1, y1))
    {
      x := x + x1;
      y := y + y1;
      r := this;
    }

    /** The overload taking a vector; `pos1` may be `this` itself, whose
        components are read before either is changed. */
    method AddVector(pos1: Vector2f) returns (r: Vector2f)
      modifies this
      ensures r == this
      ensures Value() == Sum(old(Value()), old(pos1.Value()))
    {
      r := Add(pos1.x, pos1.y);
    }

    method Multiply(x1: real, y1: real) returns (r: Vector2f)
      modifies this
      ensures r == this
      ensures Value() == Product(old(Value()), Vec(x1, y1))
    {
      x := x * x1;
      y := y * y1;
      r := this;
    }

    method MultiplyVector(pos1: Vector2f) returns (r: Vector2f)
      modifies this
      ensures r == this
      ensures Value() == Product(old(Value()), old(pos1.Value()))
    {
      r := Multiply(pos1.x, pos1.y);
    }

    method Divide(x1: real, y1: real) returns (r: Vector2f)
      requires x1 != 0.0 && y1 != 0.0
      modifies this
      ensures r == this
      ensures Value() == Quotient(old(Value()), Vec(x1, y1))
    {
      x := x / x1;
      y := y / y1;
      r := this;
    }

    method DivideVector(pos1: Vector2f) returns (r: Vector2f)
      requires pos1.x != 0.0 && pos1.y != 0.0
      modifies this
      ensures r == this
      ensures Value() == Quotient(old(Value()), old(pos1.Value()))
    {
      r := Divide(pos1.x, pos1.y);
    }

    method Subtract(x1: real, y1: real) returns (r: Vector2f)
      modifies this
      ensures r == this
      ensures Value() == Difference(old(Value()), Vec(x1, y1))
    {
      x := x - x1;
      y := y - y1;
      r := this;
    }

    method SubtractVector(pos1: Vector2f) returns (r: Vector2f)
      modifies this
      ensures r == this
      ensures Value() == Difference(old(Value()), old(pos1.Value()))
    {
      r := Subtract(pos1.x, pos1.y);
    }

    /** Reads only: each component cast to `int`. */
    method ConvertToCoordinates() returns (c: Coordinates)
      ensures INT_MIN <= c.x <= INT_MAX && INT_MIN <= c.y <= INT_MAX
      ensures c == Truncated(Value())
    {
      c := Coordinates(ToInt(x), ToInt(y));
    }

    method ParseCoordinates2f(coordinates: Coordinates)
      modifies this
      ensures Value() == Widened(coordinates)
    {
      SetX(coordinates.x as real);
      SetY(coordinates.y as real);
    }

    /** Java `equals(Object)`: another `Vector2f` with equal components. */
    predicate Equals(obj: object?)
      reads this, obj
    {
      obj is Vector2f && (obj as Vector2f).x == x && (obj as Vector2f).y == y
    }

    method Clone() returns (c: Vector2f)
      ensures fresh(c) && c.Value() == Value() && c.Equals(this)
    {
      c := new Vector2f(x, y);
    }
  }

  /** `equals` holds exactly when the argument is a `Vector2f` with the same
      components; it is reflexive and symmetric. */
  lemma EqualsMeansSameValue(v: Vector2f, obj: object?)
    ensures v.Equals(obj) <==> obj is Vector2f && (obj as Vector2f).Value() == v.Value()
    ensures v.Equals(v)
    ensures obj is Vector2f ==> (v.Equals(obj) <==> (obj as Vector2f).Equals(v))
  {
  }
}
