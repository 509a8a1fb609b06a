/** The component parent and the core component that keeps a game object's
    middle point up to date. */
module Components {
  import opened Geometry
  import opened Vectors

  /** The component type tags of `Components`. */
  datatype ComponentType = CoreComponent | RenderComponent | GfxComponent | ColliderComponent

  /** A game object, reduced to the state the components read and write. */
  class GameObject {
    var transform: Transform
    var middle: Vector2f?

    constructor (transform: Transform)
      ensures this.transform == transform && middle == null
    {
      this.transform := transform;
      middle := null;
    }

    method SetMiddle(middle: Vector2f)
      modifies this`middle
      ensures this.middle == middle
    {
      this.middle := middle;
    }
  }

  /** The exact middle of a transform: position plus half the size. */
  function Middle(t: Transform): (m: Vec)
    ensures t.width >= 0.0 && t.height >= 0.0 ==> t.x <= m.x <= t.MaxX() && t.y <= m.y <= t.MaxY()
  {
    t.Centre()
  }

  /** Position (10, 20) and size (4, 6) give the middle (12, 23). */
  lemma MiddleExample()
    ensures Middle(Transform(10.0, 20.0, 4.0, 6.0)) == Vec(12.0, 23.0)
  {
  }

  class RecalculateMiddleComponent {
    const parent: GameObject
    const name: string
    const componentType: ComponentType
    /** The one vector this component hands to its parent and then updates
        in place on every tick. */
    const exactMiddle: Vector2f

    constructor (parent: GameObject, name: string)
      ensures this.parent == parent && this.name == name
      ensures componentType == CoreComponent
      ensures fresh(exactMiddle) && exactMiddle.Value() == Vec(0.0, 0.0)
    {
      this.parent := parent;
      this.name := name;
      componentType := CoreComponent;
      exactMiddle := new Vector2f(0.0, 0.0);
    }

    /** Recomputes the middle into `exactMiddle` and installs that same
        object as the parent's middle; the parent's transform is only read,
        so a second tick with an unchanged parent gives the same middle. */
    method OnFixedTick()
      modifies exactMiddle, parent`middle
      ensures exactMiddle.Value() == Middle(parent.transform)
      ensures parent.middle == exactMiddle
    {
      CalculateMiddle();
      parent.SetMiddle(exactMiddle);
    }

    method CalculateMiddle()
      modifies exactMiddle
      ensures exactMiddle.Value() == Middle(parent.transform)
    {
      exactMiddle.SetX(parent.transform.x + parent.transform.width / 2.0);
      exactMiddle.SetY(parent.transform.y + parent.transform.height / 2.0);
    }

    /** Draws nothing and changes nothing. */
    method Draw()
    {
    }

    /** Reacts to no collision and changes nothing. */
    method OnCollision()
    {
    }
  }
}
