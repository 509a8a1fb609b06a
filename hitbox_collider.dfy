/** Collision dispatch of `HitboxCollider`: a switch on the type tag of the
    OTHER object's collider. The hitbox overlap test (`Hitbox.collides`) and
    the direction rule (`Transform.getRelation`) are collaborators, passed
    in as functions. Nothing here writes state. */
module Colliders {
  import opened Geometry

  /** The collider type tags; only the hitbox tag is handled. */
  datatype ColliderType = HitboxType | OtherType(tag: string)

  datatype Collider = Collider(name: string, colliderType: ColliderType)

  /** A game object as collision sees it: its hitbox transform and the
      collider that `requestCollider()` returns for it. */
  datatype Body = Body(hitbox: Transform, collider: Collider)

  /** `new HitboxCollider(parent, name)`. */
  function NewHitboxCollider(name: string): (c: Collider)
    ensures c.colliderType == HitboxType && c.name == name
  {
    Collider(name, HitboxType)
  }

  /** `requestCollision(other)` on the hitbox collider of `self`:
      `collides(h, o)` is the parent hitbox `h` tested against `o`. */
  function RequestCollision(self: Body, other: Body, collides: (Transform, Body) -> bool): (r: bool)
    ensures other.collider.colliderType != HitboxType ==> !r
    ensures other.collider.colliderType == HitboxType ==> (r <==> collides(self.hitbox, other))
  {
    match other.collider.colliderType
    case HitboxType => collides(self.hitbox, other)
    case OtherType(_) => false
  }

  /** `getCollisionDirection(other)`: the relation of the two hitboxes. */
  function CollisionDirection<D>(self: Body, other: Body, relation: (Transform, Transform) -> D): D
  {
    relation(self.hitbox, other.hitbox)
  }

  /** Whatever tag the other collider carries, a collider of any other type
      never reports a collision, and the answer does not depend on the
      collider of `self`. */
  lemma UnhandledTypesNeverCollide(self: Body, other: Body, tag: string,
                                   mine: Collider, collides: (Transform, Body) -> bool)
    ensures !RequestCollision(self, other.(collider := other.collider.(colliderType := OtherType(tag))), collides)
    ensures RequestCollision(self.(collider := mine), other, collides) == RequestCollision(self, other, collides)
  {
  }

  /** The direction depends only on the two hitbox transforms. */
  lemma DirectionIgnoresColliders<D>(self: Body, other: Body, c1: Collider, c2: Collider,
                                     relation: (Transform, Transform) -> D)
    ensures CollisionDirection(self.(collider := c1), other.(collider := c2), relation)
            == CollisionDirection(self, other, relation)
  {
  }
}
