/**
 * Integer tile coordinates. The game keeps every transform exactly on lattice
 * points, so Unity's Vector2/Vector3 become pairs and triples of integers.
 */
module Grid {

  /** A tile, as Unity's Vector2 (y grows upwards). */
  datatype Vec2 = Vec2(x: int, y: int) {

    function Plus(d: Vec2): Vec2 {
      Vec2(x + d.x, y + d.y)
    }
  }

  /** Vector2.zero, which the movement resolver also uses as its rejection value. */
  const Zero: Vec2 := Vec2(0, 0)
  const Up: Vec2 := Vec2(0, 1)
  const Down: Vec2 := Vec2(0, -1)
  const Left: Vec2 := Vec2(-1, 0)
  const Right: Vec2 := Vec2(1, 0)

  /** A transform position, as Unity's Vector3. */
  datatype Vec3 = Vec3(x: int, y: int, z: int)

  /** new Vector2(position.x, position.y): the tile under a transform. */
  function Flat(p: Vec3): Vec2 {
    Vec2(p.x, p.y)
  }

  /** new Vector3(v.x, v.y, 0). */
  function OnPlane(v: Vec2): Vec3 {
    Vec3(v.x, v.y, 0)
  }

  /**
   * The answer of Physics2D.OverlapPoint without a layer mask: whether some
   * collider covers the tile. It is a parameter of everything that queries it.
   */
  type Occupancy = Vec2 -> bool
}
