/**
 * Conversion from level-file pixel coordinates (origin top left, y growing
 * downwards) to world coordinates (y growing upwards).
 */
module MapUtils {
  import opened Engine

  /**
   * `convert_to_world`: keeps x and z and negates y. The layer size, grid
   * size and scale are accepted and not used.
   */
  function ConvertToWorld(width: real, height: real, gridSize: int, scale: real, x: int, y: int, z: int): (r: Vec3)
    ensures r.x == x as real
    ensures r.y == -(y as real)
    ensures r.z == z as real
  {
    Vec3(x as real, (-y) as real, z as real)
  }

  /** The result is the same whatever the layer size, grid size and scale. */
  lemma ConvertIgnoresLayout(w1: real, h1: real, g1: int, s1: real, w2: real, h2: real, g2: int, s2: real, x: int, y: int, z: int)
    ensures ConvertToWorld(w1, h1, g1, s1, x, y, z) == ConvertToWorld(w2, h2, g2, s2, x, y, z)
  {
  }

  /** Distinct pixel positions land on distinct world positions, and flipping y back recovers the pixel. */
  lemma ConvertInjective(w: real, h: real, g: int, s: real, x: int, y: int, z: int, x': int, y': int, z': int)
    ensures ConvertToWorld(w, h, g, s, x, y, z) == ConvertToWorld(w, h, g, s, x', y', z') <==> x == x' && y == y' && z == z'
    ensures Vec3(ConvertToWorld(w, h, g, s, x, y, z).x, -ConvertToWorld(w, h, g, s, x, y, z).y, ConvertToWorld(w, h, g, s, x, y, z).z)
            == Vec3(x as real, y as real, z as real)
  {
  }
}
