/**
 * The few engine types the core touches: entity identifiers and the vectors of
 * the maths library. Coordinates are exact reals; the model has no float
 * rounding.
 */
module Engine {

  /** An entity identifier of the entity-component store. */
  type Entity = nat

  datatype Vec2 = Vec2(x: real, y: real)

  datatype Vec3 = Vec3(x: real, y: real, z: real)
}
