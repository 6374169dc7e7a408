/** Coordinate-frame transforms, kept symbolic.

    The numeric matrix library (translation, scale and rotation factories
    and the 4x4 product) is floating point and lies outside this model, so a
    transform is a free term: two transforms are equal exactly when they were
    built the same way. No algebraic law (associativity, identity, ...) holds
    of `Mult`, so equalities proved between transforms hold for any matrix
    library, while inequalities are artefacts of the free term.
 */
module Transforms {

  /** A triple of script numbers: a point, a displacement or an RGB value. */
  datatype Vec3 = Vec3(x: real, y: real, z: real)

  /** A rotation angle given in degrees; the conversion to radians
      (a floating-point multiplication by pi/180) is left symbolic. */
  datatype Angle = FromDegrees(degrees: real)

  datatype Transform =
    | Identity
    | Translation(offset: Vec3)
    | Scaling(factors: Vec3)
    | RotX(angle: Angle)
    | RotY(angle: Angle)
    | RotZ(angle: Angle)
      /** The product `matrix_mult(left, right)`, arguments in that order. */
    | Mult(left: Transform, right: Transform)
}
