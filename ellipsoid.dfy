/**
 * The reference ellipsoid an arc is measured on. Its implementation is not
 * part of this model: only the two quantities EllipsoidalArc reads from it,
 * the semi-major axis and the flattening, are kept.
 */
module Ellipsoids {

  class Ellipsoid {
    const semiMajorAxis: real
    const flattening: real

    constructor (a: real, f: real)
      ensures semiMajorAxis == a && flattening == f
    {
      semiMajorAxis := a;
      flattening := f;
    }
  }
}
