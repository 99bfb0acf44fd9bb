/** A path section: one analytic segment normalised to a local parameter in [0, 1].
    The concrete geometry (lines, arcs, ...) and the vector maths are not part of this
    model, so a section is the bundle of its queries, each an arbitrary function. */
module Sections {

  /** A point or vector in space. */
  datatype Vec3 = Vec3(x: real, y: real, z: real)

  /** The capability set of a section: position, first and second derivative,
      curvature, torsion, tangent angle, derivative norm, the three speed queries
      (which the section answers through its attached speed law), a type tag, and
      the discretised samples of the section at a given parametric step. */
  datatype Section = Section(
    pd: real -> Vec3,
    dPd: real -> Vec3,
    ddPd: real -> Vec3,
    curvature: real -> real,
    torsion: real -> real,
    tangentAngle: real -> real,
    derivativeNorm: real -> real,
    vehicleSpeed: real -> real,
    vd: real -> real,
    dVd: real -> real,
    sectionType: string,
    samples: real -> seq<Vec3>)
}
