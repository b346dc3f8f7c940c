/** The solids the scripts build, as the numbers they pass: a tube with
    inner and outer radius and a z extent, a box with three extents, and a
    spherical shell with inner and outer radius. The angles, the units and
    how the geometry library reads the extents are not part of the model. */
module Shapes {

  datatype Shape =
    | Tubs(name: string, rmin: real, rmax: real, z: real)
    | Box(name: string, x: real, y: real, z: real)
    | Sphere(name: string, rmin: real, rmax: real)
}
