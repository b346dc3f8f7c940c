/** The parts of a geometry registry that the merge script reads and
    writes. Library objects are opaque records: only their names and the
    references between them are modelled. */
module Registries {

  import opened Results
  import opened Dicts
  import opened Detectors

  /** An entry of the define dictionary (a named position, rotation or
      constant); `handle` stands for the library object's value. */
  datatype Define = Define(name: string, handle: nat)

  /** A material object. `id` is the object's identity, so that two list
      entries with the same `id` are the same Python object; `optical`
      records whether the PEN optical tables have been attached to it. */
  datatype Material = Material(id: nat, name: string, optical: bool)

  /** A solid; `handle` stands for its shape parameters. */
  datatype Solid = Solid(name: string, handle: nat)

  /** A logical volume: its name, the name of its solid, and the identity of
      its material object (`None` when it has none). */
  datatype LogicalVolume = LogicalVolume(name: string, solid: string, material: Option<nat>)

  datatype Registry = Registry(
    defines: Dict<Define>,
    materials: seq<Material>,
    solids: Dict<Solid>,
    lvs: Dict<LogicalVolume>,
    pvs: Dict<PhysicalVolume>)

  ghost predicate ValidRegistry(reg: Registry) {
    Valid(reg.defines) && Valid(reg.solids) && Valid(reg.lvs) && Valid(reg.pvs)
  }
}
