/** The germanium detector records every script writes out twice (once for
    `make_hpge`, once as the tag metadata). Only the fields a script reads
    back are kept: the serial name, the type and the height and radius in
    millimetres. */
module Hpge {

  import opened Results
  import opened Detectors

  datatype HpgeMeta = HpgeMeta(serial: string, kind: string, heightMm: real, radiusMm: real)

  /** `bege_meta`. */
  function Bege(): HpgeMeta {
    HpgeMeta("B00000B", "bege", 29.46, 36.98)
  }

  /** `coax_meta`. */
  function Coax(): HpgeMeta {
    HpgeMeta("C000RG1", "coax", 40.0, 38.25)
  }

  /** The metadata dictionary, as attached to a detector tag. */
  function MetaOf(m: HpgeMeta): Metadata {
    map["name" := Text(m.serial), "type" := Text(m.kind),
        "geometry" := Record(map["height_in_mm" := Number(m.heightMm), "radius_in_mm" := Number(m.radiusMm)])]
  }

  /** `meta["geometry"]["radius_in_mm"] / 10.0`: the radius in centimetres. */
  function RadiusCm(m: HpgeMeta): real {
    m.radiusMm / 10.0
  }

  /** `meta["geometry"]["height_in_mm"] / 20.0`: the half height in centimetres. */
  function HalfHeightCm(m: HpgeMeta): real {
    m.heightMm / 20.0
  }

  /** Reading the attached dictionary gives back the record it was built
      from: the geometry lookups a script does succeed and return the
      record's numbers, and different records give different dictionaries. */
  lemma MetaOfRoundTrip(m: HpgeMeta, n: HpgeMeta)
    ensures NumberAt(MetaOf(m), "geometry", "height_in_mm") == Some(m.heightMm)
    ensures NumberAt(MetaOf(m), "geometry", "radius_in_mm") == Some(m.radiusMm)
    ensures NumberAt(MetaOf(m), "geometry", "mass_in_g") == None
    ensures MetaOf(m)["name"] == Text(m.serial) && MetaOf(m)["type"] == Text(m.kind)
    ensures MetaOf(m) == MetaOf(n) ==> m == n
  {
    if MetaOf(m) == MetaOf(n) {
      assert MetaOf(m)["name"] == MetaOf(n)["name"];
      assert MetaOf(m)["type"] == MetaOf(n)["type"];
      assert MetaOf(m)["geometry"].fields["height_in_mm"] == MetaOf(n)["geometry"].fields["height_in_mm"];
      assert MetaOf(m)["geometry"].fields["radius_in_mm"] == MetaOf(n)["geometry"].fields["radius_in_mm"];
    }
  }

  /** The centimetre sizes of the two detectors the scripts use. */
  lemma DetectorSizesCm()
    ensures RadiusCm(Bege()) == 3.698 && HalfHeightCm(Bege()) == 1.473
    ensures RadiusCm(Coax()) == 3.825 && HalfHeightCm(Coax()) == 2.0
  {
  }
}
