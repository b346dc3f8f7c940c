/** The plain encapsulation geometry: each germanium detector sits inside a
    solid PEN cylinder placed at its own position. The sizes are taken from
    the metadata in millimetres without conversion. The two PEN volumes are
    tagged twice, the second time with a richer record, and the origins are
    registered under short names. */
module Encapsulation {

  import opened Results
  import opened Detectors
  import opened Shapes
  import opened Hpge

  const Origin3 := Vec3(0.0, 0.0, 0.0)

  const BegePos := Vec3(0.0, 45.0, 0.0)
  const CoaxPos := Vec3(0.0, -45.0, 0.0)

  /** What the script adds to the radius and to the half height. */
  const PenPadding: real := 2.0

  /** A PEN cylinder: its solid and its placement. */
  datatype Part = Part(solid: Shape, pv: PhysicalVolume)

  /** The inline sizing: a full cylinder whose radius is the detector radius
      plus 2 and whose half height is half the detector height plus 2, placed
      at the detector's own position. */
  function PenAround(meta: HpgeMeta, pos: Vec3, prefix: string): (r: Part)
    ensures r.solid.Tubs? && r.solid.rmin == 0.0
    ensures r.solid.rmax - meta.radiusMm == PenPadding
    ensures r.solid.z - meta.heightMm / 2.0 == PenPadding
    ensures r.pv.position == pos
    ensures r.pv.name == prefix + "_pv" && r.pv.logical == prefix + "_lv" && r.pv.mother == "LAr_l"
  {
    var radius := meta.radiusMm;
    var halfHeight := meta.heightMm / 2.0;
    Part(Tubs(prefix + "_s", 0.0, radius + PenPadding, halfHeight + PenPadding),
         PhysicalVolume(prefix + "_pv", prefix + "_lv", "LAr_l", Origin3, pos))
  }

  /** The first PEN tag's record. */
  function ShortPenMeta(prefix: string): Metadata {
    map["name" := Text(prefix), "material" := Text("PEN")]
  }

  /** The second PEN tag's record. */
  function FullPenMeta(prefix: string, detector: string): Metadata {
    map["name" := Text(prefix), "type" := Text("pen"), "material" := Text("PEN"),
        "notes" := Text("Encapsulation for " + detector + " detector")]
  }

  const BegeVolume := PhysicalVolume("BEGe_pv", "BEGe_L", "LAr_l", Origin3, BegePos)
  const CoaxVolume := PhysicalVolume("Coax_pv", "Coax_L", "LAr_l", Origin3, CoaxPos)

  /** The tags after the first round: the detectors and the two PEN
      cylinders with their short records. */
  function FirstTags(): ActiveDetectors {
    map["BEGe_pv" := DetectorInfo("germanium", 1, MetaOf(Bege())),
        "Coax_pv" := DetectorInfo("germanium", 2, MetaOf(Coax())),
        "PEN_BEGe_pv" := DetectorInfo("scintillator", 3, ShortPenMeta("PEN_BEGe")),
        "PEN_Coax_pv" := DetectorInfo("scintillator", 4, ShortPenMeta("PEN_Coax"))]
  }

  /** The script's outcome: the tags and the origin map. */
  datatype Scene = Scene(tags: ActiveDetectors, origins: Option<map<string, Origin>>)

  /** The origin registrations, in script order. */
  function Registrations(): seq<Registration> {
    [Registration("BEGe", BegeVolume), Registration("Coax", CoaxVolume),
     Registration("PEN_BEGe", PenAround(Bege(), BegePos, "PEN_BEGe").pv),
     Registration("PEN_Coax", PenAround(Coax(), CoaxPos, "PEN_Coax").pv)]
  }

  /** The whole script, from an empty registry: the first tags, the BEGe
      cylinder's second tag, the origins, then the Coax cylinder's second tag. */
  function Script(): Scene {
    Scene(FinalTags(), RegisterOrigins(None, Registrations()))
  }

  /** The tags after both second tags; the origins are registered in
      between, which does not touch the tags. */
  function FinalTags(): ActiveDetectors {
    FirstTags()["PEN_BEGe_pv" := DetectorInfo("scintillator", 3, FullPenMeta("PEN_BEGe", "BEGe"))]
               ["PEN_Coax_pv" := DetectorInfo("scintillator", 4, FullPenMeta("PEN_Coax", "Coax"))]
  }

  /** Re-tagging keeps the tagged volumes, the category and identifier of
      each PEN cylinder, and the detectors' tags. */
  lemma Retagging()
    ensures Script().tags.Keys == FirstTags().Keys == {"BEGe_pv", "Coax_pv", "PEN_BEGe_pv", "PEN_Coax_pv"}
    ensures Script().tags["PEN_BEGe_pv"].category == FirstTags()["PEN_BEGe_pv"].category == "scintillator"
    ensures Script().tags["PEN_Coax_pv"].category == FirstTags()["PEN_Coax_pv"].category == "scintillator"
    ensures Script().tags["PEN_BEGe_pv"].uid == FirstTags()["PEN_BEGe_pv"].uid == 3
    ensures Script().tags["PEN_Coax_pv"].uid == FirstTags()["PEN_Coax_pv"].uid == 4
    ensures Script().tags["BEGe_pv"] == FirstTags()["BEGe_pv"] && Script().tags["Coax_pv"] == FirstTags()["Coax_pv"]
  {
    assert Script().tags == FinalTags();
  }

  /** The second tag replaces the record of each PEN cylinder: the new one
      carries a type, the first one did not. */
  lemma RetaggingReplacesRecords()
    ensures "PEN_BEGe_pv" in Script().tags && "PEN_Coax_pv" in Script().tags
    ensures Script().tags["PEN_BEGe_pv"].metadata != FirstTags()["PEN_BEGe_pv"].metadata
    ensures Script().tags["PEN_Coax_pv"].metadata != FirstTags()["PEN_Coax_pv"].metadata
  {
    var t := FinalTags();
    assert Script().tags == t;
    assert "type" in t["PEN_BEGe_pv"].metadata && "type" !in FirstTags()["PEN_BEGe_pv"].metadata;
    assert "type" in t["PEN_Coax_pv"].metadata && "type" !in FirstTags()["PEN_Coax_pv"].metadata;
  }

  /** The four identifiers stay pairwise distinct after re-tagging. */
  lemma RetaggingIds()
    ensures DistinctIds(Script().tags)
  {
    Retagging();
    var t := Script().tags;
    assert t["BEGe_pv"].uid == 1 && t["Coax_pv"].uid == 2;
    DistinctFour(t, "BEGe_pv", "Coax_pv", "PEN_BEGe_pv", "PEN_Coax_pv");
  }

  /** The origin keys are exactly the four short names, each cylinder's
      origin is its detector's, and each entry holds the registered
      volume's position. */
  lemma Origins()
    ensures Script().origins.Some?
    ensures Script().origins.value.Keys == {"BEGe", "Coax", "PEN_BEGe", "PEN_Coax"}
    ensures forall i :: 0 <= i < 4 ==>
      Script().origins.value[Registrations()[i].name] == OriginOf(Registrations()[i].pv)
    ensures Script().origins.value["PEN_BEGe"] == Script().origins.value["BEGe"]
    ensures Script().origins.value["PEN_Coax"] == Script().origins.value["Coax"]
  {
    var regs := Registrations();
    var m1 := AddDetectorOrigin(None, "BEGe", BegeVolume);
    var m2 := AddDetectorOrigin(Some(m1), "Coax", CoaxVolume);
    var m3 := AddDetectorOrigin(Some(m2), "PEN_BEGe", regs[2].pv);
    var m4 := AddDetectorOrigin(Some(m3), "PEN_Coax", regs[3].pv);
    RegisterFour(None, regs[0], regs[1], regs[2], regs[3]);
    RegisterThree(Some(m1), regs[1], regs[2], regs[3]);
    assert Script().origins == Some(m4);
  }
}
