/** The basic geometry: two germanium detectors in an argon ball (`LAr_l`)
    and a plastic scintillator cylinder near the source, each registered as
    a detector and given an origin. */
module GeometryScript {

  import opened Results
  import opened Detectors
  import opened Shapes
  import opened Hpge

  const Origin3 := Vec3(0.0, 0.0, 0.0)

  const BegeVolume := PhysicalVolume("BEGe", "BEGe_L", "LAr_l", Origin3, Vec3(8.0, 0.0, -3.0))
  const CoaxVolume := PhysicalVolume("Coax", "Coax_L", "LAr_l", Origin3, Vec3(-5.0, 0.0, -10.0))
  const PlasticVolume := PhysicalVolume("PlasticScint_pv", "PlasticScint_l", "LAr_l", Origin3, Vec3(0.0, 2.0, 0.0))

  /** The plastic cylinder: radius 20 and half length 15, in millimetres. */
  const Plastic := Tubs("PlasticScint_s", 0.0, 20.0, 15.0)

  /** The record attached to the plastic scintillator. */
  function PlasticMeta(): Metadata {
    map["name" := Text("PlasticScint"), "type" := Text("plastic"), "material" := Text("scintillator"),
        "dimensions" := Record(map["height_in_mm" := Number(30.0), "radius_in_mm" := Number(20.0)]),
        "notes" := Text("Plastic scintillator for veto")]
  }

  /** The script's outcome: the tags and the origin map. */
  datatype Scene = Scene(tags: ActiveDetectors, origins: Option<map<string, Origin>>)

  /** The origin registrations, in script order. */
  function Registrations(): seq<Registration> {
    [Registration("BEGe", BegeVolume), Registration("Coax", CoaxVolume), Registration("PlasticScint", PlasticVolume)]
  }

  /** The whole script, from an empty registry. */
  function Script(): Scene {
    var tags := map[][BegeVolume.name := DetectorInfo("germanium", 1, MetaOf(Bege()))]
                     [CoaxVolume.name := DetectorInfo("germanium", 2, MetaOf(Coax()))]
                     [PlasticVolume.name := DetectorInfo("plastic_scintillator", 3, PlasticMeta())];
    Scene(tags, RegisterOrigins(None, Registrations()))
  }

  /** The three tagged volumes carry the identifiers 1, 2 and 3, pairwise
      distinct. */
  lemma Identifiers()
    ensures Script().tags.Keys == {"BEGe", "Coax", "PlasticScint_pv"}
    ensures Script().tags["BEGe"].uid == 1 && Script().tags["Coax"].uid == 2
    ensures Script().tags["PlasticScint_pv"].uid == 3
    ensures DistinctIds(Script().tags)
  {
  }

  /** The origin keys are exactly BEGe, Coax and PlasticScint, each holding
      the position of the volume registered under it. */
  lemma Origins()
    ensures Script().origins.Some?
    ensures Script().origins.value.Keys == {"BEGe", "Coax", "PlasticScint"}
    ensures Script().origins.value["BEGe"] == Origin(8.0, 0.0, -3.0)
    ensures Script().origins.value["Coax"] == Origin(-5.0, 0.0, -10.0)
    ensures Script().origins.value["PlasticScint"] == Origin(0.0, 2.0, 0.0)
  {
    var m1 := AddDetectorOrigin(None, "BEGe", BegeVolume);
    var m2 := AddDetectorOrigin(Some(m1), "Coax", CoaxVolume);
    var m3 := AddDetectorOrigin(Some(m2), "PlasticScint", PlasticVolume);
    RegisterThree(None, Registrations()[0], Registrations()[1], Registrations()[2]);
    assert Script().origins == Some(m3);
  }

  /** The recorded height is twice the half length given to the cylinder,
      and the recorded radius is its outer radius. */
  lemma DimensionsMatchSolid()
    ensures NumberAt(Script().tags["PlasticScint_pv"].metadata, "dimensions", "height_in_mm") == Some(2.0 * Plastic.z)
    ensures NumberAt(Script().tags["PlasticScint_pv"].metadata, "dimensions", "radius_in_mm") == Some(Plastic.rmax)
  {
  }
}
