/** The bowl geometry: two germanium detectors in an argon ball
    (`LAr_l`) and a PEN hemisphere bowl at the centre, each registered as a
    detector and given an origin. */
module GeometryPen {

  import opened Results
  import opened Detectors
  import opened Shapes
  import opened Hpge

  const Origin3 := Vec3(0.0, 0.0, 0.0)

  const BegeVolume := PhysicalVolume("BEGe", "BEGe_L", "LAr_l", Origin3, Vec3(8.0, 0.0, -3.0))
  const CoaxVolume := PhysicalVolume("Coax", "Coax_L", "LAr_l", Origin3, Vec3(-5.0, 0.0, -10.0))
  const BowlVolume := PhysicalVolume("PEN_Bowl_pv", "PEN_Bowl_l", "LAr_l", Origin3, Origin3)

  /** The bowl's solid; the angles making it a hemisphere are not kept. */
  const Bowl := Sphere("PEN_Bowl_s", 5.0, 6.0)

  /** The record attached to the bowl. */
  function BowlMeta(): Metadata {
    map["name" := Text("PEN_Bowl"), "type" := Text("pen"), "material" := Text("polyethylene_naphthalate"),
        "dimensions" := Record(map["inner_radius_cm" := Number(5.0), "outer_radius_cm" := Number(6.0),
                                   "shape" := Text("bowl")]),
        "notes" := Text("PEN scintillator hemisphere")]
  }

  /** The script's outcome: the tags and the origin map. */
  datatype Scene = Scene(tags: ActiveDetectors, origins: Option<map<string, Origin>>)

  /** The origin registrations, in script order. */
  function Registrations(): seq<Registration> {
    [Registration("BEGe", BegeVolume), Registration("Coax", CoaxVolume), Registration("PEN_Bowl", BowlVolume)]
  }

  /** The whole script, from an empty registry. */
  function Script(): Scene {
    var tags := map[][BegeVolume.name := DetectorInfo("germanium", 1, MetaOf(Bege()))]
                     [CoaxVolume.name := DetectorInfo("germanium", 2, MetaOf(Coax()))]
                     [BowlVolume.name := DetectorInfo("pen_scintillator", 4, BowlMeta())];
    Scene(tags, RegisterOrigins(None, Registrations()))
  }

  /** The three tagged volumes carry the identifiers 1, 2 and 4. */
  lemma Identifiers()
    ensures Script().tags.Keys == {"BEGe", "Coax", "PEN_Bowl_pv"}
    ensures Script().tags["BEGe"].uid == 1 && Script().tags["Coax"].uid == 2
    ensures Script().tags["PEN_Bowl_pv"].uid == 4 && Script().tags["PEN_Bowl_pv"].category == "pen_scintillator"
    ensures DistinctIds(Script().tags)
  {
  }

  /** After registration the origin map, which the script prints, has
      exactly the keys BEGe, Coax and PEN_Bowl, each holding the position
      of the volume registered under it. */
  lemma Origins()
    ensures Script().origins.Some?
    ensures Script().origins.value.Keys == {"BEGe", "Coax", "PEN_Bowl"}
    ensures Script().origins.value["BEGe"] == Origin(8.0, 0.0, -3.0)
    ensures Script().origins.value["Coax"] == Origin(-5.0, 0.0, -10.0)
    ensures Script().origins.value["PEN_Bowl"] == Origin(0.0, 0.0, 0.0)
  {
    var m1 := AddDetectorOrigin(None, "BEGe", BegeVolume);
    var m2 := AddDetectorOrigin(Some(m1), "Coax", CoaxVolume);
    var m3 := AddDetectorOrigin(Some(m2), "PEN_Bowl", BowlVolume);
    RegisterThree(None, Registrations()[0], Registrations()[1], Registrations()[2]);
    assert Script().origins == Some(m3);
  }

  /** The radii recorded in the bowl's metadata are the solid's inner and
      outer radius, and the shell has positive thickness. */
  lemma BowlDimensions()
    ensures NumberAt(Script().tags["PEN_Bowl_pv"].metadata, "dimensions", "inner_radius_cm") == Some(Bowl.rmin)
    ensures NumberAt(Script().tags["PEN_Bowl_pv"].metadata, "dimensions", "outer_radius_cm") == Some(Bowl.rmax)
    ensures Bowl.rmin < Bowl.rmax
  {
  }
}
