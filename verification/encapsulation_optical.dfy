/** The optical encapsulation geometry: each germanium detector sits inside
    a solid PEN cylinder at its own position, with a PMT 5 cm under its
    centre, all inside the argon volume `LAr_lv`. */
module EncapsulationOptical {

  import opened Results
  import opened Detectors
  import opened Shapes
  import opened Hpge

  const Origin3 := Vec3(0.0, 0.0, 0.0)

  /** `bege_pos` and `coax_pos`: opposite each other along y. */
  const BegePos := Vec3(0.0, 45.0, 0.0)
  const CoaxPos := Vec3(0.0, -45.0, 0.0)

  /** The margin added to the detector's radius and half height, in cm. */
  const PenMargin: real := 0.2

  /** A built volume: its solid, its placement and the tags after it is marked. */
  datatype Part = Part(solid: Shape, pv: PhysicalVolume, tags: ActiveDetectors)

  /** The metadata of a PEN tag. */
  function PenMeta(prefix: string): Metadata {
    map["name" := Text(prefix), "material" := Text("PEN")]
  }

  /** `create_pen`: a full cylinder whose radius and half height exceed the
      detector's (in cm) by the margin, placed at the detector's position
      and tagged as a scintillator. */
  function CreatePen(tags: ActiveDetectors, meta: HpgeMeta, det: Vec3, prefix: string, detId: int): (r: Part)
    ensures r.solid.Tubs? && r.solid.rmin == 0.0
    ensures r.solid.rmax - RadiusCm(meta) == PenMargin && r.solid.z - HalfHeightCm(meta) == PenMargin
    ensures r.solid.rmax > RadiusCm(meta) && r.solid.z > HalfHeightCm(meta)
    ensures r.pv.position == det
    ensures r.pv.name == prefix + "_pv" && r.pv.mother == "LAr_lv"
    ensures r.tags == SetActiveDetector(tags, r.pv.name, DetectorInfo("scintillator", detId, PenMeta(prefix)))
  {
    var radius := meta.radiusMm / 10.0 + PenMargin;
    var halfHeight := meta.heightMm / 20.0 + PenMargin;
    var pv := PhysicalVolume(prefix + "_pv", prefix + "_lv", "LAr_lv", Origin3, det);
    Part(Tubs(prefix + "_s", 0.0, radius, halfHeight), pv,
         tags[pv.name := DetectorInfo("scintillator", detId, PenMeta(prefix))])
  }

  /** `create_pmt`: a flat box placed 5 cm under the detector centre, at the
      detector's x and y, and tagged as an optical detector. */
  function CreatePmt(tags: ActiveDetectors, det: Vec3, prefix: string, detId: int): (r: Part)
    ensures r.pv.position.x == det.x && r.pv.position.y == det.y
    ensures det.z - r.pv.position.z == 5.0
    ensures r.solid == Box(prefix + "_s", 5.08, 5.08, 0.25)
    ensures r.pv.name == prefix + "_pv" && r.pv.mother == "LAr_lv"
    ensures r.tags == SetActiveDetector(tags, r.pv.name, DetectorInfo("optical", detId, NameMeta(prefix)))
  {
    var pv := PhysicalVolume(prefix + "_pv", prefix + "_lv", "LAr_lv", Origin3, Vec3(det.x, det.y, det.z - 5.0));
    Part(Box(prefix + "_s", 5.08, 5.08, 0.25), pv, tags[pv.name := DetectorInfo("optical", detId, NameMeta(prefix))])
  }

  /** The script's outcome: the six volumes of the origin loop in its
      order, the tags and the origin map. */
  datatype Scene = Scene(pvs: seq<PhysicalVolume>, tags: ActiveDetectors, origins: Option<map<string, Origin>>)

  /** The placements and tags, in script order, from no tags. */
  function Place(): Scene {
    var bege := PhysicalVolume("BEGe_pv", "BEGe_L", "LAr_lv", Origin3, BegePos);
    var coax := PhysicalVolume("Coax_pv", "Coax_L", "LAr_lv", Origin3, CoaxPos);
    var tags := map[][bege.name := DetectorInfo("germanium", 1, MetaOf(Bege()))]
                     [coax.name := DetectorInfo("germanium", 2, MetaOf(Coax()))];
    var penBege := CreatePen(tags, Bege(), BegePos, "PEN_BEGe", 3);
    var penCoax := CreatePen(penBege.tags, Coax(), CoaxPos, "PEN_Coax", 4);
    var pmtBege := CreatePmt(penCoax.tags, BegePos, "PMT_BEGe", 5);
    var pmtCoax := CreatePmt(pmtBege.tags, CoaxPos, "PMT_Coax", 6);
    Scene([bege, coax, penBege.pv, penCoax.pv, pmtBege.pv, pmtCoax.pv], pmtCoax.tags, None)
  }

  /** The whole script, from an empty registry: the placements, then the
      origin loop. */
  function Script(): Scene {
    var p := Place();
    Scene(p.pvs, p.tags, RegisterOrigins(None, ByOwnName(p.pvs)))
  }

  /** The names of the six placed volumes, in the order of the origin loop;
      the volume named `VolumeNames[i]` carries identifier `i + 1`. */
  const VolumeNames: seq<string> := ["BEGe_pv", "Coax_pv", "PEN_BEGe_pv", "PEN_Coax_pv", "PMT_BEGe_pv", "PMT_Coax_pv"]

  lemma PartNames()
    ensures "PEN_BEGe" + "_pv" == "PEN_BEGe_pv" && "PEN_Coax" + "_pv" == "PEN_Coax_pv"
    ensures "PMT_BEGe" + "_pv" == "PMT_BEGe_pv" && "PMT_Coax" + "_pv" == "PMT_Coax_pv"
  {
  }

  /** The script places the six volumes in the order of `VolumeNames`. */
  lemma PlacedVolumes()
    ensures |Place().pvs| == 6
    ensures forall i :: 0 <= i < 6 ==> Place().pvs[i].name == VolumeNames[i]
  {
    PartNames();
  }

  /** The identifier each placed volume is tagged with. */
  lemma PlacedUids()
    ensures UidsByPosition(Place().tags)
  {
    PartNames();
  }

  /** Exactly the volumes of `VolumeNames` are tagged, the one at position
      `i` with identifier `i + 1`. */
  ghost predicate UidsByPosition(t: ActiveDetectors) {
    && t.Keys == {"BEGe_pv", "Coax_pv", "PEN_BEGe_pv", "PEN_Coax_pv", "PMT_BEGe_pv", "PMT_Coax_pv"}
    && t["BEGe_pv"].uid == 1 && t["Coax_pv"].uid == 2 && t["PEN_BEGe_pv"].uid == 3
    && t["PEN_Coax_pv"].uid == 4 && t["PMT_BEGe_pv"].uid == 5 && t["PMT_Coax_pv"].uid == 6
  }

  /** Identifiers given by position are pairwise distinct. */
  lemma ByPositionDistinct(t: ActiveDetectors)
    requires UidsByPosition(t)
    ensures t.Keys == set i | 0 <= i < 6 :: VolumeNames[i]
    ensures forall i :: 0 <= i < 6 ==> t[VolumeNames[i]].uid == i + 1
    ensures DistinctIds(t)
  {
    forall k | k in t ensures 1 <= t[k].uid <= 6 && VolumeNames[t[k].uid - 1] == k {
    }
    forall a, b | a in t && b in t && a != b ensures t[a].uid != t[b].uid {
      assert VolumeNames[t[a].uid - 1] == a && VolumeNames[t[b].uid - 1] == b;
    }
  }

  /** Exactly the six placed volumes are tagged, the one at position `i`
      with identifier `i + 1`, so no two share an identifier. */
  lemma Identifiers()
    ensures Script().tags.Keys == set i | 0 <= i < 6 :: VolumeNames[i]
    ensures forall i :: 0 <= i < 6 ==> Script().tags[VolumeNames[i]].uid == i + 1
    ensures DistinctIds(Script().tags)
  {
    PlacedUids();
    assert Script().tags == Place().tags;
    ByPositionDistinct(Place().tags);
  }

  lemma VolumeNamesDistinct()
    ensures forall i, j :: 0 <= i < j < 6 ==> VolumeNames[i] != VolumeNames[j]
  {
  }

  /** Registering six volumes named as in `VolumeNames`, each under its own
      name, gives one entry per volume holding its position. */
  lemma OriginsByName(pvs: seq<PhysicalVolume>)
    requires |pvs| == 6 && forall i :: 0 <= i < 6 ==> pvs[i].name == VolumeNames[i]
    ensures RegisterOrigins(None, ByOwnName(pvs)).Some?
    ensures RegisterOrigins(None, ByOwnName(pvs)).value.Keys == set i | 0 <= i < 6 :: VolumeNames[i]
    ensures forall i :: 0 <= i < 6 ==> RegisterOrigins(None, ByOwnName(pvs)).value[VolumeNames[i]] == OriginOf(pvs[i])
  {
    var regs := ByOwnName(pvs);
    VolumeNamesDistinct();
    DistinctOrigins(regs);
    assert RegisteredNames(regs) == set i | 0 <= i < 6 :: VolumeNames[i];
  }

  /** The origin map has exactly the six placed names, each holding that
      volume's position. */
  lemma Origins()
    ensures Script().origins.Some?
    ensures Script().origins.value.Keys == set i | 0 <= i < 6 :: VolumeNames[i]
    ensures forall i :: 0 <= i < 6 ==> Script().origins.value[VolumeNames[i]] == OriginOf(Script().pvs[i])
  {
    var pvs := Place().pvs;
    PlacedVolumes();
    OriginsByName(pvs);
    assert Script() == Scene(pvs, Place().tags, RegisterOrigins(None, ByOwnName(pvs)));
  }
}
