/** The optical test geometry: each germanium detector gets an open PEN
    shell (a cylindrical wall whose lower rim sits at the detector centre,
    plus a bottom plate) and a PMT under the plate, all inside the argon
    volume `LAr_lv`. The placement arithmetic is real-valued; every length
    is in the script's centimetres. */
module OpticalTest {

  import opened Results
  import opened Detectors
  import opened Shapes
  import opened Hpge

  const Origin3 := Vec3(0.0, 0.0, 0.0)

  /** `bege_pos` and `coax_pos`. */
  const BegePos := Vec3(0.0, 0.0, 7.0)
  const CoaxPos := Vec3(0.0, 0.0, -7.0)

  /** The defaults the script passes explicitly. */
  const Margin: real := 0.1
  const WallThickness: real := 0.2
  const BottomThickness: real := 0.2
  const PmtGap: real := 0.1

  /** The PMT: 5.08 cm square, 0.5 cm thick, given by its half extents. */
  const PmtSideHalf: real := 2.54
  const PmtHalfThickness: real := 0.25

  /** The result of `create_pen_with_bottom`: the wall and plate solids and
      placements, the plate centre returned third, and the tags after the
      wall is marked. */
  datatype PenShell = PenShell(
    wallSolid: Shape, wall: PhysicalVolume,
    bottomSolid: Shape, bottom: PhysicalVolume,
    bottomZ: real, tags: ActiveDetectors)

  /** `create_pen_with_bottom`. The wall's inner radius clears the detector
      by `margin` and its outer radius adds `thickness`; its height covers
      the detector's half height plus `margin` twice over, and it is centred
      so that its lower rim is at the detector centre. The plate has the
      wall's outer radius and its top face lies `margin / 2` under the
      detector centre. */
  function CreatePenWithBottom(
    tags: ActiveDetectors, meta: HpgeMeta, det: Vec3, prefix: string, detId: int,
    margin: real, thickness: real, bottomThickness: real): (r: PenShell)
    ensures r.wallSolid.Tubs? && r.bottomSolid.Tubs?
    ensures r.wallSolid.rmin - RadiusCm(meta) == margin && r.wallSolid.rmax - r.wallSolid.rmin == thickness
    ensures margin > 0.0 && thickness > 0.0 ==> RadiusCm(meta) < r.wallSolid.rmin < r.wallSolid.rmax
    ensures r.wallSolid.z == 2.0 * (HalfHeightCm(meta) + margin)
    ensures r.wall.position.z - r.wallSolid.z / 2.0 == det.z
    ensures r.bottomSolid.rmin == 0.0 && r.bottomSolid.rmax == r.wallSolid.rmax
    ensures r.bottomSolid.z == bottomThickness / 2.0
    ensures r.bottom.position.z + bottomThickness / 2.0 == det.z - margin / 2.0
    ensures margin > 0.0 ==> r.bottom.position.z + bottomThickness / 2.0 < det.z
    ensures r.bottomZ == r.bottom.position.z
    ensures r.wall.position.x == det.x && r.wall.position.y == det.y
    ensures r.bottom.position.x == det.x && r.bottom.position.y == det.y
    ensures r.wall.name == prefix + "_wall_pv" && r.bottom.name == prefix + "_bottom_pv"
    ensures r.wall.mother == "LAr_lv" && r.bottom.mother == "LAr_lv"
    ensures r.tags == SetActiveDetector(tags, r.wall.name, DetectorInfo("scintillator", detId, NameMeta(prefix)))
  {
    var innerR := RadiusCm(meta) + margin;
    var outerR := innerR + thickness;
    var height := 2.0 * (HalfHeightCm(meta) + margin);
    var wallZ := det.z + height / 2.0;
    var wall := PhysicalVolume(prefix + "_wall_pv", prefix + "_wall_lv", "LAr_lv", Origin3, Vec3(det.x, det.y, wallZ));
    var bottomZ := wallZ - height / 2.0 - margin / 2.0 - bottomThickness / 2.0;
    var bottom := PhysicalVolume(prefix + "_bottom_pv", prefix + "_bottom_lv", "LAr_lv", Origin3, Vec3(det.x, det.y, bottomZ));
    PenShell(
      Tubs(prefix + "_wall_s", innerR, outerR, height), wall,
      Tubs(prefix + "_bottom_s", 0.0, outerR, bottomThickness / 2.0), bottom,
      bottomZ, tags[wall.name := DetectorInfo("scintillator", detId, NameMeta(prefix))])
  }

  /** The result of `create_pmt_under_pen`: the box, its placement and the
      tags after the PMT is marked. */
  datatype Pmt = Pmt(solid: Shape, pv: PhysicalVolume, tags: ActiveDetectors)

  /** The height of the PMT's top face. */
  function PmtTop(p: Pmt): real {
    p.pv.position.z + PmtHalfThickness
  }

  /** `create_pmt_under_pen`: the PMT keeps the detector's x and y, and its
      top face lies exactly `gap` below the height it is given. */
  function CreatePmtUnderPen(tags: ActiveDetectors, det: Vec3, z: real, prefix: string, detId: int, gap: real)
    : (r: Pmt)
    ensures PmtTop(r) == z - gap
    ensures r.pv.position.x == det.x && r.pv.position.y == det.y
    ensures r.solid.Box? && 2.0 * r.solid.x == 5.08 && 2.0 * r.solid.y == 5.08 && 2.0 * r.solid.z == 0.5
    ensures r.pv.name == prefix + "_pv" && r.pv.mother == "LAr_lv"
    ensures r.tags == SetActiveDetector(tags, r.pv.name, DetectorInfo("optical", detId, NameMeta(prefix)))
  {
    var centre := z - gap - PmtHalfThickness;
    var pv := PhysicalVolume(prefix + "_pv", prefix + "_lv", "LAr_lv", Origin3, Vec3(det.x, det.y, centre));
    Pmt(Box(prefix + "_s", PmtSideHalf, PmtSideHalf, PmtHalfThickness), pv,
        tags[pv.name := DetectorInfo("optical", detId, NameMeta(prefix))])
  }

  /** The shell and the PMT built under it as the script builds them: the
      PMT is handed the plate centre, so its top face lies `gap` under the
      plate centre, which is `margin / 2 + bottomThickness / 2 + gap` under
      the detector centre. The plate's own lower face is `bottomThickness / 2`
      under its centre, so the clearance between plate and PMT is
      `gap - bottomThickness / 2`. */
  lemma PmtUnderShell(
    tags: ActiveDetectors, meta: HpgeMeta, det: Vec3, margin: real, thickness: real, bottomThickness: real, gap: real)
    ensures var shell := CreatePenWithBottom(tags, meta, det, "PEN", 3, margin, thickness, bottomThickness);
            var pmt := CreatePmtUnderPen(shell.tags, det, shell.bottomZ, "PMT", 5, gap);
            && PmtTop(pmt) == det.z - margin / 2.0 - bottomThickness / 2.0 - gap
            && (shell.bottom.position.z - bottomThickness / 2.0) - PmtTop(pmt) == gap - bottomThickness / 2.0
  {
  }

  /** The script's outcome: the nine volumes of the origin loop in its order,
      the final tags, the origin map, and the two shells and PMTs. */
  datatype Scene = Scene(
    pvs: seq<PhysicalVolume>, tags: ActiveDetectors, origins: Option<map<string, Origin>>,
    begeShell: PenShell, coaxShell: PenShell, begePmt: Pmt, coaxPmt: Pmt)

  /** The reassignments after the PMTs are placed, in script order. The
      last one tags the argon's logical volume. */
  function FinalTags(tags: ActiveDetectors): ActiveDetectors {
    tags["BEGe_pv" := DetectorInfo("germanium", 1, MetaOf(Bege()))]
        ["Coax_pv" := DetectorInfo("germanium", 2, MetaOf(Coax()))]
        ["PEN_BEGe_wall_pv" := DetectorInfo("scintillator", 3, NameMeta("PEN_BEGe_wall"))]
        ["PEN_Coax_wall_pv" := DetectorInfo("scintillator", 5, NameMeta("PEN_Coax_wall"))]
        ["PEN_BEGe_bottom_pv" := DetectorInfo("scintillator", 4, NameMeta("PEN_BEGe_bottom"))]
        ["PEN_Coax_bottom_pv" := DetectorInfo("scintillator", 6, NameMeta("PEN_Coax_bottom"))]
        ["PMT_BEGe_pv" := DetectorInfo("optical", 7, NameMeta("PMT_BEGe"))]
        ["PMT_Coax_pv" := DetectorInfo("optical", 8, NameMeta("PMT_Coax"))]
        ["LAr_lv" := DetectorInfo("scintillator", 9, NameMeta("LAr"))]
  }

  /** The two shells and PMTs, built in script order from no tags. */
  datatype Built = Built(begeShell: PenShell, coaxShell: PenShell, begePmt: Pmt, coaxPmt: Pmt)

  function Build(): Built {
    var begeShell := CreatePenWithBottom(map[], Bege(), BegePos, "PEN_BEGe", 3, Margin, WallThickness, BottomThickness);
    var coaxShell := CreatePenWithBottom(begeShell.tags, Coax(), CoaxPos, "PEN_Coax", 4, Margin, WallThickness, BottomThickness);
    var begePmt := CreatePmtUnderPen(coaxShell.tags, BegePos, begeShell.bottomZ, "PMT_BEGe", 5, PmtGap);
    var coaxPmt := CreatePmtUnderPen(begePmt.tags, CoaxPos, coaxShell.bottomZ, "PMT_Coax", 6, PmtGap);
    Built(begeShell, coaxShell, begePmt, coaxPmt)
  }

  /** The nine volumes of the origin loop, in its order. */
  function OriginLoop(b: Built): seq<PhysicalVolume> {
    [PhysicalVolume("BEGe_pv", "BEGe_L", "LAr_lv", Origin3, BegePos),
     PhysicalVolume("Coax_pv", "Coax_L", "LAr_lv", Origin3, CoaxPos),
     b.begeShell.wall, b.begeShell.bottom, b.coaxShell.wall, b.coaxShell.bottom,
     b.begePmt.pv, b.coaxPmt.pv,
     PhysicalVolume("LAr_pv", "LAr_lv", "World_lv", Origin3, Origin3)]
  }

  /** The whole script, from an empty registry. */
  function Script(): Scene {
    var b := Build();
    Scene(OriginLoop(b), FinalTags(b.coaxPmt.tags), RegisterOrigins(None, ByOwnName(OriginLoop(b))),
          b.begeShell, b.coaxShell, b.begePmt, b.coaxPmt)
  }

  /** The names of the nine volumes, in the order of the origin loop. */
  const OriginNames: seq<string> := [
    "BEGe_pv", "Coax_pv", "PEN_BEGe_wall_pv", "PEN_BEGe_bottom_pv",
    "PEN_Coax_wall_pv", "PEN_Coax_bottom_pv", "PMT_BEGe_pv", "PMT_Coax_pv", "LAr_pv"]

  /** The names the final reassignments tag. */
  const TaggedNames: set<string> := {
    "BEGe_pv", "Coax_pv", "PEN_BEGe_wall_pv", "PEN_Coax_wall_pv", "PEN_BEGe_bottom_pv",
    "PEN_Coax_bottom_pv", "PMT_BEGe_pv", "PMT_Coax_pv", "LAr_lv"}

  /** The names the helpers derive from the script's prefixes. */
  lemma PartNames()
    ensures "PEN_BEGe" + "_wall_pv" == "PEN_BEGe_wall_pv" && "PEN_BEGe" + "_bottom_pv" == "PEN_BEGe_bottom_pv"
    ensures "PEN_Coax" + "_wall_pv" == "PEN_Coax_wall_pv" && "PEN_Coax" + "_bottom_pv" == "PEN_Coax_bottom_pv"
    ensures "PMT_BEGe" + "_pv" == "PMT_BEGe_pv" && "PMT_Coax" + "_pv" == "PMT_Coax_pv"
  {
  }

  /** The helpers tag only the walls and the PMTs, all of which the final
      reassignments tag again. */
  lemma BuiltTags()
    ensures Build().coaxPmt.tags.Keys == {"PEN_BEGe_wall_pv", "PEN_Coax_wall_pv", "PMT_BEGe_pv", "PMT_Coax_pv"}
    ensures Build().coaxPmt.tags.Keys <= TaggedNames
  {
    PartNames();
  }

  /** The reassignments overwrite every earlier tag of those volumes. */
  lemma FinalTagsOverwrite(t: ActiveDetectors)
    requires t.Keys <= TaggedNames
    ensures FinalTags(t) == FinalTags(map[])
  {
    assert FinalTags(t).Keys == TaggedNames;
  }

  /** The tagged names in the order of their final identifiers. */
  const NamesById: seq<string> := [
    "BEGe_pv", "Coax_pv", "PEN_BEGe_wall_pv", "PEN_BEGe_bottom_pv", "PEN_Coax_wall_pv",
    "PEN_Coax_bottom_pv", "PMT_BEGe_pv", "PMT_Coax_pv", "LAr_lv"]

  /** Each volume's final identifier is its position in `NamesById`. */
  lemma FinalTagsById()
    ensures FinalTags(map[]).Keys == TaggedNames
    ensures forall k :: k in FinalTags(map[]) ==>
      1 <= FinalTags(map[])[k].uid <= 9 && NamesById[FinalTags(map[])[k].uid - 1] == k
  {
    var t := FinalTags(map[]);
    forall k | k in t ensures 1 <= t[k].uid <= 9 && NamesById[t[k].uid - 1] == k {
    }
  }

  /** The identifier each reassignment leaves. */
  lemma FinalUids()
    ensures var t := FinalTags(map[]);
            && t.Keys == TaggedNames
            && t["BEGe_pv"].uid == 1 && t["Coax_pv"].uid == 2
            && t["PEN_BEGe_wall_pv"].uid == 3 && t["PEN_Coax_wall_pv"].uid == 5
            && t["PEN_BEGe_bottom_pv"].uid == 4 && t["PEN_Coax_bottom_pv"].uid == 6
            && t["PMT_BEGe_pv"].uid == 7 && t["PMT_Coax_pv"].uid == 8 && t["LAr_lv"].uid == 9
  {
  }

  /** The script's final tags are those of the reassignments alone. */
  lemma ScriptTagsAreFinal()
    ensures Script().tags == FinalTags(map[])
  {
    BuiltTags();
    FinalTagsOverwrite(Build().coaxPmt.tags);
  }

  /** The nine tagged volumes end with the identifiers 1 to 9, last
      assignment winning, and no two share one. */
  lemma FinalIdentifiers()
    ensures var t := Script().tags;
            && t.Keys == TaggedNames
            && t["BEGe_pv"].uid == 1 && t["Coax_pv"].uid == 2
            && t["PEN_BEGe_wall_pv"].uid == 3 && t["PEN_Coax_wall_pv"].uid == 5
            && t["PEN_BEGe_bottom_pv"].uid == 4 && t["PEN_Coax_bottom_pv"].uid == 6
            && t["PMT_BEGe_pv"].uid == 7 && t["PMT_Coax_pv"].uid == 8 && t["LAr_lv"].uid == 9
            && DistinctIds(t)
  {
    ScriptTagsAreFinal();
    FinalUids();
    FinalTagsById();
    var t := FinalTags(map[]);
    forall a, b | a in t && b in t && a != b ensures t[a].uid != t[b].uid {
      assert NamesById[t[a].uid - 1] == a && NamesById[t[b].uid - 1] == b;
    }
  }

  /** The origin loop registers nine distinct names, so the map has nine
      entries, one per placed volume, each holding that volume's position. */
  lemma NineOrigins()
    ensures var s := Script();
            && |s.pvs| == 9
            && (forall i :: 0 <= i < 9 ==> s.pvs[i].name == OriginNames[i])
            && s.origins.Some? && |s.origins.value| == 9
            && s.origins.value.Keys == RegisteredNames(ByOwnName(s.pvs))
            && forall i :: 0 <= i < 9 ==> s.origins.value[OriginNames[i]] == OriginOf(s.pvs[i])
  {
    var pvs := OriginLoop(Build());
    LoopNames();
    OriginsByName(pvs);
    assert Script().pvs == pvs && Script().origins == RegisterOrigins(None, ByOwnName(pvs));
  }

  /** The origin loop visits the volumes named in `OriginNames`, in order. */
  lemma LoopNames()
    ensures |OriginLoop(Build())| == 9
    ensures forall i :: 0 <= i < 9 ==> OriginLoop(Build())[i].name == OriginNames[i]
  {
    PartNames();
  }

  /** Registering nine volumes named as in `OriginNames`, each under its own
      name, gives nine entries, one per volume holding its position. */
  lemma OriginsByName(pvs: seq<PhysicalVolume>)
    requires |pvs| == 9 && forall i :: 0 <= i < 9 ==> pvs[i].name == OriginNames[i]
    ensures RegisterOrigins(None, ByOwnName(pvs)).Some?
    ensures |RegisterOrigins(None, ByOwnName(pvs)).value| == 9
    ensures RegisterOrigins(None, ByOwnName(pvs)).value.Keys == RegisteredNames(ByOwnName(pvs))
    ensures forall i :: 0 <= i < 9 ==> RegisterOrigins(None, ByOwnName(pvs)).value[OriginNames[i]] == OriginOf(pvs[i])
  {
    var regs := ByOwnName(pvs);
    assert forall i :: 0 <= i < 9 ==> regs[i].name == OriginNames[i];
    DistinctOrigins(regs);
  }

  /** With the script's numbers the PMTs are handed the plate centres, so
      each PMT's top face is 0.25 below its detector's centre and touches
      the plate's lower face: the 0.1 clearance the helper is meant to leave
      is taken up by the plate's own half thickness. */
  lemma PmtsTouchPlates()
    ensures var s := Script();
            && PmtTop(s.begePmt) == BegePos.z - 0.25 && PmtTop(s.coaxPmt) == CoaxPos.z - 0.25
            && PmtTop(s.begePmt) == s.begeShell.bottom.position.z - BottomThickness / 2.0
            && PmtTop(s.coaxPmt) == s.coaxShell.bottom.position.z - BottomThickness / 2.0
  {
  }
}
