# RemageTutorial geometry bookkeeping in Dafny

The repository is a set of Python scripts that build detector geometries
for the remage simulation: germanium (HPGe) detectors in liquid argon,
surrounded by PEN scintillator and read out by PMTs. A separate script merges
a registry converted from an STL mesh into the main registry. Almost all of
the work happens in foreign geometry and optics libraries. This project
models the logic the scripts carry out themselves:

- **The registry merge** (`stl2gdmlmerger.py`), in modules `Dicts`,
  `Registries`, `Materials`, `Defines` and `Merger`:
  - the two material-renaming passes, each with its logical-volume pass;
  - the define merge, which searches for a fresh key by appending `_stl`;
  - the material merge: append-if-absent, de-duplication by name, and
    re-attaching the PEN optical tables;
  - the left-biased merges of the solid, logical-volume and
    physical-volume dictionaries;
  - `find_logical_volume`;
  - the loop that places three tagged copies of the mesh's PEN volume.

  Python dictionaries are modelled as a map plus the order in which keys
  were first inserted (`Dicts.Dict`). The order matters because the define
  merge depends on it and the placement step picks the first key. Library
  objects are opaque records. A material carries an identity, and a
  logical volume refers to its material by that identity, so renaming
  through a volume renames the shared list entry.
- **The detector origins and tags** (`Detectors`):
  - `add_detector_origin`, an optional map that is created on first use and
    updated last-write-wins;
  - the `pygeom_active_detector` tag, a last-write-wins map from volume
    name to (category, identifier, metadata).
- **The placement arithmetic and registrations of each script**:
  - `OpticalTest` for `PENEncapsulationOpticalTest.py`;
  - `EncapsulationOptical` for `PENEncapsulationOptical.py`;
  - `Encapsulation` for `PENEncapsulation.py`;
  - `GeometryPen` for `GeometryPEN.py`;
  - `GeometryScript` for `Geometry.py`.

  Lengths are Dafny `real`s in the numbers the scripts write. `Hpge`
  holds the fields of the germanium metadata that the scripts read back.
  `Shapes` holds the solids as the numbers passed to them.

## Model

| member | source | states |
|---|---|---|
| Materials.RenameMatching | stl2gdmlmerger.py:86-89 | A renaming pass keeps the list's length and every material's identity and optical tables. It renames exactly the entries whose name matches and leaves every other entry unchanged. |
| Materials.ExactPassRemovesPen | stl2gdmlmerger.py:86-89 | After the first pass no material is named "PEN". Those that were are now "PEN_STL", and all others are unchanged. |
| Materials.AnyPassNormalises | stl2gdmlmerger.py:111-113 | After the second pass, a name contains "PEN" if and only if it is exactly "PEN_stl". Names without "PEN" are untouched. |
| Materials.RenameIdempotent | stl2gdmlmerger.py:111-113 | Running a renaming pass a second time changes nothing. |
| Materials.PassesCompose | stl2gdmlmerger.py:85-113 | The exact pass followed by the substring pass gives the same list as the substring pass alone, since "PEN_STL" contains "PEN". |
| Materials.ThroughVolumesSpec | stl2gdmlmerger.py:92-95 | The logical-volume pass renames exactly the list entries that are the material object of some visited volume and whose name matches, in any visiting order. Every other entry is unchanged. |
| Materials.VolumePassAfterMaterialPass | stl2gdmlmerger.py:116-118 | Once the list pass has run, the logical-volume pass that follows it renames nothing more. |
| Merger.StlRenamingIsSubstringPass | stl2gdmlmerger.py:85-118 | All four renaming loops together leave the mesh registry's material list as the substring pass alone would. |
| Defines.SuffixCount | stl2gdmlmerger.py:128-129 | The `_stl` search stops after the fewest suffixes that give a key not yet present. Every shorter candidate is taken. It terminates because the key grows while the key set is finite. |
| Defines.SuffixCountUnique | stl2gdmlmerger.py:128-129 | Only one suffix count is both free and minimal, so the search result is determined. |
| Defines.FreshDefineKey | stl2gdmlmerger.py:126-129 | The while loop returns a key not in the dictionary, equal to the name with the fewest `_stl` suffixes that make it fresh. |
| Defines.MergeDefineKeysPlaces | stl2gdmlmerger.py:125-131 | Each mesh define is appended in source order, under the fewest-suffix key free at its turn. Its `name` field is set to that key and its value is kept. |
| Defines.MergeDefines | stl2gdmlmerger.py:125-131 | The define merge never overwrites an existing define. It keeps the existing key order as a prefix, adds one key per mesh define, and stores each define under its fresh name with `name` equal to the key. |
| Defines.MergeDefinesCount | stl2gdmlmerger.py:125-133 | The merged define count is the main registry's count plus the mesh registry's count. |
| Materials.AppendAbsentIsKeepFirst | stl2gdmlmerger.py:137-139 | Appending each mesh material whose name is not yet in the growing list equals the old list followed by the first mesh material of each name that the old list lacks. |
| Materials.AppendAbsentSpec | stl2gdmlmerger.py:137-139 | After appending, the old list is a prefix and the names are the union. Every appended name was absent before. Distinct names stay distinct. |
| Materials.KeepFirst | stl2gdmlmerger.py:142-150 | Keeping first occurrences yields pairwise-distinct names and exactly the input names not already seen. The result is an order-preserving subsequence, and each kept entry is the first entry of its name. |
| Materials.Dedup | stl2gdmlmerger.py:142-150 | De-duplication yields distinct names and the same name set. The result is an order-preserving subsequence that keeps the first material of each name. |
| Materials.DedupIdentity | stl2gdmlmerger.py:142-150 | De-duplication leaves a list unchanged if and only if its names are already distinct. |
| Materials.ReattachPenOptics | stl2gdmlmerger.py:153-158 | Exactly the first material named "PEN" gets the optical tables. Without one, nothing changes. Names and identities are never changed. |
| Merger.MergeMaterials | stl2gdmlmerger.py:136-158 | The merged material list has distinct names, equal to the union of both lists' names. The first "PEN" carries the optical tables. When the main list's names were distinct, that list is kept as a prefix. |
| Dicts.Put | stl2gdmlmerger.py:131 | A dictionary store sets the value. An existing key keeps its place, and a new key goes last. |
| Dicts.MergeKeysKeys | stl2gdmlmerger.py:161-173 | The merge loop ends with exactly the keys of the destination plus the keys it visited. |
| Dicts.MergeKeysKeeps | stl2gdmlmerger.py:161-173 | The merge loop never overwrites a value already in the destination. |
| Dicts.MergeKeysTakes | stl2gdmlmerger.py:161-173 | Every visited key the destination lacked ends up holding the source's value for it. |
| Dicts.MergeAbsent | stl2gdmlmerger.py:161-173 | The solid, logical-volume and physical-volume merges are left-biased unions. The key set is the union, main-registry values are unchanged, mesh values fill only the new keys, and the existing key order is a prefix. |
| Dicts.MergeAbsentIsLeftUnion | stl2gdmlmerger.py:161-173 | The merged map is Dafny's map union with the main registry on the winning side. |
| Dicts.MergeAbsentSize | stl2gdmlmerger.py:175-178 | The reported count is the main registry's count plus the mesh keys it lacked. |
| Merger.MergeRegistries | stl2gdmlmerger.py:85-173 | The whole merge keeps the registry well formed. The define count adds up and existing defines are kept. Materials have distinct names: the main names plus the renamed mesh names. The first "PEN" is optical. The solid, logical-volume and physical-volume dictionaries are left-biased unions: their keys are the union, the main registry's values are kept, and each key only the mesh registry has holds the mesh registry's value. |
| Merger.FindLogicalVolume | stl2gdmlmerger.py:186-190 | The lookup succeeds if and only if the name is a key, and then returns its entry. Otherwise it fails with the not-found error for that name. |
| Text.DecimalInjective | stl2gdmlmerger.py:218 | Different indices render as different decimal strings. |
| Merger.CopyNamesDistinct | stl2gdmlmerger.py:218 | The copy names `PEN_stl_pv_i` are pairwise distinct. |
| Detectors.AttachIfAbsent | stl2gdmlmerger.py:228-236 | When the volume reports a tag, the tags are returned unchanged. Otherwise the volume gains exactly the given tag. Every other volume's tag is kept in both cases. |
| Merger.PlaceOne | stl2gdmlmerger.py:217-236 | One pass registers copy `n` under `PEN_stl_pv_n`, placing the PEN volume in the argon volume at the given position, unrotated. It tags that copy scintillator 100 named "PEN_stl" exactly when the fresh volume reports no tag, and leaves the tags alone when it does. Every other volume and tag is unchanged. |
| Merger.PlaceCopiesKeys | stl2gdmlmerger.py:217-236 | The placement loop adds exactly the copy names to the volume dictionary. It adds them to the tags when the fresh volumes report no tag, and leaves the tags as they were when they do. |
| Merger.PlaceCopiesVolumeKeys | stl2gdmlmerger.py:217-226 | The placement loop adds exactly the copy names to the volume dictionary. |
| Merger.PlaceCopiesTagKeys | stl2gdmlmerger.py:228-236 | When the fresh volumes report no tag, the placement loop adds exactly the copy names to the tags. |
| Merger.PlaceCopiesPreTagged | stl2gdmlmerger.py:228-236 | When the fresh volumes report a tag, the placement loop leaves the tags exactly as they were. |
| Merger.PlaceCopiesKeeps | stl2gdmlmerger.py:217-236 | The placement loop leaves the entry and tag of every other name unchanged. |
| Merger.PlaceCopiesPlaced | stl2gdmlmerger.py:217-226 | Copy `n` is registered under `PEN_stl_pv_n`. It places the chosen logical volume in the argon volume at its position in the list, unrotated. |
| Merger.PlaceCopiesTagged | stl2gdmlmerger.py:228-234 | When the fresh volumes report no tag, copy `n` ends up tagged scintillator 100 named "PEN_stl". |
| Merger.FirstThreeCopyNames | stl2gdmlmerger.py:211-218 | The three copies are named `PEN_stl_pv_0`, `PEN_stl_pv_1` and `PEN_stl_pv_2`. |
| Merger.PlaceThree | stl2gdmlmerger.py:211-236 | The three copies are placed at (0,0,60), (0,0,-90) and (0,0,0). The volume keys grow by exactly the three names and other volumes are kept. When the fresh volumes report no tag, the tag keys grow by exactly the three names and all three are tagged; when they report one, the tags are unchanged. |
| Merger.PlaceStlPen | stl2gdmlmerger.py:193-236 | Placement succeeds if and only if the mesh registry has a logical volume and the merged one has "LAr_lv" and "World_lv". The errors come in the script's order. On success the copies are placed and nothing else changes. They are tagged when the fresh volumes report no tag, and the tags are unchanged when they report one. |
| Merger.PlaceIntoMerged | stl2gdmlmerger.py:193-236 | Placing into a well-formed merged registry keeps it well formed, leaves its logical volumes alone and adds exactly the three copy names to its volumes. The script's tags are exactly the copies when the fresh volumes report no tag, and none when they report one. |
| Merger.MergeAndPlace | stl2gdmlmerger.py:124-236 | After the whole script, the tags the script sets are exactly the three copies' when the fresh volumes report no tag, and none when they report one. |
| Merger.MergeAndPlaceSucceeds | stl2gdmlmerger.py:186-200 | The script gets through the placement if and only if the mesh registry has a logical volume and the two registries together have "LAr_lv" and "World_lv". |
| Merger.MergeAndPlaceRegistry | stl2gdmlmerger.py:161-236 | On success the registry is well formed. Its volumes are both registries' volumes plus the three copies. |
| Detectors.AddDetectorOrigin | PENEncapsulationOpticalTest.py:32-39 | The origin map is created empty only when the registry has none, and an existing one is kept. The entry for the name holds position components 0, 1 and 2. Other names are unchanged. The helper is repeated verbatim at PENEncapsulationOptical.py:36-43, PENEncapsulation.py:19-26, GeometryPEN.py:18-25 and Geometry.py:10-17. |
| Detectors.OriginLastWriteWins | PENEncapsulation.py:22-26 | Registering a second volume under the same name replaces the first entry. |
| Detectors.OriginsCommute | GeometryPEN.py:21-25 | Registrations under different names do not interfere, so their order does not matter. |
| Detectors.RegisterOriginsKeys | Geometry.py:11-17 | A run of registrations adds exactly the registered names and leaves every other name's entry as it was. |
| Detectors.RegisterOriginsLastWins | PENEncapsulationOptical.py:39-43 | After a run of registrations, a name holds the position of the volume registered last under it. |
| Detectors.DistinctOrigins | PENEncapsulationOptical.py:204-205 | Registering volumes with distinct names on a registry with no origins gives one entry per volume, each holding that volume's position. |
| Detectors.SetActiveDetector | PENEncapsulationOpticalTest.py:310-334 | Setting a volume's tag replaces any earlier tag of that volume and leaves the others alone. |
| Hpge.MetaOfRoundTrip | PENEncapsulationOpticalTest.py:163-164 | Reading `geometry.height_in_mm` and `geometry.radius_in_mm` back from an attached metadata record gives its numbers. Different records give different dictionaries. The clause that `geometry.mass_in_g` reads as none is about this model's encoding: the record keeps only the fields the scripts read back, and the scripts never read that one. |
| OpticalTest.CreatePenWithBottom | PENEncapsulationOpticalTest.py:161-192 | Wall and plate sizing and placement. The inner radius exceeds the detector radius (mm/10) by `margin` and the outer radius adds `thickness`, so with both positive the radii are ordered. The height is 2·(height_mm/20 + margin). The centre puts the wall's lower rim at the detector z. The plate's top face is `margin/2` below the detector z, strictly below when `margin > 0`. Wall and plate keep the detector's x and y. The plate centre is returned. The wall is tagged scintillator with the prefix. |
| OpticalTest.CreatePmtUnderPen | PENEncapsulationOpticalTest.py:255-303 | The PMT's top face (centre + 0.25) lies exactly `gap` below the z it is given. It keeps the detector's x and y. Its Box is passed the half extents 2.54, 2.54 and 0.25, the script's `side_half` and `thickness / 2`. It is tagged optical. |
| OpticalTest.PmtUnderShell | PENEncapsulationOpticalTest.py:183-192 | A PMT given the returned plate centre has its top face at detector z − margin/2 − bottom_thickness/2 − gap. Its clearance from the plate's lower face is therefore gap − bottom_thickness/2. |
| OpticalTest.PmtsTouchPlates | PENEncapsulationOpticalTest.py:198-202 | With the script's numbers, each PMT top is 0.25 below its detector centre. It equals the plate centre minus `bottom_thickness / 2`, the half length the plate's Tubs is passed, so it lies at the plate's lower face. |
| OpticalTest.FinalUids | PENEncapsulationOpticalTest.py:310-334 | The reassignments leave BEGe_pv 1, Coax_pv 2, the walls 3 and 5, the bottoms 4 and 6, the PMTs 7 and 8, and LAr_lv 9. |
| OpticalTest.ScriptTagsAreFinal | PENEncapsulationOpticalTest.py:189-334 | The tags set inside the helpers (3, 4, 5, 6) are all overwritten by the final reassignments. |
| OpticalTest.FinalIdentifiers | PENEncapsulationOpticalTest.py:306-334 | After the whole script, exactly nine volumes are tagged, with pairwise-distinct identifiers 1 to 9 as reassigned last. |
| OpticalTest.NineOrigins | PENEncapsulationOpticalTest.py:340-344 | The origin loop registers nine distinct volume names in order. The map has nine entries, each holding that volume's position. |
| EncapsulationOptical.CreatePen | PENEncapsulationOptical.py:173-180 | The PEN cylinder's radius and half height exceed the detector's (in cm) by 0.2. It is placed at exactly the detector's position and tagged scintillator with the given identifier and `{"name", "material": "PEN"}`. |
| EncapsulationOptical.CreatePmt | PENEncapsulationOptical.py:188-196 | The PMT keeps the detector's x and y and sits 5 below its z. It is a 5.08 × 5.08 × 0.25 box tagged optical. |
| EncapsulationOptical.Identifiers | PENEncapsulationOptical.py:167-199 | Exactly the six placed volumes are tagged. The one at position i of the origin loop gets identifier i + 1, so all six are distinct. |
| EncapsulationOptical.Origins | PENEncapsulationOptical.py:204-205 | The origin map has exactly the six placed volume names, each holding that volume's position. |
| Encapsulation.PenAround | PENEncapsulation.py:116-127 | The PEN cylinder's radius is the detector radius + 2 and its half height is height/2 + 2. It is placed at the detector's own position. |
| Encapsulation.Retagging | PENEncapsulation.py:137-165 | Re-tagging keeps the four tagged volumes, the category "scintillator" and the identifiers 3 and 4 of the PEN cylinders. The detectors' tags are untouched. |
| Encapsulation.RetaggingReplacesRecords | PENEncapsulation.py:137-165 | The second tag of each PEN cylinder carries a different metadata record from the first. |
| Encapsulation.RetaggingIds | PENEncapsulation.py:137-165 | After re-tagging, the four identifiers are still pairwise distinct. |
| Encapsulation.Origins | PENEncapsulation.py:149-152 | The origin keys are exactly BEGe, Coax, PEN_BEGe and PEN_Coax. Each cylinder's origin equals its detector's. |
| GeometryPen.Identifiers | GeometryPEN.py:118-149 | The detectors are tagged 1 and 2 and the bowl 4 as "pen_scintillator". The identifiers are distinct. |
| GeometryPen.Origins | GeometryPEN.py:154-156 | The origin keys are exactly BEGe, Coax and PEN_Bowl, with positions (8,0,−3), (−5,0,−10) and (0,0,0). This is the map the script prints. |
| GeometryPen.BowlDimensions | GeometryPEN.py:124-146 | The bowl metadata's inner and outer radii are the solid's pRmin and pRmax. |
| GeometryScript.Identifiers | Geometry.py:87-126 | The detector identifiers 1, 2 and 3 are pairwise distinct. |
| GeometryScript.Origins | Geometry.py:141-143 | The origin keys are exactly BEGe, Coax and PlasticScint, each holding its volume's position. |
| GeometryScript.DimensionsMatchSolid | Geometry.py:98-131 | The recorded height of 30 is twice the half length 15 passed to the cylinder, and the recorded radius is its outer radius. |

## Left out

- Calls into the geometry, detector and optics libraries are opaque:
  - registry construction, solids, `make_hpge`, optical surfaces;
  - the `pyg4_*_attach_*` tables, which are modelled as one `optical` flag;
  - `RemageDetectorInfo` internals and `write_pygeom`;
  - how the library reads `lunit` and the extent conventions of `Tubs` and `Box`.
  Only the numbers the scripts compute are modelled.
- GDML reading and writing, the VTK viewers and every `print`.
- The registration side effects of creating a volume (the library's
  handling of duplicate names) are modelled as a plain dictionary store.
- `getattr(..., default)` for registries missing an attribute: the model's
  registry always has every dictionary and list.
- Object aliasing beyond one level. Define objects are modelled as values
  stored under their new key. A logical volume whose material is not in the
  material list renames nothing that the model sees.
- Metadata fields the scripts never read back (production, groove, taper
  and so on) are not kept. Sphere and tube angles (multiples of pi) are not
  kept either.
- Floating point is modelled as exact real arithmetic.
- The code inside string literals: the first definition of
  `create_pmt_under_pen` in PENEncapsulationOpticalTest.py and the
  commented-out blocks of stl2gdmlmerger.py.
- The source volumes and the world and argon solids of each script, which
  carry no tags or origins.
- Histogram.py (LH5 reading and plotting), LogicalVolume.py (a fragment with
  no logic of its own) and TestMaterialConstruction.py (library internals).
  None of these is part of this model.
- Merger.MergeAndPlace: whether a freshly built volume already has a
  `pygeom_active_detector` attribute is decided by the geometry library, so
  it is a parameter (`preTagged`). The tags that volumes carry in the GDML
  files are not modelled, so the contract covers only the tags the script
  sets.
- Merger.PlaceIntoMerged: starts from no tags for the same reason.
