# snap-generator in Dafny

snap-generator is a Fusion 360 add-in. It draws snap-fit joints: a
cantilever hook, a cantilever pin and a pin with prestrain that also gets an
addition body. This project models the part of the add-in that does not
depend on the host. It covers:

- the outline data every snap variant builds: point coordinates, line
  index pairs and arcs;
- the mirroring and quadrant-replication helpers used by the pins;
- the joint-origin offsets and the extrusion distances of the bodies;
- the schema check a snap runs on its parameter dictionary;
- the size-scaling functions of the pin commands;
- the input-validity rule chains of the two cantilever commands and their
  fallback profiles;
- the profile library: the check run on the profile JSON file, and the
  create, overwrite, make-default and delete buttons of the "Profiles" tab.

The modules follow the source files:

| module | source |
|---|---|
| `SnapSketch`, `SnapParameters`, `SnapBody`, `Cantilever`, `CantileverPin`, `ExperimentalPin` | lib/snaplib/geometry.py |
| `ProfileJson`, `ProfileLibrary` | lib/snaplib/control.py, commands/snap/control.py |
| `CantileverCommand` | commands/CantileverCommand.py |
| `CantileverPinCommand` | commands/CantileverPinCommand.py |
| `PinCommand` | commands/PinCommand.py, and `size_parameters` of commands/SimplePinCommand.py |
| `SimplePinCommand` | commands/SimplePinCommand.py |
| `PyDict`, `PyRound`, `Optional` | Python's `dict` and `round` |

Modelling choices:

- Python dictionaries are association lists in insertion order
  (`PyDict`). This matters because the checks report the first failing
  entry, and because `d[k] = v` keeps an existing key in its place and
  appends a new one.
- Numbers are reals. `round(x, n)` is Python's round-half-to-even on
  exact decimals. The contracts use its error bound, and the fact that
  rounding twice changes nothing.
- The trigonometric values are inputs (`SnapSketch.Trig`, `tanNose`).
- The two copies of `validate_json` differ, so both are modelled. They are
  proved to accept exactly the same files; they differ only in how they
  fail.
- The two copies of `ProfileModifier.notify` are the same code and are
  modelled once, as the class `ProfileLibrary.ProfileStore`.
- `size_parameters` is the same code in commands/PinCommand.py and
  commands/SimplePinCommand.py, and is modelled once in `PinCommand`.
- The simple pin command imports a class `Pin` that lib/snaplib/geometry.py
  does not define. The model takes it to be `ExperimentalPin`, the class there
  whose constructor takes the same arguments.
- `ExperimentalPin`'s schema names a gap parameter "gap_extrusion", but the
  simple pin command writes it as "extrusion_gap". The model keeps both names
  as written. `SimplePinCommand.CheckAssembled` proves that the pin's own
  parameter check stops at the missing "gap_extrusion".
- For thickness 4, arm 12 and strain 0.04, the code's nose-height formula
  `1.09 * strain * arm^2 / thickness` gives 1.5696
  (`SnapSketch.NoseHeightExample`).

## Model

| member | source | states |
|---|---|---|
| SnapSketch.MirrorPoints | lib/snaplib/geometry.py:277-292 | the mirroring loop produces each point mirrored across the axis, in order |
| SnapSketch.MirrorInvolution | lib/snaplib/geometry.py:277-292 | mirroring twice across the same axis gives the original list back |
| SnapSketch.MirrorFixesAxis | lib/snaplib/geometry.py:277-292 | a point is its own mirror image exactly when it lies on the mirror axis |
| SnapSketch.MirrorOtherAxis | lib/snaplib/geometry.py:277-292 | the length is kept, and an axis other than "x" or "y" copies the list unchanged |
| SnapSketch.QuadrantLayout | lib/snaplib/geometry.py:788-804 | the four quadrant copies are 4 times as long; copy k of point i sits at i + k·n with the signs of x and y flipped per quadrant |
| SnapSketch.ReplicateLines | lib/snaplib/geometry.py:806-814 | the loop over a snapshot of the base lines leaves the base followed by each pair shifted by stride·i for i = 1..copies |
| SnapSketch.ReplicatedLength | lib/snaplib/geometry.py:806-814 | the replicated list is (copies + 1) times as long and starts with the unchanged base |
| SnapSketch.ReplicatedAt | lib/snaplib/geometry.py:806-814 | the entry for base pair j and copy i is that pair shifted by i·stride |
| SnapSketch.CopiesInRange | lib/snaplib/geometry.py:806-814 | if every base index is below the stride, every shifted index is below (copies + 1)·stride, so every line names an existing point |
| SnapSketch.CopiesLength | lib/snaplib/geometry.py:806-814 | the shifted copies number copies per base pair |
| SnapSketch.CopiesAt | lib/snaplib/geometry.py:806-814 | the shifted copy of pair j for round i lies at j·copies + i − 1 |
| SnapSketch.CopiesAppend | lib/snaplib/geometry.py:806-814 | one more base pair appends its copies after the others |
| SnapSketch.ShiftCopiesPrefix | lib/snaplib/geometry.py:806-814 | the first i copies of a pair are extended by the (i+1)-th shift |
| SnapSketch.MirroredOutline | lib/snaplib/geometry.py:788-814 | the quadrant followed by its y mirror, then that half followed by its x mirror (four times the points), and the lines replicated three times, every line and arc naming an existing point |
| SnapSketch.NoseHeightAdditive | lib/snaplib/geometry.py:1106-1107 | the nose height is additive in the strain |
| SnapSketch.NoseHeightMonotone | lib/snaplib/geometry.py:616 | for a positive thickness the nose grows with the strain and with the arm length |
| SnapSketch.NoseHeightExample | lib/snaplib/geometry.py:616 | thickness 4, arm 12 and strain 0.04 give a nose 1.5696 high |
| SnapParameters.TestParameters | lib/snaplib/geometry.py:79-104 | a count mismatch is reported first and exactly when the counts differ; otherwise the first absent schema key; otherwise the first entry whose type is not allowed; it passes exactly when the counts and key sets agree and every value's type is allowed |
| SnapParameters.SubsetOfEqualSize | lib/snaplib/geometry.py:91-97 | a subset of equal size is the whole set, so equal counts and no missing key mean equal key sets |
| SnapParameters.SubsetCard | lib/snaplib/geometry.py:91-97 | a subset is no larger than its superset |
| SnapBody.CutSurroundsJoin | lib/snaplib/geometry.py:133-184 | whether the gap is in the cut body or not, the cut body starts one gap before and ends one gap after the join body, and is two gaps longer |
| SnapBody.AdditionSurroundsExtrusion | lib/snaplib/geometry.py:1177-1201 | the addition body runs from one wall thickness before 0 to one wall thickness past the extrusion distance |
| SnapBody.PinOffsetsMiddleIsMidway | lib/snaplib/geometry.py:919-951 | "middle" is midway between "top" and "bottom" on both axes; "top" and "bottom" are an extrusion distance and a width apart; z is 0 |
| SnapBody.PinOffsetsPlacement | lib/snaplib/geometry.py:935-947 | "bottom" places the origin at minus the extrusion gap, where the cut body starts, and half a width across; "top" at the extrusion distance less the gap and minus half a width; "middle" at half the distance less the gap and 0 across |
| SnapBody.PinOffsetsUnknownLocation | lib/snaplib/geometry.py:919-951 | a location name other than top, middle and bottom leaves the offsets at 0 |
| Cantilever.ParameterSchema | lib/snaplib/geometry.py:695-712 | 14 distinct names, the first 12 numeric and the last two the location strings |
| Cantilever.JoinSketch | lib/snaplib/geometry.py:599-641 | 12 points, the first at the origin, 8 lines all in range and chained, 2 arcs whose ends land on the points they join, points 6 and 7 equal, and a nose one nose height above the arm |
| Cantilever.CutSketch | lib/snaplib/geometry.py:643-692 | 8 points, no arcs, and lines that form the one cycle 0→1→…→7→0 |
| Cantilever.CutClearsJoin | lib/snaplib/geometry.py:599-692 | the hole outline clears the hook by the gap thickness, gap length and extra length at the matching points |
| Cantilever.Offsets | lib/snaplib/geometry.py:714-741 | the z offset is always 0 |
| Cantilever.OffsetsPlacement | lib/snaplib/geometry.py:727-741 | along the extrusion "top" is the extrusion distance and "middle" half of it; "bottom" on both axes is the origin; across it "top" lowers the part by the bottom radius rise plus the thickness and "middle" by half of that |
| Cantilever.OffsetsUnknownLocation | lib/snaplib/geometry.py:719-741 | a location name other than top, middle and bottom leaves that offset at 0 |
| Cantilever.OffsetsMiddleIsMidway | lib/snaplib/geometry.py:714-741 | the middle placement is midway between top and bottom along the extrusion and half of the top placement across it |
| Cantilever.TopOffsetIsArmTop | lib/snaplib/geometry.py:714-741 | the top placement moves the origin to the top edge of the hook's arm |
| Cantilever.BodiesOfCantilever | lib/snaplib/geometry.py:15-17 | with the gap in the cut body, the join body is the bare extrusion and the cut body is two gaps longer, starting one gap early |
| CantileverPin.ParameterSchema | lib/snaplib/geometry.py:899-917 | 15 distinct names, the first 13 numeric and the last two the location strings |
| CantileverPin.JoinQuadrant | lib/snaplib/geometry.py:748-787 | the first-quadrant outline of the pin has 13 points |
| CantileverPin.JoinSketch | lib/snaplib/geometry.py:748-824 | the points are the four quadrant copies (52), the lines the base replicated three times (36, all in range), and four arcs with sweeps −θ, +θ, +θ, −θ around each quadrant's centre |
| CantileverPin.JoinArcsMeetArms | lib/snaplib/geometry.py:817-819 | each quadrant's arc, rotated from its start, ends on the arm point it joins |
| CantileverPin.JoinClosesAcrossAxes | lib/snaplib/geometry.py:772-796 | each quadrant's lines form a chain whose end points lie on the mirror axes, where the copies meet |
| CantileverPin.CutQuadrant | lib/snaplib/geometry.py:826-863 | the first-quadrant hole outline has 6 points |
| CantileverPin.CutSketch | lib/snaplib/geometry.py:826-896 | 24 points as four quadrant copies, 20 lines replicated three times, all in range, no arcs |
| CantileverPin.CutClosesAcrossAxes | lib/snaplib/geometry.py:826-896 | the hole chain of each quadrant starts and ends on the mirror axes |
| CantileverPin.HeadClearsHole | lib/snaplib/geometry.py:766-860 | the head's corners sit the gap length and gap thickness inside the hole's corners, and the nose rises one nose height |
| CantileverPin.BodiesOfPin | lib/snaplib/geometry.py:744-746 | with the gap taken from the join body, the join body is two gaps shorter and the cut body is the bare extrusion starting one gap early |
| ExperimentalPin.ParameterSchema | lib/snaplib/geometry.py:1395-1415 | 17 distinct names, numeric except the two location strings |
| ExperimentalPin.PrestrainIsNoseExcess | lib/snaplib/geometry.py:1106-1113 | the pin's nose exceeds the hole's recess by exactly the nose height of the prestrain |
| ExperimentalPin.JoinQuadrant | lib/snaplib/geometry.py:1072-1135 | the first-quadrant outline of the pin has 11 points |
| ExperimentalPin.JoinSketch | lib/snaplib/geometry.py:1072-1174 | 44 points as four quadrant copies, 32 lines replicated three times, all in range, and no arcs |
| ExperimentalPin.JoinCloses | lib/snaplib/geometry.py:1072-1174 | the quadrant's lines form one chain from the x axis to the y axis, so the four copies meet on the axes |
| ExperimentalPin.JoinLegSlope | lib/snaplib/geometry.py:1072-1174 | the head's inner edge continues the leg's inner slope |
| ExperimentalPin.JoinNoseFace | lib/snaplib/geometry.py:1072-1174 | the nose face rises at the nose angle |
| ExperimentalPin.CutQuadrant | lib/snaplib/geometry.py:1281-1317 | the first-quadrant hole outline has 7 points |
| ExperimentalPin.CutSketch | lib/snaplib/geometry.py:1281-1350 | 28 points as four quadrant copies, 20 lines replicated three times, all in range, no arcs |
| ExperimentalPin.CutShape | lib/snaplib/geometry.py:1281-1350 | the hole chain runs from axis to axis; its recess face rises at the nose angle; and the pin nose overlaps the hole's recess by the prestrain's nose height less the width gap (the join quadrant is built at geometry.py:1072-1133) |
| ExperimentalPin.AdditionHalf | lib/snaplib/geometry.py:1204-1245 | half of the addition outline has 6 points |
| ExperimentalPin.AdditionSketch | lib/snaplib/geometry.py:1204-1278 | the half and its y-mirror only (12 points), the lines shifted once by 6 (10 lines), all in range, no arcs |
| ExperimentalPin.AdditionShape | lib/snaplib/geometry.py:1204-1350 | the addition outline closes across the axis; on its side faces it stands one wall thickness outside the hole; at the far end the hole runs 0.15·length past the addition |
| ExperimentalPin.BodiesOfPin | lib/snaplib/geometry.py:421-472 | with the gap taken from the join body (`gap_in_cut_body = False`, geometry.py:956) the join body is two gaps shorter than the extrusion distance; when the gap is no larger than the wall, the cut body lies inside the addition body of geometry.py:1177-1201 |
| ProfileJson.FirstNonNumberNone | lib/snaplib/control.py:531-536 | no entry is reported exactly when every value is an int or a float |
| ProfileJson.ScanGroupClean | lib/snaplib/control.py:526-546 | the loop over a group runs to the end exactly when every profile has the right count and only numbers |
| ProfileJson.ScanProfilesValid | lib/snaplib/control.py:526-548 | both loops pass exactly when both groups are valid |
| ProfileJson.FoundProfileNotNull | lib/snaplib/control.py:506-508 | a name found in a valid group names an object, never null |
| ProfileJson.ValidateJsonAcceptsWellFormed | lib/snaplib/control.py:477-548 | the check returns True exactly for files with the four top-level keys in order, both defaults naming a profile, and every profile of the right size with only numbers |
| ProfileJson.ValidateJsonLegacyAcceptsWellFormed | commands/snap/control.py:508-563 | the older check accepts exactly the same well-formed files |
| ProfileJson.VersionsAcceptTheSameFiles | commands/snap/control.py:518-539 | both versions accept the same files |
| ProfileJson.NullDefaultDocFields | lib/snaplib/control.py:487-508 | the example file with a null default profile has the expected top-level entries |
| ProfileJson.NullDefaultProfile | lib/snaplib/control.py:505-509 | a default profile stored as null is reported as missing by the `get` version and crashes the older one |
| ProfileJson.TopLevelNotAnObject | lib/snaplib/control.py:487 | a top level that is not an object crashes both versions |
| ProfileJson.DefaultLibraryWellFormed | commands/CantileverCommand.py:208-230 | a library holding one numeric profile and one numeric gap profile, both named "default" and both the default, is well formed |
| ProfileJson.NumberInAt | commands/CantileverCommand.py:208-230 | the number read for the n-th key of a profile is the number stored there |
| ProfileLibrary.Refill | lib/snaplib/control.py:121-127 | the saved profile has the template's keys in order, each within 0.0005 of its field |
| ProfileLibrary.FillPresent | lib/snaplib/control.py:194-200 | the saved gap profile has the template's keys that have a field, in order, each within 0.0005 of its field |
| ProfileLibrary.RefillIsRounded | lib/snaplib/control.py:121-127 | a saved profile is already at three-decimal precision |
| ProfileLibrary.SaveAfterSelectIsStable | lib/snaplib/control.py:88-154 | selecting a stored profile and saving it again from the filled fields leaves it unchanged |
| ProfileLibrary.ProfileStore.constructor | lib/snaplib/control.py:66-70 | the store starts with the given tables and defaults |
| ProfileLibrary.ProfileStore.CreateProfile | lib/snaplib/control.py:103-135 | a taken name is refused and changes nothing; otherwise one profile keyed like the first stored one is appended; nothing else changes and the default stays resolvable |
| ProfileLibrary.ProfileStore.ReadFields | lib/snaplib/control.py:121-127 | the loop builds the refilled profile, with distinct keys |
| ProfileLibrary.ProfileStore.OverwriteProfile | lib/snaplib/control.py:142-154 | the selected profile keeps its keys and order and takes the rounded field values; nothing else changes |
| ProfileLibrary.ProfileStore.Overwritten | lib/snaplib/control.py:151-154 | the overwrite loop yields the refilled profile |
| ProfileLibrary.RefillStep | lib/snaplib/control.py:151-154 | one assignment of the overwrite loop refills one more entry in place and keeps the keys distinct |
| ProfileLibrary.StoredDistinct | lib/snaplib/control.py:151-154 | the profile the overwrite loop works on has no repeated key |
| ProfileLibrary.ProfileStore.MakeProfileDefault | lib/snaplib/control.py:157-159 | only the default name changes, to the selected name |
| ProfileLibrary.ProfileStore.DeleteProfile | lib/snaplib/control.py:162-173 | the default profile is never removed; any other name is removed with every other entry kept in order |
| ProfileLibrary.ProfileStore.CreateGapProfile | lib/snaplib/control.py:176-206 | a taken name is refused; otherwise one gap profile of the template's present keys is appended |
| ProfileLibrary.ProfileStore.ReadPresentFields | lib/snaplib/control.py:194-200 | the loop builds the gap profile of present keys |
| ProfileLibrary.FillPresentStep | lib/snaplib/control.py:194-200 | each template key appends its rounded value when it has a field and is skipped otherwise, never repeating a key |
| ProfileLibrary.ProfileStore.OverwriteGapProfile | lib/snaplib/control.py:209-223 | the selected gap profile keeps its keys and takes the rounded field values |
| ProfileLibrary.ProfileStore.MakeGapProfileDefault | lib/snaplib/control.py:226-228 | only the default gap name changes |
| ProfileLibrary.ProfileStore.DeleteGapProfile | lib/snaplib/control.py:232-238 | the entry is removed even when it is the default, and the default is then unset |
| CantileverCommand.Verdict | commands/CantileverCommand.py:120-148 | no verdict exactly when no rule fails; otherwise the first failing rule in the order length, top radius, bottom radius, strain, thickness, extrusion distance, nose angle, extra length |
| CantileverCommand.GapSizesUnchecked | commands/CantileverCommand.py:115-117 | the three gap sizes never change the verdict |
| CantileverCommand.NoUpperNoseAngle | commands/CantileverCommand.py:138 | a larger nose angle never makes valid inputs invalid |
| CantileverCommand.FallbackJsonIsValid | commands/CantileverCommand.py:208-230 | the fallback library passes the file check |
| CantileverCommand.FallbackValues | commands/CantileverCommand.py:208-230 | the fallback profiles give exactly the fallback inputs |
| CantileverCommand.InputsFromNumbers | commands/CantileverCommand.py:108-118 | when a profile and a gap profile hold all eleven values as numbers, the values the command reads back by id are exactly those numbers |
| CantileverCommand.FallbackInputsAreValid | commands/CantileverCommand.py:208-230 | the fallback profiles give inputs that no rule rejects |
| CantileverPinCommand.Floored | commands/CantileverPinCommand.py:89-90 | the size is raised to at least 0.3 and a size above 0.3 is kept |
| CantileverPinCommand.AdvancedParams | commands/CantileverPinCommand.py:84-134 | width and extrusion distance are the floored size, length is width·ratio, nose angle 70; middle padding is the unrounded thickness; the rounded values are within 0.00005 of theirs |
| CantileverPinCommand.InnerRadiusBounds | commands/CantileverPinCommand.py:98-107 | the inner radius lies in [0.05, 0.15] and never decreases with the size |
| CantileverPinCommand.GapBufferBounds | commands/CantileverPinCommand.py:98-107 | the clearance lies in [0.03, 0.05] and never decreases with the size |
| CantileverPinCommand.AdvancedParamsContinuous | commands/CantileverPinCommand.py:98-107 | neither value jumps: a size change d moves the radius by at most d/5 and the clearance by at most d/25 |
| CantileverPinCommand.ThicknessAtLeastFloorValue | commands/CantileverPinCommand.py:110-111 | the unrounded thickness is at least 0.07 for every size |
| CantileverPinCommand.AfterSizeChange | commands/CantileverPinCommand.py:226-239 | changing the size rewrites only the size-derived fields; strain and gaps stay |
| CantileverPinCommand.Verdict | commands/CantileverPinCommand.py:161-199 | no verdict exactly when no rule fails; otherwise the first failing rule in the source's order, with middle_flat = width/2 − thickness − inner radius − gap thickness |
| CantileverPinCommand.FloorSizeRejected | commands/CantileverPinCommand.py:89-169 | a size at or below the floor becomes width 0.3, which the width rule rejects |
| CantileverPinCommand.SizeAboveFloorAccepted | commands/CantileverPinCommand.py:89-199 | a size above the floor passes every rule when strain and extra length are non-negative and the gap thickness is small |
| CantileverPinCommand.FallbackJsonIsWellFormed | commands/CantileverPinCommand.py:299-323 | the fallback library is well formed |
| CantileverPinCommand.InputsFromNumbers | commands/CantileverPinCommand.py:146-159 | when a profile and a gap profile hold all thirteen values as numbers, the values the command reads back by id are exactly those numbers |
| CantileverPinCommand.FallbackValues | commands/CantileverPinCommand.py:299-323 | the fallback profiles give exactly the fallback inputs |
| CantileverPinCommand.FallbackInputsAreValid | commands/CantileverPinCommand.py:161-199 | the fallback profiles give middle_flat 0.035 and inputs that no rule rejects |
| PinCommand.GapBufferBounds | commands/PinCommand.py:223-235 | the clearance lies in [0, 0.08] and is 0 when the size is not positive |
| PinCommand.GapBufferContinuous | commands/PinCommand.py:226-235 | on either side of 1 the clearance never decreases and moves by at most a tenth of the size change |
| PinCommand.GapBufferDropsAfterOne | commands/PinCommand.py:228-231 | the clearance is 0.058 at 1 and drops to 0.05 + 0.06·(s − 1) just above, so it is not monotone |
| PinCommand.SizeParameters | commands/PinCommand.py:205-255 | width and extrusion distance are the size, length is size·ratio; middle padding is the unrounded thickness; thickness, ledge, clearance and wall thickness are within 0.00005 of their exact values |
| PinCommand.ThicknessPositive | commands/PinCommand.py:226-238 | for every positive size the unrounded thickness is positive |
| PinCommand.AsDict | commands/PinCommand.py:244-253 | the returned dictionary has exactly the eight size keys, distinct and in order |
| SimplePinCommand.HardcodedAppends | commands/SimplePinCommand.py:64-67 | into a dictionary without the three hardcoded names, the three assignments append them in order |
| SimplePinCommand.SizeValuesAppend | commands/SimplePinCommand.py:64-67 | strain, nose angle and prestrain are appended after the eight size values |
| SimplePinCommand.SizeValuesKeys | commands/SimplePinCommand.py:63-67 | the size-derived dictionary holds the eight size names and then the three hardcoded ones |
| SimplePinCommand.HardcodedAfterSizeKeys | commands/SimplePinCommand.py:64-67 | eight size entries followed by the hardcoded ones carry the names in writing order |
| SimplePinCommand.FieldsRead | commands/SimplePinCommand.py:74-77 | the gap fields before the count all exist in the dialog and the one at the count does not |
| SimplePinCommand.GapEntries | commands/SimplePinCommand.py:74-77 | one entry per gap field read |
| SimplePinCommand.KeyOrderFrom | commands/SimplePinCommand.py:55-77 | for any eleven values with the size and hardcoded names, the names follow the writing order |
| SimplePinCommand.AssembledKeyOrder | commands/SimplePinCommand.py:55-77 | the dictionary's names follow the writing order of the 17 possible names |
| SimplePinCommand.AllKeysDistinct | commands/SimplePinCommand.py:55-77 | the 17 names written are pairwise distinct |
| SimplePinCommand.AssembledDistinct | commands/SimplePinCommand.py:55-77 | no name is written twice |
| SimplePinCommand.AssembleParameters | commands/SimplePinCommand.py:55-80 | the assembly loops build the locations, the size and hardcoded values and the gap fields up to the first missing one |
| SimplePinCommand.AssembleFrom | commands/SimplePinCommand.py:55-77 | the assignments, one entry at a time, build the locations, the given values and the gap fields up to the first missing one |
| SimplePinCommand.AssembledFixedValues | commands/SimplePinCommand.py:35-40 | the locations are "middle", strain and prestrain 0.012 and the nose angle 70 |
| SimplePinCommand.AssembledSizeValues | commands/SimplePinCommand.py:64-71 | each size-derived value reaches the dictionary unchanged |
| SimplePinCommand.GapValuesFrom | commands/SimplePinCommand.py:72-80 | for any eleven values with the size and hardcoded names, the gap fields read carry the dialog's values and the rest are absent |
| SimplePinCommand.AssembledGapValues | commands/SimplePinCommand.py:74-80 | the gap fields read carry the dialog's values and those after the first missing one are absent |
| SimplePinCommand.AllFieldsPresent | commands/SimplePinCommand.py:74-77 | with all four gap fields present all 17 names are written and no other |
| SimplePinCommand.SchemaAgainstAllKeys | lib/snaplib/geometry.py:1395-1415 | the pin's schema names 12 of its first 13 parameters among the written names, but not "gap_extrusion" |
| SimplePinCommand.CheckAssembled | lib/snaplib/geometry.py:367-392 | with all gap fields present, the pin's parameter check of the assembled dictionary reports "gap_extrusion" missing |
| PyRound.RoundHalfEven | lib/snaplib/control.py:125 | Python's round to an integer: within one half, ties to even |
| PyRound.RoundHalfEvenInteger | lib/snaplib/control.py:125 | rounding an integer gives it back |
| PyRound.Round3 | lib/snaplib/control.py:125 | `round(x, 3)` is within 0.0005 of x |
| PyRound.Round4 | commands/PinCommand.py:237-241 | `round(x, 4)` is within 0.00005 of x |
| PyRound.Round3Idempotent | lib/snaplib/control.py:125 | rounding an already rounded value to three places changes nothing |
| PyRound.Round4Idempotent | commands/PinCommand.py:237-241 | rounding an already rounded value to four places changes nothing |

## Left out

- The Fusion 360 API: sketches, extrusions, joint origins, joints, combine and cut features, preview lines and timeline groups. This includes `_draw_sketch`, `place`, `_perform_join`, `_perform_cut`, the constructors' orchestration, and each command's `build` apart from the parameter assembly. These are foreign calls whose behaviour is not visible.
- The GUI: dialog construction, dropdown reloads, `deleteMe` on the selected item, error-text visibility, clearing the new-name field, `ProfileSwitcher`, `ProfileSettings`, `GapProfileSettings`, `ProfileSection`, `ValueCommandSynchronizer` and `value_input`. The dialog's fields are a `map` or association list passed in.
- ProfileJson.Json: an object is a list of key/value pairs that may repeat a key. `json.load` never produces that, since the last duplicate's value wins at the first one's position. `WellFormed` and the two validators are therefore also stated for objects that cannot occur, and the model does not state the duplicate-key rule.
- Cantilever.JoinSketch, Cantilever.CutSketch, Cantilever.Nose, Cantilever.NoseX, the CantileverPin sketch and quadrant members, and ExperimentalPin.PinNose, HoleNose, LegSlope and its sketch and quadrant members require `thickness != 0`, `tanNose != 0` and, for the experimental pin, `length + lengthGap != 0`. On those inputs the source divides by zero (lib/snaplib/geometry.py:608, 616, 761, 768, 1099, 1101 and 1106-1107) and raises `ZeroDivisionError`. The model does not describe that error path. The preview and execute handlers' bare `except` reports it in a "Failed" message box. Only the cantilever command's validator rules a zero thickness out (commands/CantileverCommand.py:132 rejects thickness <= 0). The cantilever pin command has no thickness rule, and `size_parameters` with size 0 gives thickness 0.
- File input and output (`JsonUpdater`, loading the library on create, writing the fallback file) and logging.
- Floating point: numbers are reals. Trigonometric values are inputs and are not related to each other. `round` is exact decimal round-half-to-even.
- Exceptions caught by a handler's catch-all are modelled as the state left as it was at the point of the exception. The `ParameterException` a snap constructor catches and logs is modelled as the outcome of `SnapParameters.TestParameters`.
- ProfileLibrary.ProfileStore.CreateProfile: requires every template key to have a field. The partial insert that a missing field leaves behind is not modelled. The source re-inserts the same profile object on every loop iteration; the model inserts it once, with the same final state.
- ProfileLibrary.ProfileStore.OverwriteProfile: requires every key of the selected profile to have a field. A partial overwrite is not modelled.
- ProfileLibrary.ProfileStore.OverwriteGapProfile: requires every key of the selected profile to have a field, for the same reason.
- ProfileLibrary.Refill: profile values are reals, so the distinction between an int and a float value is lost once a profile is saved.
- The first `arcs` assignment of `ExperimentalPin`'s join outline is dead code; it is overwritten by the empty list.
- The cantilever commands' input-reading step is not modelled: a missing dialog input raises before any rule. `size` is not part of the pin command's inputs.
- PinCommand.SizeParameters: for a size that is not positive the source's clearance is the int 0, and the model makes it the real 0.
- PinCommand.AsDict: for the same sizes the dictionary holds that clearance as `Float(0.0)`, where the source holds the int 0.
- The simple pin command's `pos_parameters` loop never runs, because the list is reset to empty before it.
- The commands' `DEFAULT_SIZE` constants are used only by the GUI.
- SnapSketch.NoseHeightMonotone: positivity of the nose height is only implied for positive strain and thickness. The model does not show that the source's inputs meet those conditions.
