# Colour-coded mood bar, modelled in Dafny

ColorCodedMoodBar is a RimWorld mod. It replaces the routine that draws one colonist
slot of the colonist bar, `ColonistBarColonistDrawer.DrawColonist`, with a Harmony
prefix, `MoodPatch.Prefix`. The prefix always returns `false`, so the game's own routine
never runs. The slot is drawn in this order:

- the background, tinted white at the slot alpha;
- a mood fill bar, when the colonist has a mood need;
- the highlight outline;
- a selection overlay;
- the portrait;
- the status icons;
- the dead overlay;
- the name label.

The fill bar is drawn in the texture of one of six mood bands, chosen from the
colonist's mood level and mental break threshold. The slot alpha is the colonist bar's
alpha for the rectangle, with two adjustments:

- `ApplyEntryInAnotherMapAlphaFactor` caps it at 0.4 for a colonist shown away from the
  view it belongs to;
- it is halved while the bar is being reordered.

The project has these modules:

- `MoodBands` (`mood_bands.dfy`) is the band classifier, as pure functions.
- `Geometry` (`geometry.dfy`) holds the Unity value types the routine computes with.
  - `Rect` with `ExpandedBy`/`ContractedBy` as Verse defines them.
  - The `yMin` and `height` setters (`WithYMin`, `WithHeight`). The `yMin` setter keeps
    `yMax`.
  - `Color`.
- `Drawing` (`drawing.dfy`) is Unity's immediate-mode GUI, as a class `Gui`.
  - It holds the ambient tint `GUI.color` and the ambient font `Text.Font`.
  - It holds the log of draw calls issued so far. Each call records the tint it was
    drawn with.
  - The host draw primitives the routine calls are methods of `Gui`.
- `MoodPatch` (`mood_patch.dfy`) is the patch itself.
  - The alpha adjustment and the fill-bar geometry.
  - `SlotTrace`, the specification of every call one invocation issues.
  - The imperative `Prefix` method, proved to append exactly `SlotTrace` to the log and
    to leave the tint white and the font small.
- `MoodPatchProperties` (`mood_patch_properties.dfy`) proves what `SlotTrace` promises.
  - The layer order.
  - What each layer draws and when.
  - The tint of every call.
  - The bounds on the alpha.

The host's state is passed in as a value of `Host`: the current map, whether the world
view is showing, the two selections, the bar's alpha, scale and spacing, and the drawer's
portrait rectangle for the slot (`GetPawnTextureRect(rect.position)`).

## Model

| member | source | states |
|---|---|---|
| MoodBands.Classify | Source/ColoredMoodBar/HarmonyPatch.cs:108-137 | The band is the one at the first of the cut-points (threshold, threshold+0.15, threshold+0.3, 0.65, 0.9) that the mood level does not exceed, or Happy when it exceeds them all. Every input gets a band. |
| MoodBands.ClassifyIsFirstCut | Source/ColoredMoodBar/HarmonyPatch.cs:113-137 | A band is the classifier's answer if and only if it sits at the first cut-point not exceeded. |
| MoodBands.ClassifyMatchesIntervals | Source/ColoredMoodBar/HarmonyPatch.cs:113-137 | While threshold+0.3 <= 0.65, the six half-open intervals partition the levels, and the classifier picks the interval holding the level (both directions). |
| MoodBands.CutPointsBelongToLowerBand | Source/ColoredMoodBar/HarmonyPatch.cs:114-130 | A level equal to a cut-point gets the lower band (the comparisons are `<=`). A level above every cut-point is Happy. |
| MoodBands.ClassifyMonotone | Source/ColoredMoodBar/HarmonyPatch.cs:113-137 | For a fixed threshold, a higher mood level never gives a worse band. |
| MoodBands.NeutralNeedsLowThreshold | Source/ColoredMoodBar/HarmonyPatch.cs:122-128 | The Neutral band is reachable only when the break threshold is below 0.35, and then only for levels in (threshold+0.3, 0.65]. |
| MoodPatch.Min | Source/ColoredMoodBar/HarmonyPatch.cs:78 | `Mathf.Min` returns one of its arguments, and it is at most both. |
| MoodPatch.EntryInAnotherMapAlpha | Source/ColoredMoodBar/HarmonyPatch.cs:74-87 | The alpha is never raised. It is unchanged when the colonist is viewed in place (on the map on screen, or off every map while the world view shows). Otherwise it is capped at 0.4, and it is either the input or 0.4. |
| MoodPatch.SlotAlpha | Source/ColoredMoodBar/HarmonyPatch.cs:91-97 | Viewed in place, the slot alpha is the bar's alpha, halved while reordering. Otherwise it is exactly `Min(bar alpha, 0.4)`, halved while reordering, and so at most 0.4 (0.2 while reordering). |
| Geometry.Rect.ExpandedBy | Source/ColoredMoodBar/HarmonyPatch.cs:93 | Verse's `ExpandedBy` moves each of the four edges outward by the margin. |
| Geometry.Rect.ContractedBy | Source/ColoredMoodBar/HarmonyPatch.cs:102 | Verse's `ContractedBy` moves each of the four edges inward by the margin. |
| Geometry.ContractedByInverse | Source/ColoredMoodBar/HarmonyPatch.cs:146 | Contracting by a margin undoes expanding by it, and contracting by a negative margin is expanding by its opposite. |
| MoodPatch.Inset | Source/ColoredMoodBar/HarmonyPatch.cs:93-102 | Expanding by 2.5 and contracting by 2 moves every edge of the slot outward by 0.5. |
| MoodPatch.FillRect | Source/ColoredMoodBar/HarmonyPatch.cs:102-105 | The fill bar is as wide as the inset and shares the inset's bottom edge. Its height is the inset height times the mood percentage. |
| Geometry.Rect.WithYMin | Source/ColoredMoodBar/HarmonyPatch.cs:104 | Setting `yMin` moves the top edge and keeps the bottom edge and the horizontal extent. |
| Geometry.Rect.WithHeight | Source/ColoredMoodBar/HarmonyPatch.cs:105 | Setting `height` keeps the top edge and puts the bottom edge `height` below it. |
| MoodPatch.BoxThickness | Source/ColoredMoodBar/HarmonyPatch.cs:141 | The outline is 2 or 3 units thick. It is 3 exactly when the slot is wider than 22. |
| MoodPatch.SelectionRect | Source/ColoredMoodBar/HarmonyPatch.cs:146 | Contracting by -2×scale is expanding the slot by 2×scale on every side. |
| MoodPatch.SelectedOnMap | Source/ColoredMoodBar/HarmonyPatch.cs:147 | The map selector is asked about the colonist while it lives and about its corpse once it is dead. A dead colonist without a corpse is never selected on the map. |
| MoodPatch.DrawsPawnSelection | Source/ColoredMoodBar/HarmonyPatch.cs:148-149 | The map overlay is never drawn while the world view shows. |
| MoodPatch.DrawsCaravanSelection | Source/ColoredMoodBar/HarmonyPatch.cs:150-151 | The caravan overlay excludes the map overlay. It is drawn exactly when the world view shows and the colonist's caravan is selected there, so the `else` of line 150 adds no further condition. |
| MoodPatch.LabelPos | Source/ColoredMoodBar/HarmonyPatch.cs:161-162 | The label anchor is horizontally centred on the slot and 4×scale above its bottom edge. |
| MoodPatch.LabelWidth | Source/ColoredMoodBar/HarmonyPatch.cs:163 | The label may reach from the slot's left edge to 2 units short of the next slot's left edge (slot width + spacing − 2). |
| MoodPatch.SlotTrace | Source/ColoredMoodBar/HarmonyPatch.cs:98-165 | The calls of one slot: 4 that are always drawn (background, portrait, icons, label), plus one for a mood need, one when highlighted, one when a selection overlay applies and one when dead. The layer lemmas below state what each call is. |
| MoodPatch.Prefix | Source/ColoredMoodBar/HarmonyPatch.cs:89-168 | Returns `false`, so the host routine is skipped. Appends exactly `SlotTrace(call, host)` to the draw log. Leaves the tint opaque white and the font Small, whatever the host label routine left in them. |
| MoodPatch.DrawMoodFill | Source/ColoredMoodBar/HarmonyPatch.cs:101-139 | With a mood need, appends one band texture in `FillRect` in the ambient tint. Without one, appends nothing. |
| MoodPatch.DrawHighlight | Source/ColoredMoodBar/HarmonyPatch.cs:140-145 | When highlighted, appends the white outline. Leaves the slot tint as it found it. |
| MoodPatch.DrawSelection | Source/ColoredMoodBar/HarmonyPatch.cs:146-152 | Appends the map overlay, or else the caravan overlay, or nothing, as `SelectionOps` states. |
| MoodPatch.DrawPortraitAndIcons | Source/ColoredMoodBar/HarmonyPatch.cs:153-157 | Appends the portrait in the slot tint, then the icons at 80% alpha. Restores the slot tint. |
| MoodPatch.DrawDeadOverlay | Source/ColoredMoodBar/HarmonyPatch.cs:158-160 | Appends the dead overlay over the slot exactly when the colonist is dead. |
| MoodPatch.DrawNameLabel | Source/ColoredMoodBar/HarmonyPatch.cs:161-163 | Appends the name label at `LabelPos` with `LabelWidth`, the slot alpha and the Tiny font, in the slot tint. |
| Drawing.Gui.DrawPawnLabel | Source/ColoredMoodBar/HarmonyPatch.cs:163 | Appends the label call with the tint in effect. Promises nothing about the tint and font it leaves. |
| MoodPatchProperties.DrawOrder | Source/ColoredMoodBar/HarmonyPatch.cs:98-163 | The calls follow the layer order background, fill, highlight, selection, portrait, icons, dead overlay, label, strictly. So each layer is drawn at most once. |
| MoodPatchProperties.DepthAtLeastIndex | Source/ColoredMoodBar/HarmonyPatch.cs:98-163 | In a run of calls in layer order, the call at position i paints a layer at depth i or deeper. |
| MoodPatchProperties.AtMostOneCallPerLayer | Source/ColoredMoodBar/HarmonyPatch.cs:98-163 | A run of calls in layer order paints no layer twice and has at most eight calls, one per layer. With `DrawOrder`, this holds for every slot. |
| MoodPatchProperties.BackgroundFirstLabelLast | Source/ColoredMoodBar/HarmonyPatch.cs:100-163 | A slot has 4 to 8 calls. The first is the background over the slot in the slot tint. The last is the name label: centred, 4×scale above the bottom edge, slot width + spacing − 2 wide, Tiny font. |
| MoodPatchProperties.FillBarLayer | Source/ColoredMoodBar/HarmonyPatch.cs:101-139 | Without a mood need, no fill is drawn. With one, exactly one fill is drawn, in `FillRect` for the mood percentage, with the band texture of the mood level, in the slot tint. |
| MoodPatchProperties.HighlightLayer | Source/ColoredMoodBar/HarmonyPatch.cs:140-145 | An outline is drawn if and only if the slot is highlighted. It goes around the slot, is opaque white, and is 3 thick above width 22, else 2. |
| MoodPatchProperties.SelectionLayer | Source/ColoredMoodBar/HarmonyPatch.cs:146-152 | At most one selection overlay is drawn, over the slot expanded by 2×scale, in the slot tint. The map overlay is drawn when the colonist, or its corpse if dead, is selected and the map shows. Otherwise the caravan overlay is drawn when the world shows and its caravan is selected. Otherwise none. |
| MoodPatchProperties.PortraitLayer | Source/ColoredMoodBar/HarmonyPatch.cs:153 | The portrait is always drawn once, in the drawer's portrait rectangle, with zoom 1.28205, in the slot tint. |
| MoodPatchProperties.IconLayer | Source/ColoredMoodBar/HarmonyPatch.cs:155-157 | The status icons are always drawn once, over the slot, at 80% of the slot alpha. |
| MoodPatchProperties.DeadOverlayLayer | Source/ColoredMoodBar/HarmonyPatch.cs:158-160 | The dead overlay is drawn over the slot if and only if the colonist is dead. |
| MoodPatchProperties.AmbientTint | Source/ColoredMoodBar/HarmonyPatch.cs:98-163 | Every call is tinted white at the slot alpha, except the outline (opaque white) and the icons (80% of the slot alpha). |
| MoodPatchProperties.AlphaWithinBase | Source/ColoredMoodBar/HarmonyPatch.cs:74-97 | For a non-negative bar alpha, the slot alpha lies between 0 and the bar alpha. |
| MoodPatchProperties.ReorderingHalves | Source/ColoredMoodBar/HarmonyPatch.cs:95-97 | Reordering gives exactly half the alpha of the same slot without reordering. |
| MoodPatchProperties.AlphaMonotone | Source/ColoredMoodBar/HarmonyPatch.cs:74-97 | A larger bar alpha never gives a smaller slot alpha. |
| MoodPatchProperties.OtherMapDimmed | Source/ColoredMoodBar/HarmonyPatch.cs:82-97 | A named scenario of `SlotAlpha`'s contract: a colonist on another map, while the map view shows, is drawn at alpha 0.4 or less (0.2 or less while reordering). |

## Left out

- The `Main` static constructor (HarmonyPatch.cs lines 28-63) is not modelled. It registers the patch, looks up the host's private members by reflection and builds the six band textures. The model treats the textures as the tokens `BandTex(band)` and the reflected host members as `Gui` methods.
- `Main.LogMessage` is not modelled, because it only writes to the game log.
- The host routines are abstract: the selection overlays, `DrawIcons`, `GetPawnTextureRect`, `PortraitsCache.Get`, `Widgets.DrawBox` and `GenMapUI.DrawPawnLabel`. Each is one recorded draw call. The portrait rectangle is the input `Host.pawnTextureRect`, and the label cache is not modelled.
- The game state the routine reads is passed in as `Host` and is constant during one call. This covers `Find.CurrentMap`, `WorldRendererUtility.WorldRenderedNow`, the two selectors and the colonist bar's alpha, scale and spacing.
- Drawing.Gui.DrawBox, Drawing.Gui.DrawSelectionOverlay, Drawing.Gui.DrawCaravanSelectionOverlay, Drawing.Gui.DrawIcons: the model assumes these host routines leave `GUI.color` and `Text.Font` as they found them (they change only the draw log). The host code is not part of this model. The routine restores the tint after the outline and the icons (lines 144, 157), but not after a selection overlay (lines 149, 151 go straight to 153). So `MoodPatchProperties.PortraitLayer`, `MoodPatchProperties.DeadOverlayLayer`, `MoodPatchProperties.AmbientTint` and `MoodPatchProperties.BackgroundFirstLabelLast` (the portrait, dead overlay and label in the slot tint) hold only under this assumption.
- Drawing.Gui.DrawPawnLabel: its contract is weaker than the host routine. It does not state the tint and font the host leaves behind, because that code is not part of this model. `Prefix`'s final restore of white and Small is what the proof relies on.
- Arithmetic is over exact reals rather than 32-bit floats. Rounding in `alpha * 0.5`, `alpha * 0.8`, the rectangle arithmetic and the comparisons with 0.15, 0.3, 0.65 and 0.9 is not modelled.
- A missing needs tracker and a missing mood need both skip the fill bar, so both are `Pawn.mood == None`.
- `colonist.IsCaravanMember()` together with `GetCaravan()` is `Pawn.caravan`. A dead colonist without a corpse is never selected on the map (`Pawn.corpse == None`).

## Notes on the design

- The fill bar's height follows the code: it comes from the mood need's `CurLevelPercentage` (HarmonyPatch.cs line 103). The band comes from its `CurLevel` (line 110). The two are different quantities of the same need.
- The band cut-points are in increasing order only while the break threshold is below 0.35. From 0.35 on, the Minor band already reaches 0.65, and the Neutral band is empty (`MoodBands.NeutralNeedsLowThreshold`). The cascade still assigns every level exactly one band.
