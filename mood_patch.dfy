/**
 * The replacement for the colonist bar's per-slot draw routine: it dims the
 * slot when the colonist is not where the player is looking, draws the mood
 * fill bar in the colour of the colonist's mood band, and then redraws the
 * highlight, selection, portrait, icons, dead overlay and name label in the
 * host's order, leaving the ambient tint white and the font small.
 */
module MoodPatch {
  import opened Wrappers
  import opened Geometry
  import opened MoodBands
  import opened Drawing

  type MapId = nat

  /** A colonist's mood need: the raw level (which picks the band) and the fraction of the maximum (which sets the bar's height). */
  datatype Mood = Mood(curLevel: real, curLevelPercentage: real)

  /**
   * What the routine reads from the colonist. `mood` is `None` when the pawn
   * has no needs tracker or no mood need; `breakThreshold` is its mental break
   * threshold stat; `corpse` and `caravan` are null-able references.
   */
  datatype Pawn = Pawn(
    thing: ThingId,
    dead: bool,
    corpse: Option<ThingId>,
    mood: Option<Mood>,
    breakThreshold: real,
    caravan: Option<ThingId>)

  /** The arguments of the intercepted `DrawColonist(rect, colonist, pawnMap, highlight, reordering)`. */
  datatype DrawCall = DrawCall(
    rect: Rect,
    colonist: Pawn,
    pawnMap: Option<MapId>,
    highlight: bool,
    reordering: bool)

  /**
   * What the routine asks the game for during one call: the map on screen,
   * whether the world view is showing, the map and world selections, the
   * colonist bar's answers for this slot (its base alpha for `rect`, its zoom
   * scale and its horizontal spacing), and the drawer's portrait rectangle
   * for the slot (`GetPawnTextureRect(rect.position)`).
   */
  datatype Host = Host(
    currentMap: Option<MapId>,
    worldRenderedNow: bool,
    selectedObjects: set<ThingId>,
    worldSelectedObjects: set<ThingId>,
    entryRectAlpha: real,
    scale: real,
    spaceBetweenColonistsHorizontal: real,
    pawnTextureRect: Rect)

  /** Highest alpha of a colonist shown away from the view it belongs to. */
  const DimmedAlpha: real := 0.4
  /** Factor applied to the alpha while the bar is being reordered. */
  const ReorderingFactor: real := 0.5
  /** Factor applied to the alpha of the status icons. */
  const IconAlphaFactor: real := 0.8
  /** Zoom passed to the portrait cache. */
  const PortraitZoom: real := 1.28205
  /** Net margin of the fill bar's inset: expanded by 2.5, then contracted by 2. */
  const BackgroundExpansion: real := 2.5
  const FillContraction: real := 2.0
  /** Slot width above which the highlight outline is 3 units thick instead of 2. */
  const ThickBoxMinWidth: real := 22.0

  /** Unity's `Mathf.Min`. */
  function Min(a: real, b: real): (m: real)
    ensures m <= a && m <= b && (m == a || m == b)
  {
    if a < b then a else b
  }

  /**
   * The colonist is shown in the view it belongs to: on the map on screen
   * while the map is showing, or off every map while the world view is showing.
   */
  predicate ViewedInPlace(pawnMap: Option<MapId>, currentMap: Option<MapId>, worldRenderedNow: bool)
  {
    if worldRenderedNow then pawnMap.None? else pawnMap.Some? && pawnMap == currentMap
  }

  /**
   * `ApplyEntryInAnotherMapAlphaFactor`: caps the alpha at 0.4 unless the
   * colonist is viewed in place, and never raises it.
   */
  function EntryInAnotherMapAlpha(pawnMap: Option<MapId>, currentMap: Option<MapId>, worldRenderedNow: bool, alpha: real): (r: real)
    ensures r <= alpha
    ensures ViewedInPlace(pawnMap, currentMap, worldRenderedNow) ==> r == alpha
    ensures !ViewedInPlace(pawnMap, currentMap, worldRenderedNow) ==> r <= DimmedAlpha && (r == alpha || r == DimmedAlpha)
  {
    if pawnMap.None? then
      if !worldRenderedNow then Min(alpha, DimmedAlpha) else alpha
    else if pawnMap != currentMap || worldRenderedNow then
      Min(alpha, DimmedAlpha)
    else
      alpha
  }

  /** The alpha the whole slot is drawn with: the map adjustment, halved while reordering. */
  function SlotAlpha(call: DrawCall, host: Host): (a: real)
    ensures ViewedInPlace(call.pawnMap, host.currentMap, host.worldRenderedNow) ==>
      a == if call.reordering then host.entryRectAlpha / 2.0 else host.entryRectAlpha
    ensures !ViewedInPlace(call.pawnMap, host.currentMap, host.worldRenderedNow) ==>
      a == if call.reordering then Min(host.entryRectAlpha, DimmedAlpha) / 2.0 else Min(host.entryRectAlpha, DimmedAlpha)
    ensures !ViewedInPlace(call.pawnMap, host.currentMap, host.worldRenderedNow) ==>
      a <= if call.reordering then DimmedAlpha / 2.0 else DimmedAlpha
  {
    var alpha := EntryInAnotherMapAlpha(call.pawnMap, host.currentMap, host.worldRenderedNow, host.entryRectAlpha);
    if call.reordering then alpha * ReorderingFactor else alpha
  }

  /** The rectangle the fill bar grows in: the slot with every edge moved out by half a unit. */
  function Inset(slot: Rect): (r: Rect)
    ensures r.x == slot.x - 0.5 && r.XMax() == slot.XMax() + 0.5
    ensures r.YMin() == slot.YMin() - 0.5 && r.YMax() == slot.YMax() + 0.5
  {
    slot.ExpandedBy(BackgroundExpansion).ContractedBy(FillContraction)
  }

  /**
   * The mood fill bar: the bottom `fraction` of the inset rectangle, as wide
   * as the inset and anchored to its bottom edge.
   */
  function FillRect(slot: Rect, fraction: real): (r: Rect)
    ensures r.x == Inset(slot).x && r.width == Inset(slot).width
    ensures r.YMax() == Inset(slot).YMax()
    ensures r.height == Inset(slot).height * fraction
  {
    var inset := Inset(slot);
    var h := inset.height * fraction;
    inset.WithYMin(inset.YMax() - h).WithHeight(h)
  }

  /** Thickness of the highlight outline for a slot of the given width. */
  function BoxThickness(width: real): (t: int)
    ensures t == 2 || t == 3
    ensures t == 3 <==> width > ThickBoxMinWidth
  {
    if width > ThickBoxMinWidth then 3 else 2
  }

  /** The colonist, or its corpse when it is dead, is in the map selection. */
  predicate SelectedOnMap(colonist: Pawn, host: Host)
    ensures colonist.dead && colonist.corpse.None? ==> !SelectedOnMap(colonist, host)
  {
    if !colonist.dead then colonist.thing in host.selectedObjects
    else colonist.corpse.Some? && colonist.corpse.value in host.selectedObjects
  }

  /** The map selection overlay is drawn: selected, and the map is showing. */
  predicate DrawsPawnSelection(colonist: Pawn, host: Host)
    ensures host.worldRenderedNow ==> !DrawsPawnSelection(colonist, host)
  {
    SelectedOnMap(colonist, host) && !host.worldRenderedNow
  }

  /** The caravan selection overlay is drawn: the map overlay is not, the world is showing and the colonist's caravan is selected there. */
  predicate DrawsCaravanSelection(colonist: Pawn, host: Host)
    ensures DrawsCaravanSelection(colonist, host) ==> !DrawsPawnSelection(colonist, host)
    ensures DrawsCaravanSelection(colonist, host) <==>
      host.worldRenderedNow && colonist.caravan.Some? && colonist.caravan.value in host.worldSelectedObjects
  {
    && !DrawsPawnSelection(colonist, host)
    && host.worldRenderedNow
    && colonist.caravan.Some?
    && colonist.caravan.value in host.worldSelectedObjects
  }

  /** Where the selection overlay goes: the slot grown by twice the bar's scale on every side. */
  function SelectionRect(slot: Rect, scale: real): (r: Rect)
    ensures r == slot.ExpandedBy(2.0 * scale)
  {
    slot.ContractedBy(-2.0 * scale)
  }

  /** Where the name label is anchored: centred on the slot, `4 * scale` above its bottom edge. */
  function LabelPos(slot: Rect, scale: real): (p: Vec2)
    ensures p.x - slot.x == slot.XMax() - p.x
    ensures slot.YMax() - p.y == 4.0 * scale
  {
    Vec2(slot.Center().x, slot.YMax() - 4.0 * scale)
  }

  /** How wide the label may be before it is truncated. */
  function LabelWidth(slot: Rect, host: Host): (w: real)
    ensures slot.x + w == slot.XMax() + host.spaceBetweenColonistsHorizontal - 2.0
  {
    slot.width + host.spaceBetweenColonistsHorizontal - 2.0
  }

  // The draw calls of one slot, stage by stage.

  function FillOps(call: DrawCall, tint: Color): seq<DrawOp>
  {
    match call.colonist.mood
    case None => []
    case Some(mood) =>
      [Textured(FillRect(call.rect, mood.curLevelPercentage),
                BandTex(Classify(mood.curLevel, call.colonist.breakThreshold)), tint)]
  }

  function HighlightOps(call: DrawCall): seq<DrawOp>
  {
    if call.highlight then [BoxOutline(call.rect, BoxThickness(call.rect.width), White)] else []
  }

  function SelectionOps(call: DrawCall, host: Host, tint: Color): seq<DrawOp>
  {
    var overlay := SelectionRect(call.rect, host.scale);
    if DrawsPawnSelection(call.colonist, host) then
      [PawnSelection(call.colonist.thing, overlay, tint)]
    else if DrawsCaravanSelection(call.colonist, host) then
      [CaravanSelection(call.colonist.caravan.value, overlay, tint)]
    else []
  }

  function PortraitAndIconOps(call: DrawCall, host: Host, alpha: real): seq<DrawOp>
  {
    [Textured(host.pawnTextureRect, PortraitTex(call.colonist.thing, PortraitZoom), Tint(alpha)),
     StatusIcons(call.rect, call.colonist.thing, Tint(alpha * IconAlphaFactor))]
  }

  function LabelOps(call: DrawCall, host: Host, alpha: real): seq<DrawOp>
  {
    [Label(call.colonist.thing, LabelPos(call.rect, host.scale), alpha, LabelWidth(call.rect, host), Tiny, Tint(alpha))]
  }

  function DeadOps(call: DrawCall, tint: Color): seq<DrawOp>
  {
    if call.colonist.dead then [Textured(call.rect, DeadColonistTex, tint)] else []
  }

  /** Every draw call one invocation of the routine issues, in order, with the tint each is drawn with. */
  function SlotTrace(call: DrawCall, host: Host): (t: seq<DrawOp>)
    ensures |t| == 4 + (if call.colonist.mood.Some? then 1 else 0) + (if call.highlight then 1 else 0)
      + (if DrawsPawnSelection(call.colonist, host) || DrawsCaravanSelection(call.colonist, host) then 1 else 0)
      + (if call.colonist.dead then 1 else 0)
  {
    var alpha := SlotAlpha(call, host);
    var tint := Tint(alpha);
    [Textured(call.rect, BackgroundTex, tint)]
    + FillOps(call, tint)
    + HighlightOps(call)
    + SelectionOps(call, host, tint)
    + PortraitAndIconOps(call, host, alpha)
    + DeadOps(call, tint)
    + LabelOps(call, host, alpha)
  }

  /**
   * `MoodPatch.Prefix`: draws one colonist slot in place of the host routine,
   * whatever tint and font it finds, and tells Harmony not to run the
   * original (`false`). The draw calls it appends are `SlotTrace`; it leaves
   * the tint opaque white and the font small.
   */
  method Prefix(gui: Gui, call: DrawCall, host: Host) returns (runOriginal: bool)
    modifies gui
    ensures !runOriginal
    ensures gui.log == old(gui.log) + SlotTrace(call, host)
    ensures gui.color == White && gui.font == Small
  {
    var rect, colonist := call.rect, call.colonist;
    var alpha := EntryInAnotherMapAlpha(call.pawnMap, host.currentMap, host.worldRenderedNow, host.entryRectAlpha);
    if call.reordering {
      alpha := alpha * ReorderingFactor;
    }
    var color := Tint(alpha);
    gui.SetColor(color);
    gui.DrawTexture(rect, BackgroundTex);
    // `drawn` is what this call has appended so far; extending it one block at a
    // time keeps each step's sequence equation small for the solver.
    ghost var drawn := [Textured(rect, BackgroundTex, color)];
    DrawMoodFill(gui, call);
    AppendAssoc(old(gui.log), drawn, FillOps(call, color));
    drawn := drawn + FillOps(call, color);
    DrawHighlight(gui, call, color);
    AppendAssoc(old(gui.log), drawn, HighlightOps(call));
    drawn := drawn + HighlightOps(call);
    DrawSelection(gui, call, host);
    AppendAssoc(old(gui.log), drawn, SelectionOps(call, host, color));
    drawn := drawn + SelectionOps(call, host, color);
    DrawPortraitAndIcons(gui, call, host, alpha);
    AppendAssoc(old(gui.log), drawn, PortraitAndIconOps(call, host, alpha));
    drawn := drawn + PortraitAndIconOps(call, host, alpha);
    DrawDeadOverlay(gui, call);
    AppendAssoc(old(gui.log), drawn, DeadOps(call, color));
    drawn := drawn + DeadOps(call, color);
    DrawNameLabel(gui, call, host, alpha);
    AppendAssoc(old(gui.log), drawn, LabelOps(call, host, alpha));
    drawn := drawn + LabelOps(call, host, alpha);
    assert alpha == SlotAlpha(call, host);
    gui.SetFont(Small);
    gui.SetColor(White);
    return false;
  }

  /** Concatenation is associative; stated once so that the draw log can be extended block by block. */
  lemma AppendAssoc<T>(a: seq<T>, b: seq<T>, c: seq<T>)
    ensures a + b + c == a + (b + c)
  {
  }

  /**
   * The fill bar block of `Prefix`: when the colonist has a mood need, the
   * inset rectangle is cut down in place to the bottom fraction given by the
   * mood percentage and the band texture for the mood level is drawn into it.
   */
  method DrawMoodFill(gui: Gui, call: DrawCall)
    modifies gui`log
    ensures gui.log == old(gui.log) + FillOps(call, gui.color)
  {
    var colonist := call.colonist;
    if colonist.mood.Some? {
      var mood := colonist.mood.value;
      var pawnBackgroundSize := call.rect.ExpandedBy(BackgroundExpansion);
      var position := pawnBackgroundSize.ContractedBy(FillContraction);
      var value := position.height * mood.curLevelPercentage;
      position := position.WithYMin(position.YMax() - value);
      position := position.WithHeight(value);
      var band := Classify(mood.curLevel, colonist.breakThreshold);
      assert position == FillRect(call.rect, mood.curLevelPercentage);
      gui.DrawTexture(position, BandTex(band));
    }
  }

  /** The highlight block of `Prefix`: an opaque white outline, then the slot tint again. */
  method DrawHighlight(gui: Gui, call: DrawCall, color: Color)
    requires gui.color == color
    modifies gui`log, gui`color
    ensures gui.color == color
    ensures gui.log == old(gui.log) + HighlightOps(call)
  {
    if call.highlight {
      var thickness := BoxThickness(call.rect.width);
      gui.SetColor(White);
      gui.DrawBox(call.rect, thickness);
      gui.SetColor(color);
    }
  }

  /** The portrait and icon block of `Prefix`: the icons are drawn at 80% of the slot alpha, then the slot tint is restored. */
  method DrawPortraitAndIcons(gui: Gui, call: DrawCall, host: Host, alpha: real)
    requires gui.color == Tint(alpha)
    modifies gui`log, gui`color
    ensures gui.color == Tint(alpha)
    ensures gui.log == old(gui.log) + PortraitAndIconOps(call, host, alpha)
  {
    var color := gui.color;
    gui.DrawTexture(host.pawnTextureRect, PortraitTex(call.colonist.thing, PortraitZoom));
    gui.SetColor(Tint(alpha * IconAlphaFactor));
    gui.DrawIcons(call.rect, call.colonist.thing);
    gui.SetColor(color);
  }

  /** The dead block of `Prefix`: the dead-colonist texture over the slot. */
  method DrawDeadOverlay(gui: Gui, call: DrawCall)
    modifies gui`log
    ensures gui.log == old(gui.log) + DeadOps(call, gui.color)
  {
    if call.colonist.dead {
      gui.DrawTexture(call.rect, DeadColonistTex);
    }
  }

  /** The label block of `Prefix`: the host label routine, which may leave any tint and font behind. */
  method DrawNameLabel(gui: Gui, call: DrawCall, host: Host, alpha: real)
    requires gui.color == Tint(alpha)
    modifies gui
    ensures gui.log == old(gui.log) + LabelOps(call, host, alpha)
  {
    gui.DrawPawnLabel(call.colonist.thing, LabelPos(call.rect, host.scale), alpha, LabelWidth(call.rect, host), Tiny);
  }

  /** The selection block of `Prefix`: at most one of the two host overlays, in the ambient tint. */
  method DrawSelection(gui: Gui, call: DrawCall, host: Host)
    modifies gui`log
    ensures gui.log == old(gui.log) + SelectionOps(call, host, gui.color)
  {
    var colonist := call.colonist;
    var rect2 := SelectionRect(call.rect, host.scale);
    if SelectedOnMap(colonist, host) && !host.worldRenderedNow {
      gui.DrawSelectionOverlay(colonist.thing, rect2);
    } else if host.worldRenderedNow && colonist.caravan.Some? && colonist.caravan.value in host.worldSelectedObjects {
      gui.DrawCaravanSelectionOverlay(colonist.caravan.value, rect2);
    }
  }

}
