/**
 * The immediate-mode GUI the colonist bar draws into. Unity keeps one
 * ambient tint (`GUI.color`) and one ambient font (`Text.Font`) that every
 * draw call reads and any code may overwrite; the class below holds both,
 * together with the ordered list of draw calls issued so far. Every recorded
 * call carries the tint that was in effect when it was issued.
 */
module Drawing {
  import opened Geometry
  import opened MoodBands

  /** Identity of a game object (pawn, corpse, caravan). */
  type ThingId = nat

  datatype Font = Tiny | Small | Medium

  /** The textures the colonist slot uses, as opaque tokens. */
  datatype Texture =
    | BackgroundTex                              // ColonistBar.BGTex
    | BandTex(band: Band)                        // one solid-colour texture per mood band
    | PortraitTex(pawn: ThingId, zoom: real)     // the pawn's cached portrait
    | DeadColonistTex                            // the drawer's overlay for dead colonists

  /** One draw call, with the ambient tint it was drawn with. */
  datatype DrawOp =
    | Textured(rect: Rect, texture: Texture, color: Color)
    | BoxOutline(rect: Rect, thickness: int, color: Color)
    | PawnSelection(pawn: ThingId, rect: Rect, color: Color)
    | CaravanSelection(caravan: ThingId, rect: Rect, color: Color)
    | StatusIcons(rect: Rect, pawn: ThingId, color: Color)
    | Label(pawn: ThingId, pos: Vec2, alpha: real, width: real, font: Font, color: Color)

  /** The GUI state shared by every piece of drawing code in a frame. */
  class Gui {
    var color: Color
    var font: Font
    var log: seq<DrawOp>

    /** Unity's state at the start of a GUI pass: white, small font, nothing drawn. */
    constructor ()
      ensures color == White && font == Small && log == []
    {
      color := White;
      font := Small;
      log := [];
    }

    /** `GUI.color = c` */
    method SetColor(c: Color)
      modifies this`color
      ensures color == c
    {
      color := c;
    }

    /** `Text.Font = f` */
    method SetFont(f: Font)
      modifies this`font
      ensures font == f
    {
      font := f;
    }

    /** `GUI.DrawTexture(rect, texture)`, tinted by the ambient colour. */
    method DrawTexture(rect: Rect, texture: Texture)
      modifies this`log
      ensures log == old(log) + [Textured(rect, texture, color)]
    {
      log := log + [Textured(rect, texture, color)];
    }

    /** `Widgets.DrawBox(rect, thickness)`: an outline in the ambient colour. */
    method DrawBox(rect: Rect, thickness: int)
      modifies this`log
      ensures log == old(log) + [BoxOutline(rect, thickness, color)]
    {
      log := log + [BoxOutline(rect, thickness, color)];
    }

    /** The colonist drawer's private `DrawSelectionOverlayOnGUI(pawn, rect)`. */
    method DrawSelectionOverlay(pawn: ThingId, rect: Rect)
      modifies this`log
      ensures log == old(log) + [PawnSelection(pawn, rect, color)]
    {
      log := log + [PawnSelection(pawn, rect, color)];
    }

    /** The colonist drawer's private `DrawCaravanSelectionOverlayOnGUI(caravan, rect)`. */
    method DrawCaravanSelectionOverlay(caravan: ThingId, rect: Rect)
      modifies this`log
      ensures log == old(log) + [CaravanSelection(caravan, rect, color)]
    {
      log := log + [CaravanSelection(caravan, rect, color)];
    }

    /** The colonist drawer's private `DrawIcons(rect, pawn)`. */
    method DrawIcons(rect: Rect, pawn: ThingId)
      modifies this`log
      ensures log == old(log) + [StatusIcons(rect, pawn, color)]
    {
      log := log + [StatusIcons(rect, pawn, color)];
    }

    /**
     * `GenMapUI.DrawPawnLabel(pawn, pos, alpha, width, cache, font, true, true)`.
     * The host routine sets the tint and the font for its own use; what it
     * leaves in them is not promised, so callers must restore both.
     */
    method DrawPawnLabel(pawn: ThingId, pos: Vec2, alpha: real, width: real, labelFont: Font)
      modifies this
      ensures log == old(log) + [Label(pawn, pos, alpha, width, labelFont, old(color))]
    {
      log := log + [Label(pawn, pos, alpha, width, labelFont, color)];
      font := labelFont;
      color := Tint(alpha);
    }
  }

}
