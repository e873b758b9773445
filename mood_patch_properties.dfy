/**
 * What one call of the colonist-slot routine draws, stated layer by layer
 * over `SlotTrace`: the order of the layers, which of them appear under which
 * conditions, what each draws and with which tint, and the bounds on the
 * slot's alpha.
 */
module MoodPatchProperties {
  import opened Wrappers
  import opened Geometry
  import opened MoodBands
  import opened Drawing
  import opened MoodPatch

  /** The layers of a colonist slot, back to front. */
  datatype Layer = Background | MoodFill | Highlight | Selection | Portrait | Icons | DeadOverlay | NameLabel

  function Depth(layer: Layer): (d: nat)
    ensures d < 8
  {
    match layer
    case Background => 0
    case MoodFill => 1
    case Highlight => 2
    case Selection => 3
    case Portrait => 4
    case Icons => 5
    case DeadOverlay => 6
    case NameLabel => 7
  }

  /** The layer a draw call paints. */
  function LayerOf(op: DrawOp): Layer
  {
    match op
    case Textured(_, texture, _) =>
      (match texture
       case BackgroundTex => Background
       case BandTex(_) => MoodFill
       case PortraitTex(_, _) => Portrait
       case DeadColonistTex => DeadOverlay)
    case BoxOutline(_, _, _) => Highlight
    case PawnSelection(_, _, _) => Selection
    case CaravanSelection(_, _, _) => Selection
    case StatusIcons(_, _, _) => Icons
    case Label(_, _, _, _, _, _) => NameLabel
  }

  /** Every call paints a layer strictly in front of the calls before it. */
  ghost predicate InDrawOrder(ops: seq<DrawOp>)
  {
    forall i, j :: 0 <= i < j < |ops| ==> Depth(LayerOf(ops[i])) < Depth(LayerOf(ops[j]))
  }

  /** Every call of `ops` paints a layer at depth `lo` or deeper, and shallower than `hi`. */
  ghost predicate WithinDepths(ops: seq<DrawOp>, lo: nat, hi: nat)
  {
    forall op :: op in ops ==> lo <= Depth(LayerOf(op)) < hi
  }

  /** In a run in draw order, the call at index `i` paints a layer at depth `i` or deeper. */
  lemma {:induction false} DepthAtLeastIndex(ops: seq<DrawOp>, i: nat)
    requires InDrawOrder(ops) && i < |ops|
    ensures i <= Depth(LayerOf(ops[i]))
  {
    if i > 0 {
      DepthAtLeastIndex(ops, i - 1);
    }
  }

  /** A run in draw order paints each of the eight layers at most once, so it has at most eight calls. */
  lemma AtMostOneCallPerLayer(ops: seq<DrawOp>)
    requires InDrawOrder(ops)
    ensures |ops| <= 8
    ensures forall i, j :: 0 <= i < j < |ops| ==> LayerOf(ops[i]) != LayerOf(ops[j])
  {
    if |ops| > 0 {
      DepthAtLeastIndex(ops, |ops| - 1);
    }
  }

  /** The calls of `ops` that paint `layer`. */
  ghost function Drawn(ops: seq<DrawOp>, layer: Layer): set<DrawOp>
  {
    set op | op in ops && LayerOf(op) == layer
  }

  /** Two runs in draw order, the second wholly in front of the first, make one run in draw order. */
  lemma OrderedAppend(a: seq<DrawOp>, b: seq<DrawOp>, split: nat)
    requires InDrawOrder(a) && InDrawOrder(b)
    requires WithinDepths(a, 0, split) && WithinDepths(b, split, 8)
    ensures InDrawOrder(a + b)
  {
    forall i, j | 0 <= i < j < |a + b|
      ensures Depth(LayerOf((a + b)[i])) < Depth(LayerOf((a + b)[j]))
    {
      if j < |a| {
        assert (a + b)[i] == a[i] && (a + b)[j] == a[j];
      } else if i < |a| {
        assert (a + b)[i] == a[i] && (a + b)[j] == b[j - |a|];
        assert a[i] in a && b[j - |a|] in b;
      } else {
        assert (a + b)[i] == b[i - |a|] && (a + b)[j] == b[j - |a|];
      }
    }
  }

  /** A stage of at most one call, every call on `layer`. */
  ghost predicate StageOn(ops: seq<DrawOp>, layer: Layer)
  {
    |ops| <= 1 && forall op :: op in ops ==> LayerOf(op) == layer
  }

  lemma StagesOnTheirLayers(call: DrawCall, host: Host, alpha: real)
    ensures var tint := Tint(alpha);
      && StageOn(FillOps(call, tint), MoodFill)
      && StageOn(HighlightOps(call), Highlight)
      && StageOn(SelectionOps(call, host, tint), Selection)
      && StageOn(DeadOps(call, tint), DeadOverlay)
      && InDrawOrder(PortraitAndIconOps(call, host, alpha))
      && WithinDepths(PortraitAndIconOps(call, host, alpha), 4, 6)
  {
  }

  /** A stage of at most one call is in draw order and lies within its layer's depth. */
  lemma StageOrdered(ops: seq<DrawOp>, layer: Layer)
    requires StageOn(ops, layer)
    ensures InDrawOrder(ops) && WithinDepths(ops, Depth(layer), Depth(layer) + 1)
  {
    if ops != [] {
      assert ops[0] in ops;
    }
  }

  /** Seven stages, each on the layers of its place in the slot, concatenate to a run in draw order. */
  lemma StagesInDrawOrder(p0: seq<DrawOp>, p1: seq<DrawOp>, p2: seq<DrawOp>, p3: seq<DrawOp>,
                          p4: seq<DrawOp>, p5: seq<DrawOp>, p6: seq<DrawOp>)
    requires StageOn(p0, Background) && StageOn(p1, MoodFill) && StageOn(p2, Highlight) && StageOn(p3, Selection)
    requires InDrawOrder(p4) && WithinDepths(p4, 4, 6)
    requires StageOn(p5, DeadOverlay) && StageOn(p6, NameLabel)
    ensures InDrawOrder(p0 + p1 + p2 + p3 + p4 + p5 + p6)
  {
    StageOrdered(p0, Background);
    StageOrdered(p1, MoodFill);
    StageOrdered(p2, Highlight);
    StageOrdered(p3, Selection);
    StageOrdered(p5, DeadOverlay);
    StageOrdered(p6, NameLabel);
    OrderedAppend(p0, p1, 1);
    OrderedAppend(p0 + p1, p2, 2);
    OrderedAppend(p0 + p1 + p2, p3, 3);
    OrderedAppend(p0 + p1 + p2 + p3, p4, 4);
    OrderedAppend(p0 + p1 + p2 + p3 + p4, p5, 6);
    OrderedAppend(p0 + p1 + p2 + p3 + p4 + p5, p6, 7);
  }

  /**
   * The calls of one slot are in the host's layer order: background, mood
   * fill, highlight, selection, portrait, icons, dead overlay, name label,
   * each at most once.
   */
  lemma DrawOrder(call: DrawCall, host: Host)
    ensures InDrawOrder(SlotTrace(call, host))
  {
    var alpha := SlotAlpha(call, host);
    var tint := Tint(alpha);
    StagesOnTheirLayers(call, host, alpha);
    StagesInDrawOrder(
      [Textured(call.rect, BackgroundTex, tint)], FillOps(call, tint), HighlightOps(call),
      SelectionOps(call, host, tint), PortraitAndIconOps(call, host, alpha), DeadOps(call, tint),
      LabelOps(call, host, alpha));
  }

  /** The slot starts with its background and ends with the colonist's name, centred near the bottom edge, in the tiny font. */
  lemma BackgroundFirstLabelLast(call: DrawCall, host: Host)
    ensures var trace := SlotTrace(call, host);
      var alpha := SlotAlpha(call, host);
      && 4 <= |trace| <= 8
      && trace[0] == Textured(call.rect, BackgroundTex, Tint(alpha))
      && trace[|trace| - 1] == Label(call.colonist.thing, Vec2(call.rect.Center().x, call.rect.YMax() - 4.0 * host.scale),
                                     alpha, call.rect.width + host.spaceBetweenColonistsHorizontal - 2.0, Tiny, Tint(alpha))
  {
  }

  /**
   * The mood fill bar is drawn exactly when the colonist has a mood need: in
   * the texture of the band its mood level falls in, filling the bottom
   * fraction of the inset given by its mood percentage.
   */
  lemma FillBarLayer(call: DrawCall, host: Host)
    ensures var fill := Drawn(SlotTrace(call, host), MoodFill);
      match call.colonist.mood
      case None => fill == {}
      case Some(mood) =>
        fill == {Textured(FillRect(call.rect, mood.curLevelPercentage),
                          BandTex(Classify(mood.curLevel, call.colonist.breakThreshold)),
                          Tint(SlotAlpha(call, host)))}
  {
  }

  /**
   * The highlight outline is drawn exactly when the slot is highlighted,
   * around the slot, opaque white, three units thick on slots wider than 22
   * and two units otherwise.
   */
  lemma HighlightLayer(call: DrawCall, host: Host)
    ensures var box := Drawn(SlotTrace(call, host), Highlight);
      && (call.highlight ==> box == {BoxOutline(call.rect, if call.rect.width > 22.0 then 3 else 2, White)})
      && (!call.highlight ==> box == {})
  {
    StagesOnTheirLayers(call, host, SlotAlpha(call, host));
    assert Drawn(SlotTrace(call, host), Highlight) == set op | op in HighlightOps(call);
  }

  /**
   * At most one selection overlay is drawn, over the slot grown by twice the
   * scale: the map overlay when the colonist (or its corpse) is selected and
   * the map is showing, otherwise the caravan overlay when the world is
   * showing and its caravan is selected there.
   */
  lemma SelectionLayer(call: DrawCall, host: Host)
    ensures var sel := Drawn(SlotTrace(call, host), Selection);
      var overlay := call.rect.ExpandedBy(2.0 * host.scale);
      var tint := Tint(SlotAlpha(call, host));
      && |sel| <= 1
      && (DrawsPawnSelection(call.colonist, host) ==> sel == {PawnSelection(call.colonist.thing, overlay, tint)})
      && (DrawsCaravanSelection(call.colonist, host) ==> sel == {CaravanSelection(call.colonist.caravan.value, overlay, tint)})
      && (!DrawsPawnSelection(call.colonist, host) && !DrawsCaravanSelection(call.colonist, host) ==> sel == {})
  {
    var tint := Tint(SlotAlpha(call, host));
    var ops := SelectionOps(call, host, tint);
    StagesOnTheirLayers(call, host, SlotAlpha(call, host));
    var sel := Drawn(SlotTrace(call, host), Selection);
    assert sel == set op | op in ops;
    if ops != [] {
      assert sel == {ops[0]};
    }
  }

  /** The portrait is always drawn, at the slot alpha. */
  lemma PortraitLayer(call: DrawCall, host: Host)
    ensures Drawn(SlotTrace(call, host), Portrait) ==
      {Textured(host.pawnTextureRect, PortraitTex(call.colonist.thing, PortraitZoom), Tint(SlotAlpha(call, host)))}
  {
  }

  /** The status icons are always drawn, over the slot, at 80% of the slot alpha. */
  lemma IconLayer(call: DrawCall, host: Host)
    ensures Drawn(SlotTrace(call, host), Icons) ==
      {StatusIcons(call.rect, call.colonist.thing, Tint(SlotAlpha(call, host) * 0.8))}
  {
  }

  /** The dead overlay covers the slot exactly when the colonist is dead. */
  lemma DeadOverlayLayer(call: DrawCall, host: Host)
    ensures var dead := Drawn(SlotTrace(call, host), DeadOverlay);
      && (call.colonist.dead ==> dead == {Textured(call.rect, DeadColonistTex, Tint(SlotAlpha(call, host)))})
      && (!call.colonist.dead ==> dead == {})
  {
  }

  /**
   * Every call is drawn in the slot tint, white at the slot alpha, except the
   * highlight outline (opaque white) and the status icons (80% of the slot alpha).
   */
  lemma AmbientTint(call: DrawCall, host: Host)
    ensures var alpha := SlotAlpha(call, host);
      forall op :: op in SlotTrace(call, host) ==>
        op.color == (if LayerOf(op) == Highlight then White
                     else if LayerOf(op) == Icons then Tint(alpha * 0.8)
                     else Tint(alpha))
  {
  }

  /** With a non-negative base alpha the slot is never drawn more opaque than the bar asked for, nor with a negative alpha. */
  lemma AlphaWithinBase(call: DrawCall, host: Host)
    requires 0.0 <= host.entryRectAlpha
    ensures 0.0 <= SlotAlpha(call, host) <= host.entryRectAlpha
  {
  }

  /** Reordering draws the slot at exactly half the alpha it would have otherwise. */
  lemma ReorderingHalves(call: DrawCall, host: Host)
    ensures SlotAlpha(call.(reordering := true), host) == SlotAlpha(call.(reordering := false), host) / 2.0
  {
  }

  /** A more opaque base alpha never gives a less opaque slot. */
  lemma AlphaMonotone(call: DrawCall, host: Host, base: real)
    requires host.entryRectAlpha <= base
    ensures SlotAlpha(call, host) <= SlotAlpha(call, host.(entryRectAlpha := base))
  {
  }

  /** A colonist on another map while the map is showing is drawn at alpha 0.4 or less, 0.2 or less while reordering. */
  lemma OtherMapDimmed(call: DrawCall, host: Host)
    requires !host.worldRenderedNow && call.pawnMap.Some? && call.pawnMap != host.currentMap
    ensures SlotAlpha(call, host) <= if call.reordering then 0.2 else 0.4
  {
  }
}
