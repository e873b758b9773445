/**
 * The Unity value types the colonist-bar drawing code works with: screen
 * rectangles, points and RGBA colours. Coordinates and colour channels are
 * `real`; the single-precision rounding of the original is not modelled.
 */
module Geometry {

  /** A screen point (Unity's Vector2). */
  datatype Vec2 = Vec2(x: real, y: real)

  /**
   * A screen rectangle as Unity stores it: the top-left corner and the size.
   * The y axis grows downward, so `YMax()` is the bottom edge.
   */
  datatype Rect = Rect(x: real, y: real, width: real, height: real) {

    function XMax(): real { x + width }

    function YMin(): real { y }

    function YMax(): real { y + height }

    function Position(): Vec2 { Vec2(x, y) }

    function Center(): Vec2 { Vec2(x + width / 2.0, y + height / 2.0) }

    /** Verse's `ExpandedBy`: every edge moves outward by `margin`. */
    function ExpandedBy(margin: real): (r: Rect)
      ensures r.x == x - margin && r.XMax() == XMax() + margin
      ensures r.YMin() == YMin() - margin && r.YMax() == YMax() + margin
    {
      Rect(x - margin, y - margin, width + 2.0 * margin, height + 2.0 * margin)
    }

    /** Verse's `ContractedBy`: every edge moves inward by `margin` (outward when it is negative). */
    function ContractedBy(margin: real): (r: Rect)
      ensures r.x == x + margin && r.XMax() == XMax() - margin
      ensures r.YMin() == YMin() + margin && r.YMax() == YMax() - margin
    {
      Rect(x + margin, y + margin, width - 2.0 * margin, height - 2.0 * margin)
    }

    /** Unity's `yMin` setter: the top edge moves to `v` and the bottom edge stays where it was. */
    function WithYMin(v: real): (r: Rect)
      ensures r.YMin() == v && r.YMax() == YMax()
      ensures r.x == x && r.width == width
    {
      Rect(x, v, width, YMax() - v)
    }

    /** Unity's `height` setter: the top edge stays, the bottom edge follows the new height. */
    function WithHeight(h: real): (r: Rect)
      ensures r.YMin() == YMin() && r.YMax() == YMin() + h
      ensures r.x == x && r.width == width
    {
      Rect(x, y, width, h)
    }
  }

  /** Contracting by a margin undoes expanding by it, and contracting by a negative margin is expanding. */
  lemma ContractedByInverse(r: Rect, margin: real)
    ensures r.ExpandedBy(margin).ContractedBy(margin) == r
    ensures r.ContractedBy(-margin) == r.ExpandedBy(margin)
  {
  }

  /** An RGBA colour with channels in Unity's 0..1 scale. */
  datatype Color = Color(r: real, g: real, b: real, a: real)

  /** Unity's `Color.white`: opaque white. */
  const White: Color := Color(1.0, 1.0, 1.0, 1.0)

  /** White at the given opacity: `new Color(1f, 1f, 1f, alpha)`. */
  function Tint(alpha: real): Color
  {
    Color(1.0, 1.0, 1.0, alpha)
  }

}
