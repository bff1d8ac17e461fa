/** The arithmetic of the arrow modifier, over exact reals: the measured rectangles, the
    common scroll totals, the clamp (`within`), and the centring of the arrow along one axis. */
module Geometry {

  import opened Placements

  /** A measured rectangle: position and size, margins included where the caller added them. */
  datatype Rect = Rect(x: real, y: real, width: real, height: real)

  /** Scroll offsets summed over the scroll ancestors common to reference and popper. */
  datatype ScrollTotals = ScrollTotals(scrollTop: real, scrollLeft: real)

  /** `rect[axis]`: the position of a rectangle along an axis. */
  function Coord(r: Rect, a: Axis): real
  {
    match a
    case X => r.x
    case Y => r.y
  }

  /** `rect[len]`: the size of a rectangle in one dimension. */
  function Size(r: Rect, d: Dimension): real
  {
    match d
    case Width => r.width
    case Height => r.height
  }

  /** The scroll total that corrects an offset along an axis: scrollTop for "y",
      scrollLeft for "x". */
  function ScrollAlong(s: ScrollTotals, a: Axis): real
  {
    if a == Y then s.scrollTop else s.scrollLeft
  }

  function Min(a: real, b: real): real { if a <= b then a else b }

  function Max(a: real, b: real): real { if a >= b then a else b }

  /** within(lo, v, hi) (assumed semantics: max(lo, min(v, hi))): clamps v into [lo, hi];
      when the interval is empty the lower bound wins. */
  function Within(lo: real, v: real, hi: real): (r: real)
    ensures lo <= hi ==> lo <= r <= hi
    ensures lo <= v <= hi ==> r == v
    ensures v <= lo ==> r == lo
    ensures hi < lo ==> r == lo
    ensures lo <= hi <= v ==> r == hi
  {
    Max(lo, Min(v, hi))
  }

  /** Every input of the centring arithmetic, projected onto the axis the arrow moves along:
      the reference's position and length, the popper's offset and length, the arrow's
      length, and the scroll correction for that axis. */
  datatype AxisGeometry = AxisGeometry(
    referencePos: real,
    referenceLen: real,
    popperPos: real,
    popperLen: real,
    arrowLen: real,
    scroll: real)

  /** `endDiff`: how far the reference's far edge lies beyond the popper's far edge. */
  function EndDiff(g: AxisGeometry): real
  {
    g.referenceLen + g.referencePos - g.popperPos - g.popperLen
  }

  /** `startDiff`: how far the popper's near edge lies beyond the reference's near edge. */
  function StartDiff(g: AxisGeometry): real
  {
    g.popperPos - g.referencePos
  }

  /** `centerToReference`: the shift that moves the arrow from the popper's middle to the
      reference's middle; applied only when the popper is longer than the reference. */
  function CenterToReference(g: AxisGeometry): (c: real)
    ensures g.popperLen <= g.referenceLen ==> c == 0.0
    ensures g.popperLen > g.referenceLen ==>
      c == (g.referencePos + g.referenceLen / 2.0) - (g.popperPos + g.popperLen / 2.0) - g.scroll
  {
    if g.popperLen > g.referenceLen then EndDiff(g) / 2.0 - StartDiff(g) / 2.0 - g.scroll
    else 0.0
  }

  /** The arrow's offset inside the popper before the clamp. */
  function RawCenter(g: AxisGeometry): real
  {
    g.popperLen / 2.0 - g.arrowLen / 2.0 + CenterToReference(g)
  }

  /** The stored offset: the raw centre clamped so the arrow stays inside the popper. */
  function Center(g: AxisGeometry): (c: real)
    ensures g.arrowLen <= g.popperLen ==> 0.0 <= c && c + g.arrowLen <= g.popperLen
    ensures 0.0 <= RawCenter(g) <= g.popperLen - g.arrowLen ==> c == RawCenter(g)
    ensures g.popperLen < g.arrowLen ==> c == 0.0
  {
    Within(0.0, RawCenter(g), g.popperLen - g.arrowLen)
  }

  /** A popper no longer than the reference gets no correction: the arrow sits in the
      popper's middle. */
  lemma NotLongerCentersOnPopper(g: AxisGeometry)
    requires g.popperLen <= g.referenceLen
    ensures CenterToReference(g) == 0.0
    ensures RawCenter(g) == g.popperLen / 2.0 - g.arrowLen / 2.0
    ensures RawCenter(g) + g.arrowLen / 2.0 == g.popperLen / 2.0
  {
  }

  /** A popper longer than the reference gets the correction that puts the arrow's middle
      on the reference's middle, less the common scroll. */
  lemma LongerCentersOnReference(g: AxisGeometry)
    requires g.popperLen > g.referenceLen
    ensures g.popperPos + RawCenter(g) + g.arrowLen / 2.0
         == g.referencePos + g.referenceLen / 2.0 - g.scroll
  {
  }

  /** When the clamp does not bite, the stored arrow points at the reference's middle
      (less the common scroll). */
  lemma UnclampedArrowPointsAtReference(g: AxisGeometry)
    requires g.popperLen > g.referenceLen
    requires 0.0 <= RawCenter(g) <= g.popperLen - g.arrowLen
    ensures g.popperPos + Center(g) + g.arrowLen / 2.0
         == g.referencePos + g.referenceLen / 2.0 - g.scroll
  {
  }

  /** Only relative positions matter: moving reference and popper together along the axis
      leaves the stored offset unchanged. */
  lemma CenterIsTranslationInvariant(g: AxisGeometry, d: real)
    ensures Center(g.(referencePos := g.referencePos + d, popperPos := g.popperPos + d))
         == Center(g)
  {
  }
}
