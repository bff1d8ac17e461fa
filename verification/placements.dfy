/** Placement tokens and the two facts the arrow modifier derives from them: the base side
    (getBasePlacement) and the main axis (getMainAxisFromPlacement), plus the rectangle
    dimension the modifier measures along (`len`). The bodies of the two utilities are not
    part of this model; the definitions below are the semantics their names and use imply. */
module Placements {

  /** The four base sides a popper can be placed on. */
  datatype Side = Top | Bottom | Right | Left

  /** The alignment suffix of a placement token: none, `-start` or `-end`. */
  datatype Variation = Centered | Start | End

  /** One of the twelve placement tokens, held in parsed form. */
  datatype Placement = Placement(side: Side, variation: Variation)

  /** The two coordinate axes; the arrow is centred along one of them. */
  datatype Axis = X | Y

  /** The two rectangle dimensions; `len` in the modifier is one of them. */
  datatype Dimension = Width | Height

  function SideToken(side: Side): string
  {
    match side
    case Top => "top"
    case Bottom => "bottom"
    case Right => "right"
    case Left => "left"
  }

  /** The string form of a placement, e.g. "bottom-start". */
  function PlacementToken(p: Placement): string
  {
    match p.variation
    case Centered => SideToken(p.side)
    case Start => SideToken(p.side) + "-" + "start"
    case End => SideToken(p.side) + "-" + "end"
  }

  /** The property name of an axis, used as a key of offset records ("x" or "y"). */
  function AxisName(a: Axis): string
  {
    match a
    case X => "x"
    case Y => "y"
  }

  /** `token.split('-')[0]`: the part of a token before its first dash. */
  function BeforeFirstDash(token: string): (r: string)
    ensures r <= token
    ensures '-' !in r
    ensures |r| < |token| ==> token[|r|] == '-'
  {
    if token == [] || token[0] == '-' then []
    else [token[0]] + BeforeFirstDash(token[1..])
  }

  lemma {:induction false} BeforeFirstDashOfJoin(a: string, b: string)
    requires '-' !in a
    ensures BeforeFirstDash(a + "-" + b) == a
  {
    if a == [] {
      assert a + "-" + b == "-" + b;
    } else {
      assert (a + "-" + b)[1..] == a[1..] + "-" + b;
      BeforeFirstDashOfJoin(a[1..], b);
    }
  }

  /** getBasePlacement (assumed semantics): projects a placement onto its side. Its result is
      the side named by the part of the token before the first dash. */
  function GetBasePlacement(p: Placement): (side: Side)
    ensures SideToken(side) == BeforeFirstDash(PlacementToken(p))
  {
    match p.variation
    case Centered => p.side
    case Start => BeforeFirstDashOfJoin(SideToken(p.side), "start"); p.side
    case End => BeforeFirstDashOfJoin(SideToken(p.side), "end"); p.side
  }

  /** getMainAxisFromPlacement (assumed semantics): "x" for top and bottom, "y" otherwise. */
  function MainAxis(side: Side): Axis
  {
    if side == Top || side == Bottom then X else Y
  }

  /** `len`: height for a popper on the left or right side, width otherwise. */
  function Len(side: Side): Dimension
  {
    if side == Left || side == Right then Height else Width
  }

  /** `len` is "height" exactly when the token's base is "left" or "right", and it is the
      dimension that runs along the main axis. */
  lemma LenOfPlacement(p: Placement)
    ensures var side := GetBasePlacement(p);
      (Len(side) == Height <==> BeforeFirstDash(PlacementToken(p)) in {"left", "right"}) &&
      (Len(side) == Height <==> MainAxis(side) == Y) &&
      (AxisName(MainAxis(side)) == "x" <==> BeforeFirstDash(PlacementToken(p)) in {"top", "bottom"})
  {
  }
}
