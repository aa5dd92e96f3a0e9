/**
  * The fixed dispatch tables of the gamepad proxy: which pad button index
  * stands for which Switch button, and which pad axis drives which stick
  * coordinate. The proxy writes both tables as chains of `if`s; here they are
  * lookups that answer `None` for an index the proxy has no branch for.
  */
module Mapping {
  import opened Wrappers

  /** The Switch buttons the proxy presses and releases. */
  datatype Button = Y | B | A | X | L | R | ZL | ZR | Minus | Plus | LStick | RStick | Home | Capture

  datatype Side = Left | Right

  /** `set_h` drives the horizontal coordinate of a stick, `set_v` the vertical one. */
  datatype Direction = Horizontal | Vertical

  /** The button names the proxy hands to the controller, in pad button index order 0..13. */
  const PadButtonNames: seq<string> :=
    ["y", "b", "a", "x", "l", "r", "zl", "zr", "minus", "plus", "l_stick", "r_stick", "home", "capture"]

  /** The name under which the controller knows a button. */
  function Name(b: Button): string {
    match b
    case Y => "y"
    case B => "b"
    case A => "a"
    case X => "x"
    case L => "l"
    case R => "r"
    case ZL => "zl"
    case ZR => "zr"
    case Minus => "minus"
    case Plus => "plus"
    case LStick => "l_stick"
    case RStick => "r_stick"
    case Home => "home"
    case Capture => "capture"
  }

  /** The button table shared by the button-down and the button-up branch. */
  function ButtonOf(i: int): (r: Option<Button>)
    ensures r.Some? <==> 0 <= i < |PadButtonNames|
    ensures r.Some? ==> Name(r.value) == PadButtonNames[i]
  {
    if i == 0 then Some(Y)
    else if i == 1 then Some(B)
    else if i == 2 then Some(A)
    else if i == 3 then Some(X)
    else if i == 4 then Some(L)
    else if i == 5 then Some(R)
    else if i == 6 then Some(ZL)
    else if i == 7 then Some(ZR)
    else if i == 8 then Some(Minus)
    else if i == 9 then Some(Plus)
    else if i == 10 then Some(LStick)
    else if i == 11 then Some(RStick)
    else if i == 12 then Some(Home)
    else if i == 13 then Some(Capture)
    else None
  }

  /** The pad index that reaches a button: every Switch button of the table is reachable. */
  function IndexOf(b: Button): (i: nat)
    ensures i < |PadButtonNames| && ButtonOf(i) == Some(b)
  {
    match b
    case Y => 0
    case B => 1
    case A => 2
    case X => 3
    case L => 4
    case R => 5
    case ZL => 6
    case ZR => 7
    case Minus => 8
    case Plus => 9
    case LStick => 10
    case RStick => 11
    case Home => 12
    case Capture => 13
  }

  /** No two pad indices reach the same button. */
  lemma ButtonOfInjective(i: int, j: int)
    requires ButtonOf(i).Some? && ButtonOf(i) == ButtonOf(j)
    ensures i == j
  {
  }

  /** The fourteen names of the table are pairwise distinct. */
  lemma PadButtonNamesDistinct(i: int, j: int)
    requires 0 <= i < |PadButtonNames| && 0 <= j < |PadButtonNames|
    requires PadButtonNames[i] == PadButtonNames[j]
    ensures i == j
  {
  }

  /** The axis table: axes 0 and 1 are the left stick, 2 and 3 the right one; even axes are horizontal. */
  function AxisTarget(axis: int): (r: Option<(Side, Direction)>)
    ensures r.Some? <==> 0 <= axis < 4
    ensures r.Some? ==> r.value.0 == (if axis < 2 then Left else Right)
    ensures r.Some? ==> r.value.1 == (if axis % 2 == 0 then Horizontal else Vertical)
  {
    if axis == 0 then Some((Left, Horizontal))
    else if axis == 1 then Some((Left, Vertical))
    else if axis == 2 then Some((Right, Horizontal))
    else if axis == 3 then Some((Right, Vertical))
    else None
  }

  /** The pad axis that drives a stick coordinate: every one of the four is driven by exactly one axis. */
  function AxisOf(side: Side, dir: Direction): (axis: nat)
    ensures axis < 4 && AxisTarget(axis) == Some((side, dir))
  {
    (if side == Left then 0 else 2) + (if dir == Horizontal then 0 else 1)
  }

  /** No two pad axes drive the same stick coordinate. */
  lemma AxisTargetInjective(a: int, b: int)
    requires AxisTarget(a).Some? && AxisTarget(a) == AxisTarget(b)
    ensures a == b
  {
  }
}
