/**
 * The mouse-event normaliser of src/inputs/mouse.rs: raw terminal mouse
 * events are mapped onto a closed set of nine semantic events, each with a
 * fixed label.
 */
module MouseInput {
  import Decimal

  /** Rust's `u16`, the type of terminal cell coordinates. */
  newtype u16 = x: int | 0 <= x < 0x1_0000

  datatype MouseButton = Left | Right | Middle

  /** The raw kinds the terminal back-end reports; `Other` stands for any kind the normaliser has no pattern for. */
  datatype MouseEventKind =
    | Down(button: MouseButton)
    | Up(button: MouseButton)
    | Drag(button: MouseButton)
    | Moved
    | ScrollDown
    | ScrollUp
    | Other

  datatype KeyModifier = Shift | Control | Alt | Super | Hyper | Meta

  /** A raw event; `modifiers` is the set of flags held while it happened. */
  datatype MouseEvent = MouseEvent(kind: MouseEventKind, column: u16, row: u16, modifiers: set<KeyModifier>)

  /** The modifier value `KeyModifiers::CONTROL`: Control and nothing else. */
  const CONTROL: set<KeyModifier> := {Control}

  datatype Mouse =
    | LeftPress
    | RightPress
    | MiddlePress
    | ScrollUp
    | ScrollDown
    | ScrollLeft
    | ScrollRight
    | Move(x: u16, y: u16)
    | Unknown

  /** `From<MouseEvent> for Mouse`: the first matching pattern decides. */
  function FromEvent(e: MouseEvent): (m: Mouse)
    ensures m.Move? ==> m.x == e.column && m.y == e.row
  {
    match e.kind
    case Down(Left) => LeftPress
    case Down(Right) => RightPress
    case Down(Middle) => MiddlePress
    case ScrollDown => if e.modifiers == CONTROL then ScrollLeft else Mouse.ScrollDown
    case ScrollUp => if e.modifiers == CONTROL then ScrollRight else Mouse.ScrollUp
    case Moved => Move(e.column, e.row)
    case _ => Unknown
  }

  /** `Display for Mouse`. */
  function Label(m: Mouse): (s: string)
    ensures |s| >= |"<Mouse::Left>"| && s[..8] == "<Mouse::" && s[|s| - 1] == '>'
  {
    match m
    case LeftPress => "<Mouse::Left>"
    case RightPress => "<Mouse::Right>"
    case MiddlePress => "<Mouse::Middle>"
    case ScrollUp => "<Mouse::ScrollUp>"
    case ScrollDown => "<Mouse::ScrollDown>"
    case ScrollLeft => "<Mouse::Ctrl + ScrollUp>"
    case ScrollRight => "<Mouse::Ctrl + ScrollDown>"
    case Move(x, y) => MovePrefix + Decimal.Format(x as nat) + ", " + Decimal.Format(y as nat) + ")>"
    case Unknown => "<Mouse::Unknown>"
  }

  const MovePrefix: string := "<Mouse::Move("

  /** A button press maps to the press of that button, whatever the modifiers and position. */
  lemma PressFromDown(e: MouseEvent)
    ensures FromEvent(e) == LeftPress <==> e.kind == Down(Left)
    ensures FromEvent(e) == RightPress <==> e.kind == Down(Right)
    ensures FromEvent(e) == MiddlePress <==> e.kind == Down(Middle)
  {
  }

  /** Scrolling with Control as the only modifier is remapped to the horizontal axis. */
  lemma ControlScrollRemap(e: MouseEvent)
    ensures FromEvent(e) == ScrollLeft <==> e.kind == MouseEventKind.ScrollDown && e.modifiers == CONTROL
    ensures FromEvent(e) == ScrollRight <==> e.kind == MouseEventKind.ScrollUp && e.modifiers == CONTROL
  {
  }

  /** Scrolling with any other modifier value, none included, keeps its direction. */
  lemma PlainScroll(e: MouseEvent)
    ensures FromEvent(e) == Mouse.ScrollUp <==> e.kind == MouseEventKind.ScrollUp && e.modifiers != CONTROL
    ensures FromEvent(e) == Mouse.ScrollDown <==> e.kind == MouseEventKind.ScrollDown && e.modifiers != CONTROL
  {
  }

  /** Control together with Shift is not `CONTROL`: the scroll is not remapped. */
  lemma ControlShiftScroll(column: u16, row: u16)
    ensures FromEvent(MouseEvent(MouseEventKind.ScrollDown, column, row, {Control, Shift})) == Mouse.ScrollDown
    ensures FromEvent(MouseEvent(MouseEventKind.ScrollUp, column, row, {Control, Shift})) == Mouse.ScrollUp
  {
  }

  /** Exactly the moved events become `Move`, with both coordinates kept. */
  lemma MoveKeepsPosition(e: MouseEvent)
    ensures FromEvent(e).Move? <==> e.kind == Moved
    ensures e.kind == Moved ==> FromEvent(e) == Move(e.column, e.row)
  {
  }

  /** Releases, drags and unrecognised kinds are `Unknown`, and nothing else is. */
  lemma UnknownOtherwise(e: MouseEvent)
    ensures FromEvent(e) == Unknown <==> e.kind.Up? || e.kind.Drag? || e.kind == Other
  {
  }

  /** Every semantic event is produced by some raw event. */
  lemma FromEventOnto(m: Mouse)
    ensures exists e :: FromEvent(e) == m
  {
    var e := match m
      case LeftPress => MouseEvent(Down(Left), 0, 0, {})
      case RightPress => MouseEvent(Down(Right), 0, 0, {})
      case MiddlePress => MouseEvent(Down(Middle), 0, 0, {})
      case ScrollUp => MouseEvent(MouseEventKind.ScrollUp, 0, 0, {})
      case ScrollDown => MouseEvent(MouseEventKind.ScrollDown, 0, 0, {})
      case ScrollLeft => MouseEvent(MouseEventKind.ScrollDown, 0, 0, CONTROL)
      case ScrollRight => MouseEvent(MouseEventKind.ScrollUp, 0, 0, CONTROL)
      case Move(x, y) => MouseEvent(Moved, x, y, {})
      case Unknown => MouseEvent(Other, 0, 0, {});
    assert FromEvent(e) == m;
  }

  /** The label of a move spells out both coordinates in decimal. */
  lemma MoveLabel(x: u16, y: u16)
    ensures Label(Move(x, y)) == "<Mouse::Move(" + Decimal.Format(x as nat) + ", " + Decimal.Format(y as nat) + ")>"
  {
  }

  /**
   * Each remapped scroll is labelled with the opposite raw direction:
   * Ctrl+ScrollDown gives `ScrollLeft`, labelled `<Mouse::Ctrl + ScrollUp>`.
   */
  lemma RemappedScrollLabels()
    ensures Label(ScrollLeft) == "<Mouse::Ctrl + ScrollUp>"
    ensures Label(ScrollRight) == "<Mouse::Ctrl + ScrollDown>"
  {
  }

  /** The label of a Control scroll names the opposite direction to the raw scroll. */
  lemma ControlScrollLabelOpposite(column: u16, row: u16)
    ensures Label(FromEvent(MouseEvent(MouseEventKind.ScrollDown, column, row, CONTROL))) == "<Mouse::Ctrl + ScrollUp>"
    ensures Label(FromEvent(MouseEvent(MouseEventKind.ScrollUp, column, row, CONTROL))) == "<Mouse::Ctrl + ScrollDown>"
  {
  }

  /** Position of the first comma in `s`, or `|s|` when there is none. */
  function FirstComma(s: string): (i: nat)
    ensures i <= |s|
  {
    if |s| == 0 || s[0] == ',' then 0 else 1 + FirstComma(s[1..])
  }

  lemma {:induction false} FirstCommaAfterDigits(d: string, r: string)
    requires Decimal.AllDigits(d)
    ensures FirstComma(d + [','] + r) == |d|
  {
    if |d| > 0 {
      FirstCommaAfterDigits(d[1..], r);
      assert (d + [','] + r)[1..] == d[1..] + [','] + r;
    }
  }

  /** Two digit runs each followed by a comma can only agree if the runs agree. */
  lemma DigitsBeforeComma(d1: string, r1: string, d2: string, r2: string)
    requires Decimal.AllDigits(d1) && Decimal.AllDigits(d2)
    requires d1 + [','] + r1 == d2 + [','] + r2
    ensures d1 == d2 && r1 == r2
  {
    var s := d1 + [','] + r1;
    FirstCommaAfterDigits(d1, r1);
    FirstCommaAfterDigits(d2, r2);
    assert d1 == s[..|d1|] == d2;
    assert r1 == s[|d1| + 1..] == r2;
  }

  /** Distinct semantic events have distinct labels. */
  lemma LabelInjective(a: Mouse, b: Mouse)
    ensures Label(a) == Label(b) ==> a == b
  {
    if Label(a) == Label(b) {
      if a.Move? && b.Move? {
        MoveLabelInjective(a.x, a.y, b.x, b.y);
      } else if a.Move? {
        MoveLabelPrefix(a.x, a.y);
        FixedLabelsDiffer(b);
      } else if b.Move? {
        MoveLabelPrefix(b.x, b.y);
        FixedLabelsDiffer(a);
      }
    }
  }

  lemma MoveLabelPrefix(x: u16, y: u16)
    ensures |Label(Move(x, y))| > |MovePrefix| && Label(Move(x, y))[..|MovePrefix|] == MovePrefix
  {
  }

  /** No fixed label starts like the label of a move. */
  lemma FixedLabelsDiffer(m: Mouse)
    requires !m.Move?
    ensures |Label(m)| < |MovePrefix| || Label(m)[..|MovePrefix|] != MovePrefix
  {
    assert MovePrefix[8] == 'M' && MovePrefix[9] == 'o';
  }

  lemma MoveLabelInjective(x1: u16, y1: u16, x2: u16, y2: u16)
    requires Label(Move(x1, y1)) == Label(Move(x2, y2))
    ensures x1 == x2 && y1 == y2
  {
    var dx1, dy1 := Decimal.Format(x1 as nat), Decimal.Format(y1 as nat);
    var dx2, dy2 := Decimal.Format(x2 as nat), Decimal.Format(y2 as nat);
    var t1, t2 := dx1 + ", " + dy1 + ")>", dx2 + ", " + dy2 + ")>";
    assert Label(Move(x1, y1)) == MovePrefix + t1;
    assert Label(Move(x2, y2)) == MovePrefix + t2;
    assert t1 == Label(Move(x1, y1))[|MovePrefix|..] == t2;
    assert t1 == dx1 + [','] + (" " + dy1 + ")>");
    assert t2 == dx2 + [','] + (" " + dy2 + ")>");
    DigitsBeforeComma(dx1, " " + dy1 + ")>", dx2, " " + dy2 + ")>");
    var u1, u2 := " " + dy1 + ")>", " " + dy2 + ")>";
    assert dy1 == u1[1..|u1| - 2] && dy2 == u2[1..|u2| - 2];
    Decimal.FormatInjective(x1 as nat, x2 as nat);
    Decimal.FormatInjective(y1 as nat, y2 as nat);
  }
}
