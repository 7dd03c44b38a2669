/** The on-screen controller (components/ControllerOverlay.tsx), kept only as
    the table of the keys its buttons send: the input alphabet of the menu. */
module Overlay {
  import Menu

  /** The overlay's buttons: the four arrows, square and cross. */
  datatype Button = Up | Left | Down | Right | Square | Cross

  /** The key each button sends as a synthesized keydown. */
  function ButtonKey(b: Button): string {
    match b
    case Up => "ArrowUp"
    case Left => "ArrowLeft"
    case Down => "ArrowDown"
    case Right => "ArrowRight"
    case Square => "Backspace"
    case Cross => "Enter"
  }

  /** Only the left, right and cross buttons reach the menu; up, down and
      square send keys the menu ignores. */
  lemma ButtonsThatReachMenu(b: Button)
    ensures Menu.KeyAction(ButtonKey(b)) == Menu.Move(Menu.Left) <==> b == Left
    ensures Menu.KeyAction(ButtonKey(b)) == Menu.Move(Menu.Right) <==> b == Right
    ensures Menu.KeyAction(ButtonKey(b)) == Menu.Confirm <==> b == Cross
    ensures Menu.KeyAction(ButtonKey(b)) == Menu.Ignore <==> b in {Up, Down, Square}
  {
  }
}
