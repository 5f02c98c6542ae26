/** The value types every other module talks about: input events, screens, and grid positions. */
module Core {

  datatype Option<+T> = None | Some(value: T)

  datatype Edge = Left | Right | Top | Bottom {
    function Opposite(): Edge {
      match this
      case Left => Right
      case Right => Left
      case Top => Bottom
      case Bottom => Top
    }
  }

  /** An integer cell of the screen grid; not a pixel coordinate. */
  datatype GridPosition = GridPosition(x: int, y: int)

  /** The stable identity of a screen. */
  datatype ScreenKey = ScreenKey(ownerId: string, screenIndex: nat)

  /** Geometry as a platform reports it. */
  datatype ScreenInfo = ScreenInfo(x: int, y: int, width: int, height: int, dpi: int, name: string, primary: bool)

  predicate ValidRect(info: ScreenInfo) {
    info.width > 0 && info.height > 0
  }

  /** A pixel of one screen. */
  datatype ScreenPoint = ScreenPoint(key: ScreenKey, x: int, y: int)

  predicate Inside(x: int, y: int, info: ScreenInfo) {
    0 <= x < info.width && 0 <= y < info.height
  }

  datatype Button = NoButton | LeftButton | RightButton | MiddleButton

  /** Only F12 is special to the router; every other key is a code. */
  datatype Key = F12 | OtherKey(code: nat)

  datatype MouseMove = MouseMove(x: int, y: int, screenIndex: nat, deltaX: int, deltaY: int)

  datatype InputEvent =
    | KeyEvent(key: Key, modifiers: nat, nativeCode: nat, repeated: bool, release: bool)
    | ButtonEvent(x: int, y: int, screenIndex: nat, button: Button, release: bool)
    | MoveEvent(move: MouseMove)
    | WheelEvent(x: int, y: int, deltaX: int, deltaY: int)

  function Clamp(v: int, lo: int, hi: int): (r: int)
    requires lo <= hi
    ensures lo <= r <= hi
    ensures lo <= v <= hi ==> r == v
    ensures (v <= lo ==> r == lo) && (hi <= v ==> r == hi)
  {
    if v < lo then lo else if hi < v then hi else v
  }

  function Max(a: int, b: int): int {
    if a < b then b else a
  }
}
