/**
 * The unified event vocabulary shared by every backend: window identifiers, the
 * `Event` / `WindowEvent` union (the union of every variant any backend emits),
 * mouse buttons and the event loop's control flow.
 */
module Events {
  import opened Wrappers

  const U32_LIMIT: int := 0x1_0000_0000
  const U16_LIMIT: int := 0x1_0000

  type u32 = x: int | 0 <= x < U32_LIMIT
  type u16 = x: int | 0 <= x < U16_LIMIT

  /** A window identifier wrapping a native 32-bit handle; ordered by that handle. */
  datatype WindowId = WindowId(raw: u32)

  /** A Wayland surface id as a window id; the id keeps the protocol id unchanged. */
  function FromWayland(wayland: u32): (id: WindowId)
    ensures id.raw == wayland
  {
    WindowId(wayland)
  }

  /** The Wayland protocol id of a window id: the inverse of `FromWayland`. */
  function ToWayland(id: WindowId): (wayland: u32)
    ensures FromWayland(wayland) == id
  {
    id.raw
  }

  /** An X11 window as a window id: the same id the Wayland constructor gives for the same number. */
  function FromX11(x11: u32): (id: WindowId)
    ensures id == FromWayland(x11)
    ensures ToWayland(id) == x11
  {
    WindowId(x11)
  }

  /** Event coordinates and sizes are `f64` in the library; they are integers here. */
  type Coord = int

  /** The `MouseButtons` bit set: LEFT = 1, RIGHT = 2, MIDDLE = 4; no other bit. */
  const LEFT_BUTTON: bv8 := 0x01
  const RIGHT_BUTTON: bv8 := 0x02
  const MIDDLE_BUTTON: bv8 := 0x04
  const KNOWN_BUTTONS: bv8 := 0x07

  type MouseButtons = b: bv8 | b & !KNOWN_BUTTONS == 0

  /** `MouseButtons::from_bits`: defined exactly when no unknown bit is set. */
  function MouseButtonsFromBits(bits: bv8): (r: Option<MouseButtons>)
    ensures r.Some? <==> bits & !KNOWN_BUTTONS == 0
    ensures r.Some? ==> r.value == bits
  {
    if bits & !KNOWN_BUTTONS == 0 then Some(bits) else None
  }

  datatype MouseButton = Left | Right | Middle | Side | Extra

  datatype ButtonState = Released | Pressed

  datatype Rect = Rect(x: Coord, y: Coord, width: Coord, height: Coord)

  datatype WindowEvent =
    | CloseRequested
    | Dirted
    | Damaged(rect: Rect, count: nat)
    | Destroy
    | Resize(width: Coord, height: Coord)
    | MouseUp(x: Coord, y: Coord, buttons: MouseButtons)
    | MouseDown(x: Coord, y: Coord, buttons: MouseButtons)
    | MouseMove(x: Coord, y: Coord)
    | MouseEnter(x: Coord, y: Coord)
    | MouseLeave(x: Coord, y: Coord)
    | MouseButton(x: Coord, y: Coord, button: MouseButton, state: ButtonState)

  datatype Event =
    | WindowEvent(window: WindowId, event: WindowEvent)
    | MainEventsCleared

  datatype ControlFlow = Wait | Poll | Exit

  /**
   * Whether an empty poll hands `MainEventsCleared` to the handler: always under
   * `Poll`, and otherwise only when the previous iteration delivered an event.
   */
  predicate IdleTick(cf: ControlFlow, hadEvent: bool)
  {
    cf.Poll? || hadEvent
  }
}
