/**
 * The Wayland backend's connection: the requests it sends, the event channel fed
 * by its protocol handlers, the pointer state `mouse_on_surface`, the windows it
 * tracks and the data offers of its data device.
 *
 * Protocol handlers (the pointer filter, the seat, the data device, `xdg_wm_base`)
 * are methods the dispatcher may call during a roundtrip; the roundtrip itself
 * is one entry of the request log.
 */
module Wayland {
  import opened Wrappers
  import opened Events
  import opened Surfaces
  import opened WaylandDataExchange
  import EventLoops
  import E = Errors

  /** Client-side object ids lie below 0xFF000000; the rest of the range is the server's. */
  const CLIENT_ID_LIMIT: int := 0xFF00_0000

  /** The `pointer` capability bit of `wl_seat`. */
  const POINTER_CAPABILITY: bv32 := 0x01

  /** The requests (and the few libc calls) the backend issues, in order. */
  datatype Call =
    | Roundtrip
    | Pong(serial: u32)
    | GetPointer(pointer: u32)
    | CreateSurface(surface: u32)
    | GetXdgSurface(xdgSurface: u32, surface: u32)
    | GetToplevel(toplevel: u32, xdgSurface: u32)
    | SetTitle(toplevel: u32, title: string)
    | AckConfigure(xdgSurface: u32, serial: u32)
    | Commit(surface: u32)
    | TempFile(length: int)
    | CreatePool(pool: u32, size: int)
    | CreateBuffer(buffer: u32, pool: u32, offset: int, width: int, height: int, stride: int, format: Format)
    | Attach(surface: u32, buffer: u32)
    | Mmap(length: int)
    | Munmap(length: int)
    | GetSubsurface(subsurface: u32, surface: u32, parent: u32)
    | SetPosition(subsurface: u32, x: int, y: int)
    | Damage(surface: u32, x: int, y: int, width: int, height: int)
    | DestroyToplevel(toplevel: u32)
    | DestroySurface(surface: u32)

  /** `Frame`: the decoration surface of a framed window. */
  datatype Frame = Frame(wlSurface: u32, surface: Surface, frameWidth: int, headerBarHeight: int)

  /** `wayland::Window`: the toplevel, the buffer size, the content surface and an optional frame. */
  datatype Window = Window(xdgToplevel: u32, bufX: int, bufY: int, surface: Surface, wlSurface: u32, frame: Option<Frame>)

  /** `wl_pointer` events as the pointer filter receives them. */
  datatype WlButtonState = WlReleased | WlPressed | WlUnknownState(raw: u32)
  datatype PointerEvent =
    | Enter(surface: u32, surfaceX: Coord, surfaceY: Coord)
    | Leave(surface: u32)
    | Motion(surfaceX: Coord, surfaceY: Coord)
    | Button(button: bv32, state: WlButtonState)
    | OtherPointerEvent

  datatype SeatEvent = Capabilities(capabilities: bv32) | Name(name: string)

  datatype DataDeviceEvent = OfferIntroduced(offer: u32) | Selection(selected: Option<u32>) | OtherDataDeviceEvent

  /** `mouse_on_surface`: the surface under the pointer and the last known position. */
  datatype PointerAt = PointerAt(surface: u32, x: Coord, y: Coord)

  /** The evdev number of a mouse button, `BTN_LEFT` (0x110) upwards. */
  function ButtonNumber(b: MouseButton): (n: bv32)
    ensures n < 5
  {
    match b
    case Left => 0
    case Right => 1
    case Middle => 2
    case Side => 3
    case Extra => 4
  }

  /**
   * The filter's button decoding: a code without both bits of 0x110 is dropped,
   * then its low nibble 0..4 names the button and any other nibble is dropped.
   */
  function DecodeButton(button: bv32): (r: Option<MouseButton>)
    ensures r.Some? <==> button & 0x110 == 0x110 && button & 0xf < 5
    ensures r.Some? ==> ButtonNumber(r.value) == button & 0xf
  {
    if button & 0x110 != 0x110 then None
    else match button & 0xf
      case 0 => Some(Left)
      case 1 => Some(Right)
      case 2 => Some(Middle)
      case 3 => Some(Side)
      case 4 => Some(Extra)
      case _ => None
  }

  /** `BTN_LEFT`..`BTN_EXTRA` decode to the five buttons in order. */
  lemma EvdevButtons()
    ensures DecodeButton(0x110) == Some(Left) && DecodeButton(0x111) == Some(Right)
    ensures DecodeButton(0x112) == Some(Middle) && DecodeButton(0x113) == Some(Side)
    ensures DecodeButton(0x114) == Some(Extra)
    ensures DecodeButton(0x115) == None && DecodeButton(0x10f) == None
  {
  }

  /** The mask is loose: any code carrying bits 0x110, such as 0x130, decodes by its low nibble. */
  lemma LooseMask()
    ensures DecodeButton(0x130) == Some(Left)
    ensures DecodeButton(0x1f1) == Some(Right)
  {
  }

  function DecodeState(s: WlButtonState): (r: Option<ButtonState>)
    ensures r.Some? <==> !s.WlUnknownState?
  {
    match s
    case WlReleased => Some(Released)
    case WlPressed => Some(Pressed)
    case WlUnknownState(_) => None
  }

  /**
   * The pointer filter: what it sends on the channel for one `wl_pointer` event.
   * Enter and Leave name their surface; Motion and Button name window 0 and are
   * given their window by `poll_event`; a Button also has position 0.0.
   */
  function FilterPointer(ev: PointerEvent): (r: Option<Event>)
    ensures ev.Button? ==> (r.Some? <==> DecodeButton(ev.button).Some? && DecodeState(ev.state).Some?)
    ensures r.Some? ==> r.value.WindowEvent? && IsPointerEvent(r.value.event)
    ensures ev.OtherPointerEvent? ==> r.None?
    ensures ev.Enter? ==> r == Some(WindowEvent(FromWayland(ev.surface), MouseEnter(ev.surfaceX, ev.surfaceY)))
                          && ToWayland(r.value.window) == ev.surface
    ensures ev.Leave? ==> r == Some(WindowEvent(FromWayland(ev.surface), MouseLeave(0, 0)))
                          && ToWayland(r.value.window) == ev.surface
    ensures ev.Motion? ==> r == Some(WindowEvent(FromWayland(0), MouseMove(ev.surfaceX, ev.surfaceY)))
    ensures ev.Button? && r.Some? ==>
              r.value == WindowEvent(FromWayland(0), MouseButton(0, 0, DecodeButton(ev.button).value, DecodeState(ev.state).value))
  {
    match ev
    case Enter(surface, x, y) => Some(WindowEvent(FromWayland(surface), MouseEnter(x, y)))
    case Leave(surface) => Some(WindowEvent(FromWayland(surface), MouseLeave(0, 0)))
    case Motion(x, y) => Some(WindowEvent(FromWayland(0), MouseMove(x, y)))
    case Button(button, state) =>
      var b := DecodeButton(button);
      var s := DecodeState(state);
      if b.None? || s.None? then None
      else Some(WindowEvent(FromWayland(0), MouseButton(0, 0, b.value, s.value)))
    case OtherPointerEvent => None
  }

  predicate IsPointerEvent(e: WindowEvent)
  {
    e.MouseEnter? || e.MouseLeave? || e.MouseMove? || e.MouseButton?
  }

  /**
   * The MouseLeave arm after its `store(None)`: the pointer state it then loads is
   * `loaded`; only a state on the same window would give the event a position.
   */
  function LeaveArm(loaded: Option<PointerAt>, window: WindowId, tracked: set<WindowId>): (r: Option<Event>)
    ensures r.Some? ==> loaded.Some? && loaded.value.surface == ToWayland(window) && window in tracked
  {
    match loaded
    case Some(p) =>
      if p.surface == ToWayland(window) then
        if window in tracked then Some(WindowEvent(window, MouseLeave(p.x, p.y))) else None
      else None
    case None => None
  }

  /**
   * `poll_event` on one received event: the new pointer state and what is handed
   * out. Pointer events are rewritten and filtered against the tracked windows;
   * every other event passes unchanged.
   */
  function Track(state: Option<PointerAt>, ev: Event, tracked: set<WindowId>): (r: (Option<PointerAt>, Option<Event>))
    ensures r.1.Some? && r.1.value.WindowEvent? && IsPointerEvent(r.1.value.event) ==> r.1.value.window in tracked
    ensures !(ev.WindowEvent? && IsPointerEvent(ev.event)) ==> r == (state, Some(ev))
  {
    match ev
    case WindowEvent(window, MouseEnter(x, y)) =>
      (Some(PointerAt(ToWayland(window), x, y)), if window in tracked then Some(ev) else None)
    case WindowEvent(window, MouseLeave(_, _)) =>
      (None, LeaveArm(None, window, tracked))
    case WindowEvent(_, MouseMove(x, y)) =>
      if state.None? then (state, None)
      else
        var surface := state.value.surface;
        (Some(PointerAt(surface, x, y)),
         if FromWayland(surface) in tracked then Some(WindowEvent(FromWayland(surface), MouseMove(x, y))) else None)
    case WindowEvent(_, MouseButton(_, _, button, bstate)) =>
      if state.None? then (state, None)
      else
        var p := state.value;
        (Some(PointerAt(p.surface, p.x, p.y)),
         if FromWayland(p.surface) in tracked
         then Some(WindowEvent(FromWayland(p.surface), MouseButton(p.x, p.y, button, bstate))) else None)
    case _ => (state, Some(ev))
  }

  /** An Enter stores its surface and position, and is handed out exactly when its window is tracked. */
  lemma EnterStores(state: Option<PointerAt>, w: WindowId, x: Coord, y: Coord, tracked: set<WindowId>)
    ensures var r := Track(state, WindowEvent(w, MouseEnter(x, y)), tracked);
            && r.0 == Some(PointerAt(ToWayland(w), x, y))
            && (r.1.Some? <==> w in tracked)
            && (r.1.Some? ==> r.1.value == WindowEvent(w, MouseEnter(x, y)))
  {
  }

  /** As written, a Leave clears the pointer state and is never handed out. */
  lemma LeaveNeverForwarded(state: Option<PointerAt>, w: WindowId, x: Coord, y: Coord, tracked: set<WindowId>)
    ensures Track(state, WindowEvent(w, MouseLeave(x, y)), tracked) == (None, None)
  {
  }

  /**
   * Motion and Button without a pointer state are dropped; with one, they name the
   * stored surface. Motion moves the stored position; Button takes it and keeps it.
   */
  lemma PointerEventsFollowStoredSurface(p: PointerAt, w: WindowId, e: WindowEvent, tracked: set<WindowId>)
    requires e.MouseMove? || e.MouseButton?
    ensures Track(None, WindowEvent(w, e), tracked) == (None, None)
    ensures var r := Track(Some(p), WindowEvent(w, e), tracked);
            && (r.1.Some? <==> FromWayland(p.surface) in tracked)
            && (r.1.Some? ==> r.1.value.window == FromWayland(p.surface))
            && (e.MouseMove? ==> r.0 == Some(PointerAt(p.surface, e.x, e.y))
                                 && (r.1.Some? ==> r.1.value.event == e))
            && (e.MouseButton? ==> r.0 == Some(p)
                                   && (r.1.Some? ==> r.1.value.event == MouseButton(p.x, p.y, e.button, e.state)))
  {
  }

  /** Successive polls over the received events: the final pointer state and what was handed out. */
  function TrackAll(state: Option<PointerAt>, evs: seq<Event>, tracked: set<WindowId>): (Option<PointerAt>, seq<Event>)
    decreases |evs|
  {
    if evs == [] then (state, [])
    else
      var step := Track(state, evs[0], tracked);
      var rest := TrackAll(step.0, evs[1..], tracked);
      (rest.0, EventLoops.OptSeq(step.1) + rest.1)
  }

  predicate IsEnter(e: Event)
  {
    e.WindowEvent? && e.event.MouseEnter?
  }

  /**
   * Without an Enter, the pointer state stays empty, so no pointer event at all is
   * handed out: not the Leave, and no Motion or Button.
   */
  lemma {:induction false} NoPointerEventsWithoutEnter(evs: seq<Event>, tracked: set<WindowId>)
    requires forall i :: 0 <= i < |evs| ==> !IsEnter(evs[i])
    ensures TrackAll(None, evs, tracked).0 == None
    ensures forall e :: e in TrackAll(None, evs, tracked).1 ==> !(e.WindowEvent? && IsPointerEvent(e.event))
    decreases |evs|
  {
    if evs != [] {
      assert !IsEnter(evs[0]);
      var step := Track(None, evs[0], tracked);
      assert step.0 == None;
      assert step.1.Some? ==> step.1 == Some(evs[0]) && !(evs[0].WindowEvent? && IsPointerEvent(evs[0].event));
      forall i | 0 <= i < |evs[1..]|
        ensures !IsEnter(evs[1..][i])
      {
        assert evs[1..][i] == evs[i + 1];
      }
      NoPointerEventsWithoutEnter(evs[1..], tracked);
    }
  }

  /** Whether a series of seat events makes the handler create a pointer, starting from `created`. */
  function PointersCreated(created: bool, evs: seq<SeatEvent>): nat
    decreases |evs|
  {
    if evs == [] then 0
    else
      var now := !created && CreatesPointer(evs[0]);
      (if now then 1 else 0) + PointersCreated(created || now, evs[1..])
  }

  predicate CreatesPointer(ev: SeatEvent)
  {
    ev.Capabilities? && ev.capabilities & POINTER_CAPABILITY != 0
  }

  /**
   * At most one pointer is ever created, and one is created exactly when none was
   * before and some event announces the pointer capability.
   */
  lemma {:induction false} AtMostOnePointer(created: bool, evs: seq<SeatEvent>)
    ensures PointersCreated(created, evs) <= 1
    ensures created ==> PointersCreated(created, evs) == 0
    ensures !created ==> (PointersCreated(created, evs) == 1 <==> exists i :: 0 <= i < |evs| && CreatesPointer(evs[i]))
    decreases |evs|
  {
    if evs != [] {
      var now := !created && CreatesPointer(evs[0]);
      AtMostOnePointer(created || now, evs[1..]);
      if !created && !now {
        if exists i :: 0 <= i < |evs| && CreatesPointer(evs[i]) {
          var i :| 0 <= i < |evs| && CreatesPointer(evs[i]);
          assert i > 0 && evs[1..][i - 1] == evs[i];
        }
        if exists i :: 0 <= i < |evs[1..]| && CreatesPointer(evs[1..][i]) {
          var i :| 0 <= i < |evs[1..]| && CreatesPointer(evs[1..][i]);
          assert evs[i + 1] == evs[1..][i];
        }
      }
    }
  }

  /** The offer ids kept after one data-device event. */
  function OfferIds(ids: set<u32>, ev: DataDeviceEvent): set<u32>
  {
    match ev
    case OfferIntroduced(id) => ids + {id}
    case Selection(Some(id)) => ids - {id}
    case _ => ids
  }

  function OfferIdsAll(ids: set<u32>, evs: seq<DataDeviceEvent>): set<u32>
    decreases |evs|
  {
    if evs == [] then ids else OfferIdsAll(OfferIds(ids, evs[0]), evs[1..])
  }

  /** What the last event about `id` did: `Some(true)` introduced it, `Some(false)` selected it. */
  function LastTouch(evs: seq<DataDeviceEvent>, id: u32): Option<bool>
    decreases |evs|
  {
    if evs == [] then None
    else
      var later := LastTouch(evs[1..], id);
      if later.Some? then later
      else match evs[0]
        case OfferIntroduced(o) => if o == id then Some(true) else None
        case Selection(Some(o)) => if o == id then Some(false) else None
        case _ => None
  }

  /**
   * An offer is kept exactly when the last event about it introduced it; one no
   * event mentions keeps its previous presence.
   */
  lemma {:induction false} OffersFollowLastEvent(ids: set<u32>, evs: seq<DataDeviceEvent>, id: u32)
    ensures id in OfferIdsAll(ids, evs) <==> if LastTouch(evs, id).Some? then LastTouch(evs, id).value else id in ids
    decreases |evs|
  {
    if evs != [] {
      OffersFollowLastEvent(OfferIds(ids, evs[0]), evs[1..], id);
    }
  }

  class Connection {
    var calls: seq<Call>
    var nextId: int
    /** The flume channel the handlers send on and `poll_event` receives from. */
    var channel: seq<Event>
    var windows: map<WindowId, Window>
    var mouseOnSurface: Option<PointerAt>
    var dataOffers: map<u32, DataOffer>
    var pointerCreated: bool
    /** The window id each toplevel's `Close` handler was created with. */
    var closeTargets: map<u32, WindowId>

    /** Every object the client created has an id below `nextId`. */
    ghost predicate Valid()
      reads this`nextId, this`windows, this`closeTargets
    {
      && 0 < nextId <= CLIENT_ID_LIMIT
      && (forall w :: w in windows ==> w.raw < nextId)
      && (forall t :: t in closeTargets ==> t < nextId)
    }

    /**
     * `from_display`, after its globals are bound (objects below `firstId`): empty
     * channel, maps and pointer state. Its only failures are panics, so it
     * always succeeds here.
     */
    constructor FromDisplay(firstId: u32)
      requires 0 < firstId < CLIENT_ID_LIMIT
      ensures Valid()
      ensures calls == [Roundtrip] && nextId == firstId && channel == []
      ensures windows == map[] && mouseOnSurface == None && dataOffers == map[]
      ensures !pointerCreated && closeTargets == map[]
    {
      calls := [Roundtrip];
      nextId := firstId;
      channel := [];
      windows := map[];
      mouseOnSurface := None;
      dataOffers := map[];
      pointerCreated := false;
      closeTargets := map[];
    }

    /** Sends one request. */
    method Request(c: Call)
      modifies this`calls
      ensures calls == old(calls) + [c]
    {
      calls := calls + [c];
    }

    /** Sends a run of requests, in order. */
    method RequestAll(cs: seq<Call>)
      modifies this`calls
      ensures calls == old(calls) + cs
    {
      calls := calls + cs;
    }

    /** A fresh client object id. */
    method NewObject() returns (id: u32)
      requires 0 < nextId < CLIENT_ID_LIMIT
      modifies this`nextId
      ensures id == old(nextId) && nextId == old(nextId) + 1
    {
      id := nextId;
      nextId := nextId + 1;
    }

    /** The pointer filter: the event it translates to, if any, goes on the channel. */
    method OnPointer(ev: PointerEvent)
      modifies this`channel
      ensures channel == old(channel) + EventLoops.OptSeq(FilterPointer(ev))
    {
      match ev {
        case Enter(surface, x, y) =>
          channel := channel + [WindowEvent(FromWayland(surface), MouseEnter(x, y))];
        case Leave(surface) =>
          channel := channel + [WindowEvent(FromWayland(surface), MouseLeave(0, 0))];
        case Motion(x, y) =>
          channel := channel + [WindowEvent(FromWayland(0), MouseMove(x, y))];
        case Button(button, state) =>
          var b := DecodeButton(button);
          if b.None? {
            return;
          }
          var s := DecodeState(state);
          if s.None? {
            return;
          }
          channel := channel + [WindowEvent(FromWayland(0), MouseButton(0, 0, b.value, s.value))];
        case OtherPointerEvent =>
      }
    }

    /** The `xdg_wm_base` handler answers each ping with a pong. */
    method OnPing(serial: u32)
      modifies this`calls
      ensures calls == old(calls) + [Pong(serial)]
    {
      Request(Pong(serial));
    }

    /** The seat handler: the first event announcing a pointer creates one; later ones do nothing. */
    method OnSeat(ev: SeatEvent)
      requires Valid() && nextId < CLIENT_ID_LIMIT
      modifies this`pointerCreated, this`calls, this`nextId
      ensures Valid()
      ensures var now := !old(pointerCreated) && CreatesPointer(ev);
              && pointerCreated == (old(pointerCreated) || now)
              && calls == old(calls) + (if now then [GetPointer(old(nextId))] else [])
              && nextId == old(nextId) + (if now then 1 else 0)
    {
      if ev.Capabilities? {
        if !pointerCreated && ev.capabilities & POINTER_CAPABILITY != 0 {
          pointerCreated := true;
          var pointer := NewObject();
          Request(GetPointer(pointer));
        }
      }
    }

    /** The data-device handler: a new offer is stored under its id; a selected one is dropped. */
    method OnDataDevice(ev: DataDeviceEvent)
      modifies this`dataOffers
      ensures dataOffers.Keys == OfferIds(old(dataOffers).Keys, ev)
      ensures ev.OfferIntroduced? ==> && fresh(dataOffers[ev.offer])
                                      && dataOffers[ev.offer].id == ev.offer && dataOffers[ev.offer].mimeTypes == []
                                      && dataOffers == old(dataOffers)[ev.offer := dataOffers[ev.offer]]
      ensures ev.Selection? ==> dataOffers == if ev.selected.Some? then old(dataOffers) - {ev.selected.value} else old(dataOffers)
      ensures ev.OtherDataDeviceEvent? ==> dataOffers == old(dataOffers)
    {
      if ev.OfferIntroduced? {
        var offer := new DataOffer.FromWl(ev.offer);
        dataOffers := dataOffers[ev.offer := offer];
      } else if ev.Selection? && ev.selected.Some? {
        dataOffers := dataOffers - {ev.selected.value};
      }
    }

    /**
     * `poll_event`: a roundtrip, then at most one event from the channel, run
     * through the pointer state machine against the tracked windows.
     */
    method PollEvent() returns (r: Result<Option<Event>, E.OSError>)
      modifies this`calls, this`channel, this`mouseOnSurface
      ensures calls == old(calls) + [Roundtrip]
      ensures old(channel) == [] ==> r == Ok(None) && channel == [] && mouseOnSurface == old(mouseOnSurface)
      ensures old(channel) != [] ==> var t := Track(old(mouseOnSurface), old(channel)[0], windows.Keys);
                                     && channel == old(channel)[1..] && mouseOnSurface == t.0 && r == Ok(t.1)
    {
      Request(Roundtrip);
      if channel == [] {
        return Ok(None);
      }
      var event := channel[0];
      channel := channel[1..];
      match event {
        case WindowEvent(window, MouseEnter(x, y)) =>
          mouseOnSurface := Some(PointerAt(ToWayland(window), x, y));
          r := if window in windows then Ok(Some(event)) else Ok(None);
        case WindowEvent(window, MouseLeave(_, _)) =>
          mouseOnSurface := None;
          var loaded := mouseOnSurface;
          r := Ok(LeaveArm(loaded, window, windows.Keys));
        case WindowEvent(_, MouseMove(x, y)) =>
          if mouseOnSurface.None? {
            return Ok(None);
          }
          var surface := mouseOnSurface.value.surface;
          mouseOnSurface := Some(PointerAt(surface, x, y));
          if FromWayland(surface) in windows {
            r := Ok(Some(WindowEvent(FromWayland(surface), MouseMove(x, y))));
          } else {
            r := Ok(None);
          }
        case WindowEvent(_, MouseButton(_, _, button, state)) =>
          if mouseOnSurface.None? {
            return Ok(None);
          }
          var p := mouseOnSurface.value;
          var surface, x, y := p.surface, p.x, p.y;
          mouseOnSurface := Some(PointerAt(surface, x, y));
          if FromWayland(surface) in windows {
            r := Ok(Some(WindowEvent(FromWayland(surface), MouseButton(x, y, button, state))));
          } else {
            r := Ok(None);
          }
        case _ =>
          r := Ok(Some(event));
      }
    }
  }
}
