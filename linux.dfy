/**
 * The Linux platform layer: a connection is either a Wayland connection or an
 * XCB one, chosen once at start-up, and every window operation is forwarded to
 * the backend of the active variant. A window's platform record is likewise
 * either an XCB or a Wayland record.
 */
module Linux {
  import opened Wrappers
  import opened Events
  import E = Errors
  import Xcb
  import XcbEvents
  import XcbErrors
  import XcbWindow
  import XcbClipboard
  import X11Conn
  import Wayland
  import WaylandWindows

  /** `WindowPlatformData`: the backend's own record of a window. */
  datatype WindowPlatformData = XcbData(xcb: XcbWindow.WindowPlatform) | WaylandData(wayland: Wayland.Window)

  /** `wayland()` (and `wayland_mut()`): the Wayland record; the other variant is `unreachable!`. */
  function WaylandOf(d: WindowPlatformData): (w: Wayland.Window)
    requires d.WaylandData?
    ensures WaylandData(w) == d
  {
    match d
    case WaylandData(w) => w
  }

  /** `xcb()` (and `xcb_mut()`): the XCB record; the other variant is `unreachable!`. */
  function XcbOf(d: WindowPlatformData): (x: XcbWindow.WindowPlatform)
    requires d.XcbData?
    ensures XcbData(x) == d
  {
    match d
    case XcbData(x) => x
  }

  /** The two accessors never both apply: each record belongs to exactly one backend. */
  lemma AccessorsAreExclusive(d: WindowPlatformData)
    ensures d.WaylandData? <==> !d.XcbData?
    ensures d.WaylandData? ==> d == WaylandData(WaylandOf(d))
    ensures d.XcbData? ==> d == XcbData(XcbOf(d))
  {
  }

  /** The platform connection. The XCB variant is the backend state of the `xcb/` modules. */
  datatype Connection = WaylandConn(wl: Wayland.Connection) | XcbConn(xcb: Xcb.XcbInfo)

  /** The objects a dispatch through `c` may touch. */
  function Objects(c: Connection): set<object>
  {
    match c
    case WaylandConn(wl) => {wl}
    case XcbConn(xcb) => {xcb, xcb.conn}
  }

  /** The backend invariant of the active variant. */
  ghost predicate Valid(c: Connection)
    reads Objects(c)
  {
    match c
    case WaylandConn(wl) => wl.Valid()
    case XcbConn(xcb) => xcb.Valid()
  }

  /**
   * `Connection::new`: when `connect_to_env` gives a display (`display` is the
   * first free client object id on it), the Wayland backend is opened on it;
   * only when it fails is the XCB backend opened, whose outcome `xcbNew` is
   * passed through. `from_display` has no error return of its own.
   */
  method NewConnection(display: Option<u32>, xcbNew: Result<Xcb.XcbInfo, E.OSError>) returns (r: Result<Connection, E.OSError>)
    requires display.Some? ==> 0 < display.value < Wayland.CLIENT_ID_LIMIT
    ensures r.Ok? <==> Chosen(display, xcbNew.Ok?).Some?
    ensures r.Ok? ==> (r.value.WaylandConn? <==> Chosen(display, xcbNew.Ok?) == Some(true))
    ensures display.Some? ==> r.Ok? && r.value.WaylandConn? && fresh(r.value.wl) && Valid(r.value)
    ensures display.Some? ==> r.value.wl.nextId == display.value && r.value.wl.windows == map[]
    ensures display.None? && xcbNew.Ok? ==> r == Ok(XcbConn(xcbNew.value))
    ensures display.None? && xcbNew.Err? ==> r == Err(xcbNew.error)
  {
    if display.Some? {
      var wl := new Wayland.Connection.FromDisplay(display.value);
      r := Ok(WaylandConn(wl));
    } else if xcbNew.Ok? {
      r := Ok(XcbConn(xcbNew.value));
    } else {
      r := Err(xcbNew.error);
    }
  }

  /**
   * Which backend `Connection::new` opens: Wayland exactly when a display was
   * found, whatever the XCB outcome would be, and XCB otherwise.
   */
  function Chosen(display: Option<u32>, xcbAvailable: bool): (b: Option<bool>)
    ensures b == Some(true) <==> display.Some?
    ensures b == Some(false) <==> display.None? && xcbAvailable
    ensures b.None? <==> display.None? && !xcbAvailable
  {
    if display.Some? then Some(true) else if xcbAvailable then Some(false) else None
  }

  /**
   * `poll_event`: the Wayland backend's roundtrip and pointer state machine, or
   * the XCB backend's requeue pop and native drain.
   */
  method PollEvent(c: Connection) returns (r: Result<Option<Event>, E.OSError>)
    requires Valid(c)
    modifies Objects(c)
    ensures Valid(c)
    ensures c.WaylandConn? ==>
              var wl := c.wl;
              && wl.calls == old(wl.calls) + [Wayland.Roundtrip]
              && (old(wl.channel) == [] ==> r == Ok(None) && wl.channel == [] && wl.mouseOnSurface == old(wl.mouseOnSurface))
              && (old(wl.channel) != [] ==> var t := Wayland.Track(old(wl.mouseOnSurface), old(wl.channel)[0], wl.windows.Keys);
                                            && wl.channel == old(wl.channel)[1..] && wl.mouseOnSurface == t.0 && r == Ok(t.1))
    ensures c.XcbConn? ==>
              var xcb := c.xcb;
              && (old(xcb.eventsQueue) != [] ==>
                    && r == Ok(Some(old(xcb.eventsQueue)[|old(xcb.eventsQueue)| - 1]))
                    && xcb.eventsQueue == old(xcb.eventsQueue)[..|old(xcb.eventsQueue)| - 1]
                    && xcb.conn.pending == old(xcb.conn.pending)
                    && XcbEvents.SideOf(xcb) == old(XcbEvents.SideOf(xcb))
                    && xcb.windows == old(xcb.windows))
              && (old(xcb.eventsQueue) == [] ==>
                    var d := XcbEvents.Drain(old(xcb.conn.pending), xcb.atoms, xcb.hiddenWindow, old(xcb.windows),
                                             old(XcbEvents.SideOf(xcb)));
                    && xcb.eventsQueue == []
                    && xcb.conn.pending == d.rest && XcbEvents.SideOf(xcb) == d.side
                    && (d.result.Ok? ==> r == Ok(d.result.value))
                    && (d.result.Err? ==> XcbErrors.Convertible(d.result.error)
                                          && r == Err(XcbErrors.FromConnectionError(d.result.error)))
                    && XcbEvents.SizesKept(old(xcb.windows), xcb.windows,
                                           if d.result.Ok? then XcbEvents.ResizeTarget(d.result.value) else None))
  {
    match c
    case WaylandConn(wl) =>
      r := wl.PollEvent();
    case XcbConn(xcb) =>
      r := XcbEvents.PollEvent(xcb);
  }

  /** The window a `create_window` returns, as each backend builds it. */
  datatype NewWindow = WaylandWindow(handle: WaylandWindows.WindowHandle) | XcbWindow(window: XcbWindow.Window)

  /** The id the new window is known by. */
  function IdOf(w: NewWindow): WindowId
  {
    match w
    case WaylandWindow(h) => h.id
    case XcbWindow(x) => x.id
  }

  /** The part of the builder the XCB backend reads. */
  function XcbBuilder(b: WaylandWindows.Builder): (x: XcbWindow.Builder)
    ensures x.width == b.width && x.height == b.height
  {
    XcbWindow.Builder(b.width, b.height)
  }

  /**
   * `create_window`: on Wayland a toplevel registered in the backend's window map
   * under the id it returns; on XCB the window whose id is the first new X id.
   */
  method CreateWindow(c: Connection, builder: WaylandWindows.Builder) returns (r: Result<NewWindow, E.OSError>)
    requires Valid(c)
    requires c.WaylandConn? ==> WaylandWindows.Fits(builder) && c.wl.nextId + 10 < Wayland.CLIENT_ID_LIMIT
    modifies Objects(c)
    ensures c.WaylandConn? ==> && Valid(c) && r.Ok? && r.value.WaylandWindow?
                               && c.wl.windows == old(c.wl.windows)[IdOf(r.value) := r.value.handle.platform]
                               && IdOf(r.value) !in old(c.wl.windows)
    ensures c.XcbConn? ==>
              var xcb := c.xcb;
              var n := |old(xcb.conn.calls)|;
              var win := old(xcb.conn.nextId);
              var width := XcbWindow.SaturateU16(builder.width);
              var height := XcbWindow.SaturateU16(builder.height);
              var setup := XcbWindow.SetupPlan(win, X11Conn.NextXid(win), xcb.screenRoot, width, height,
                                               xcb.atoms.wmProtocols, xcb.atoms.wmDeleteWindow);
              && (!XcbWindow.Clean(xcb.conn.faults, n, 8) ==>
                    && X11Conn.RanUntilFailure(old(xcb.conn.calls), xcb.conn.calls, setup, xcb.conn.faults)
                    && r == Err(XcbErrors.FromXError(xcb.conn.faults[|xcb.conn.calls| - 1])))
              && (XcbWindow.Clean(xcb.conn.faults, n, 8) ==>
                    var b := XcbWindow.BackingStage(xcb.shm, n + 8, xcb.conn.faults, xcb.conn.mmapFailures, win,
                                                    X11Conn.NextXid(X11Conn.NextXid(win)), X11Conn.NextXid(X11Conn.NextXid(X11Conn.NextXid(win))),
                                                    width, height, xcb.rootDepth);
                    && (b.outcome.Err? ==> xcb.conn.calls == old(xcb.conn.calls) + setup + b.calls && r == Err(b.outcome.error))
                    && (b.outcome.Ok? ==> && xcb.conn.calls == old(xcb.conn.calls) + setup + b.calls + [X11Conn.Flush]
                                          && (r.Ok? <==> |xcb.conn.calls| - 1 !in xcb.conn.faults)
                                          && (r.Err? ==> r.error == XcbErrors.FromXError(xcb.conn.faults[|xcb.conn.calls| - 1]))))
    ensures c.XcbConn? && r.Ok? ==>
              var xcb := c.xcb;
              var win := old(xcb.conn.nextId);
              && r.value.XcbWindow?
              && var p := r.value.window.platform;
                 && IdOf(r.value) == FromX11(win)
                 && p.kind == (if xcb.shm then XcbWindow.Shm(X11Conn.NextXid(X11Conn.NextXid(X11Conn.NextXid(win)))) else XcbWindow.Native(xcb.rootDepth))
                 && p.gcontext == X11Conn.NextXid(win) && p.pixmap == X11Conn.NextXid(X11Conn.NextXid(win))
                 && p.width == XcbWindow.SaturateU16(builder.width) && p.height == XcbWindow.SaturateU16(builder.height)
                 && fresh(p.buffer) && p.buffer.Length == XcbWindow.BufferLen(xcb.shm, p.width, p.height)
                 && r.value.window.inner == p.inner
                 && p.inner == XcbWindow.WindowInner((builder.width, builder.height), p.buffer, p.buffer.Length)
  {
    match c
    case WaylandConn(wl) =>
      var h := WaylandWindows.CreateWindow(wl, builder);
      r := Ok(WaylandWindow(h.value));
    case XcbConn(xcb) =>
      var x := XcbWindow.CreateWindow(xcb, XcbBuilder(builder));
      r := if x.Ok? then Ok(XcbWindow(x.value)) else Err(x.error);
  }

  /** `destroy_window`: the window's record is taken with `wayland_mut()` or `xcb_mut()`, so it must match the variant. */
  method DestroyWindow(c: Connection, window: WindowPlatformData) returns (r: Result<(), E.OSError>)
    requires Valid(c) && (c.WaylandConn? <==> window.WaylandData?)
    modifies Objects(c)
    ensures c.WaylandConn? ==> && Valid(c) && r == Ok(())
                               && c.wl.windows == old(c.wl.windows) - {FromWayland(WaylandOf(window).wlSurface)}
    ensures c.XcbConn? ==> var t := XcbWindow.Destroy(|old(c.xcb.conn.calls)|, c.xcb.conn.faults, XcbOf(window));
                           c.xcb.conn.calls == old(c.xcb.conn.calls) + t.calls && r == t.result
  {
    match c
    case WaylandConn(wl) =>
      r := WaylandWindows.DestroyWindow(wl, WaylandOf(window));
    case XcbConn(xcb) =>
      r := XcbWindow.DestroyWindow(xcb, XcbOf(window));
  }

  /** `redraw_window`: the record is read with `wayland()` or `xcb()`; `panicked` is the XCB backend's unwrap failing. */
  method RedrawWindow(c: Connection, id: WindowId, window: WindowPlatformData) returns (panicked: bool)
    requires c.WaylandConn? <==> window.WaylandData?
    modifies Objects(c)
    ensures c.WaylandConn? ==> !panicked && c.wl.calls == old(c.wl.calls) + WaylandWindows.RedrawPlan(WaylandOf(window))
    ensures c.XcbConn? ==> var p := XcbOf(window);
                           && X11Conn.RanUntilFailure(old(c.xcb.conn.calls), c.xcb.conn.calls,
                                                      XcbWindow.RedrawPlan(id, p, p.buffer[..]), c.xcb.conn.faults)
                           && (panicked <==> |c.xcb.conn.calls| - 1 in c.xcb.conn.faults)
  {
    match c
    case WaylandConn(wl) =>
      WaylandWindows.RedrawWindow(wl, WaylandOf(window));
      panicked := false;
    case XcbConn(xcb) =>
      panicked := XcbWindow.RedrawWindow(xcb, id, XcbOf(window));
  }

  /** `load_from_clipboard`: only the XCB backend has one (Wayland's is `todo!`). */
  method LoadFromClipboard(c: Connection, kind: XcbClipboard.ClipboardDataKind, performed: bool)
    returns (r: Result<Option<seq<bv8>>, E.OSError>)
    requires c.XcbConn? && Valid(c)
    requires X11Conn.PropertyAt(c.xcb.conn.properties, c.xcb.hiddenWindow, c.xcb.atoms.clipboardReceiver).kind != c.xcb.atoms.incr
    modifies Objects(c)
    ensures Valid(c)
    ensures var t := XcbClipboard.Load(|old(c.xcb.conn.calls)|, c.xcb.conn.faults,
                                       XcbClipboard.OwnerOf(c.xcb.conn.owners, c.xcb.atoms.clipboard), performed,
                                       kind, c.xcb.atoms, c.xcb.hiddenWindow, old(c.xcb.conn.properties));
            r == t.result && c.xcb.conn.calls == old(c.xcb.conn.calls) + t.calls
  {
    r := XcbClipboard.LoadFromClipboard(c.xcb, kind, performed);
  }
}
