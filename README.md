# moving: event sourcing and pixel surfaces on Linux, in Dafny

This project models the Linux core of `moving`, a small windowing library. An
application opens a connection to the display system: Wayland first, X11 through
XCB when no Wayland display is found. It then creates windows that each own a
pixel `Surface` and runs an event loop that hands unified `Event`s to a handler.
The model covers:

- the surface's bounds-checked pixel write;
- the application event loop: the `Wait`/`Poll`/`Exit` control flow, the
  edge-triggered `MainEventsCleared` tick, and teardown of a destroyed window
  before the handler sees its `Destroy`;
- the XCB backend, in two revisions:
  - the older `xcb.rs`, with its own loop, redraw pass and teardown;
  - the newer `xcb/` modules, with event translation and requeue, window
    creation with shared-memory or private backing, release order, the
    clipboard load flow and error conversion;
- the Wayland backend:
  - the pointer filter and the pointer state machine in `poll_event`;
  - the seat and data-device handlers and data offers;
  - window creation, including the framed window with its painted 20-row
    header bar, and window destruction;
- the platform layer that chooses a backend and dispatches to it.

Native calls are not run. Each backend keeps a log of the requests it makes:
`calls`, a sequence of request values. X11 failures come from a fault oracle,
`faults: map<nat, XError>`, that gives the error, if any, of the request at each
log position. The native event source is a finite script of pending poll results.
The Wayland event channel is a plain sequence. Handlers that the source registers
as closures are methods that the model calls with the protocol event.

Modules, one per source file:

- `Surfaces`: `src/surface.rs`.
- `EventLoops`: `src/event_loop.rs`. `RunLoop` is the loop written as a
  function; `EventLoop.Run` runs the loop imperatively and is proved to equal it.
- `Events`, `Errors`, `X11Rb`, `Wrappers`: shared vocabularies. `Events` holds
  the event datatypes and the `WindowId` constructors of `linux/mod.rs`.
  `Errors` holds `OSError`. `X11Rb` holds the x11rb error types.
- `X11Conn`: the X connection, as a request log with a fault oracle.
- `Xcb`: the fields of `XcbInfo` in `xcb/mod.rs` that the modelled functions
  use, plus the window map that `xcb/events.rs` reads as `self.windows`, and the
  root window and root depth of the screen the set-up connected to.
- `XcbEvents`, `XcbWindow`, `XcbClipboard`, `XcbErrors`: the `xcb/` modules.
- `XcbHandles`: `xcb.rs`.
- `Wayland`: `wayland/mod.rs`.
- `WaylandWindows`: `wayland/window/mod.rs` and `wayland/window/frame.rs`.
- `WaylandDataExchange`: `wayland/data_exchange.rs`.
- `Linux`: `linux/mod.rs`.

Behaviour of the code that the model keeps as written:

- A pixel write is bounds-checked against the buffer, not against the surface's
  width and height: the only check is `(y * width + x + 1) * 4 <= buffer_len`.
  So a column past the row's end writes into the next row (`PutPixelPastRowEnd`),
  and the u32 offset arithmetic wraps (`PixelOffsetWraps`).
- As written, Wayland never forwards `MouseLeave`: the arm stores `None` and then
  loads it back (`LeaveNeverForwarded`).
- A framed Wayland window registers under its content surface. Its toplevel's
  `Close` handler was bound earlier to the frame surface's id, so the
  `CloseRequested` it sends names an id that is not in the window map
  (`WaylandWindows.CreateWindow`).

## Model

| member | source | states |
|---|---|---|
| Surfaces.DefaultFormat | src/surface.rs:16-20 | the default pixel format is `Argb8888` |
| Surfaces.PixelOffset | src/surface.rs:61 | the cell index is `y * width + x` whenever that fits in u32 (the source's arithmetic is u32) |
| Surfaces.WriteCell | src/surface.rs:65-67 | storing a u32 into cell `k` keeps the length, leaves every byte outside the cell alone, and reading the cell back gives the value |
| Surfaces.PutPixelEffect | src/surface.rs:59-68 | a pixel write leaves the buffer unchanged when the cell does not fit in `buffer_len`; otherwise the written cell reads back as the pixel and every other cell keeps its old value |
| Surfaces.PutPixelPastRowEnd | src/surface.rs:61-62 | a column at or past `width` addresses the same cell as column `x - width` of the next row, and passes the bound check exactly when that one does |
| Surfaces.PixelOffsetWraps | src/surface.rs:61 | row 65536 of a 65536-wide surface wraps to cell 0 and passes the bound check |
| Surfaces.Surface.constructor | src/surface.rs:36-38 | a surface keeps the format and the shared buffer it was made with |
| Surfaces.Surface.Size | src/surface.rs:52-55 | the size is the pair of the width and the height of one metadata snapshot |
| Surfaces.Surface.PutU32Pixel | src/surface.rs:59-68 | the buffer after the write is the bounds-checked one-cell write of the old buffer; the metadata and the pointer are unchanged |
| Surfaces.Surface.DataMut | src/surface.rs:70-74 | the mutable view is the current buffer, exactly `buffer_len` bytes long |
| EventLoops.RunFacts | src/event_loop.rs:37-70 | every iteration of a run polls the next script entry, hands over a polled event or a `MainEventsCleared` tick as the flag says, tears down a destroyed tracked window, and carries its control flow, flag and tracked set to the next; the run ends by `Exit`, a failed poll, a failed teardown of a tracked window, or the end of the script; every teardown in the trace succeeded |
| EventLoops.FailedTeardownEndsTheRun | src/event_loop.rs:44-51 | a run that panics stops at a failed poll or at the `Destroy` of a still-tracked window whose `destroy_window` fails, before the handler receives it; every teardown before it succeeded |
| EventLoops.Aborted | src/event_loop.rs:48-51 | names the window whose failed teardown ended the run, and only for a panicked run that stopped at a polled `Destroy` |
| EventLoops.NoHandlerCallAfterExit | src/event_loop.rs:43-56 | no iteration starts under `Exit`, so the handler is not called again once it set `Exit` |
| EventLoops.ExitEndsTheRun | src/event_loop.rs:43-69 | a run that exits ends right after a handler call that returned `Exit` |
| EventLoops.PolledEventsDelivered | src/event_loop.rs:44-57 | iteration `k` runs poll `k`, and a polled event is handed to the handler in that iteration |
| EventLoops.PollTicksOnEveryEmptyPoll | src/event_loop.rs:59-60 | under `Poll` every empty poll hands over `MainEventsCleared` |
| EventLoops.WaitTickIsEdgeTriggered | src/event_loop.rs:57-66 | under `Wait` an empty poll hands over `MainEventsCleared` exactly when the previous iteration polled an event |
| EventLoops.TeardownPrecedesHandler | src/event_loop.rs:46-56 | a `Destroy` of a tracked window tears it down before the handler is called, so the handler no longer sees it tracked; an untracked window's `Destroy` is passed on without teardown |
| EventLoops.LiveShrinks | src/event_loop.rs:48-52 | the set of tracked windows only shrinks along a run |
| EventLoops.DestroyIsIdempotent | src/event_loop.rs:48-52 | no window is torn down twice, however many `Destroy` events arrive for it |
| EventLoops.EventLoop.constructor | src/event_loop.rs:21-25 | a new loop tracks no window and has destroyed none |
| EventLoops.EventLoop.CreateWindow | src/event_loop.rs:27-35 | a created window is registered under its id; a platform failure is returned unchanged and registers nothing |
| EventLoops.EventLoop.Run | src/event_loop.rs:37-70 | the imperative loop, started under `Poll`, produces exactly the trace and outcome of `RunLoop`, where `fails` names the windows whose `destroy_window` fails and so panics; the windows left are the tracked set at the end, less the window whose failed teardown ended the run; the `destroy_window` calls made are those its trace tore down, in order, then that failed one |
| EventLoops.EventLoop.Advance | src/event_loop.rs:44-67 | one pass of the loop body, taken from the functional run of the remaining polls: on a panic the whole run's trace is the one so far, its outcome is `Panicked`, and the windows left and `destroy_window` calls are those of the aborting window; otherwise the rest of the functional run continues from the new state and the run is the trace so far, this record, then that rest |
| EventLoops.EventLoop.Iterate | src/event_loop.rs:44-67 | one pass of the loop body panics exactly when it removes a tracked window whose `destroy_window` fails, after the removal and the call and without calling the handler; otherwise it is one `Step` of the functional loop: teardown, then the handler call, and the next state |
| Events.FromWayland | src/platform/linux/mod.rs:20-22 | the window id keeps the protocol id unchanged |
| Events.ToWayland | src/platform/linux/mod.rs:24-26 | `to_wayland` is the inverse of `from_wayland` |
| Events.FromX11 | src/platform/linux/mod.rs:12-14 | `from_x11(n)` equals `from_wayland(n)`, and `to_wayland` gives `n` back |
| Events.MouseButtonsFromBits | src/platform/linux/xcb/events.rs:34 | `MouseButtons::from_bits` is defined exactly when no unknown bit is set, and then keeps the bits |
| XcbErrors.FromConnectionError | src/platform/linux/xcb/errors.rs:4-16 | unknown, parse, memory and IO errors map to the same-named kinds, keeping the IO payload; the request-length and fd-passing errors map to `Other` with fixed texts; `UnsupportedExtension` is excluded as unreachable |
| XcbErrors.FromReplyError | src/platform/linux/xcb/errors.rs:18-25 | a connection error converts as the connection conversion does; an X11 protocol error becomes `Other` with its rendering |
| XcbErrors.FromReplyOrIdError | src/platform/linux/xcb/errors.rs:27-36 | a connection error converts as the connection conversion does; every other error becomes `Other` with its rendering |
| XcbErrors.FromXError | src/platform/linux/xcb/errors.rs:4-36 | each kind of x11rb error is converted by its own `From` conversion |
| XcbErrors.FromConnectionErrorInjective | src/platform/linux/xcb/errors.rs:6-14 | distinct connection errors convert to distinct `OSError`s |
| XcbErrors.ProtocolErrorsBecomeOther | src/platform/linux/xcb/errors.rs:22-33 | errors not from the connection itself always become `Other`, never a named kind, and carry the error's rendering, not a fixed text |
| XcbEvents.Manage | src/platform/linux/xcb/events.rs:27-112 | translation of each native record: button press and release become `MouseDown`/`MouseUp` with the low three detail bits, motion becomes `MouseMove`, a `ConfigureNotify` becomes `Resize` and a buffer resize exactly when the window is tracked with a different size, a delete-window client message becomes `CloseRequested`, `Expose` with count 0 becomes `Dirted`, `DestroyNotify` becomes `Destroy`; `SelectionNotify` sets the semaphore to whether the property is not `NONE`, a new-value `PropertyNotify` on the receiver property of the hidden window sets the chunk flag, and none of those emits an event |
| XcbEvents.Apply | src/platform/linux/xcb/events.rs:45-91 | the backend state after each side effect: the semaphore, the chunk flag, or the logged opaque call, and nothing else |
| XcbEvents.DrainStopsAtFirst | src/platform/linux/xcb/events.rs:15-24 | the polling loop skips exactly the leading records that translate to nothing, applying their effects, and stops at the first other entry: an event, an empty poll as `None`, or a failure |
| XcbEvents.PushFront | src/platform/linux/xcb/events.rs:117 | `push_front` puts the event before the old queue |
| XcbEvents.RequeueIsFifo | src/platform/linux/xcb/events.rs:114-120 | events pushed to the front by `run_event_for_queue` come out of `pop_back` (events.rs line 12) in the order they were pushed |
| XcbEvents.ResizeTarget | src/platform/linux/xcb/events.rs:45-61 | the window a returned event resizes, exactly when it is a `Resize` |
| XcbEvents.ManageEvent | src/platform/linux/xcb/events.rs:27-112 | the method returns `Manage`'s event and changes the backend state by `Manage`'s effect; the window map keeps its ids and every size except that of the window it reports resized, whose record `update_win_buffer_size` may rewrite |
| XcbEvents.PollEvent | src/platform/linux/xcb/events.rs:11-25 | a queued event is taken from the back without polling, leaving the native script, the side state and the window map alone; otherwise the result, the rest of the native script and the side state are those of the polling loop, with a poll failure converted to `OSError`, and only the window whose `Resize` is returned may have its size rewritten |
| XcbEvents.RunEventForQueue | src/platform/linux/xcb/events.rs:114-120 | one native poll; its translation, if any, is pushed to the front of the queue; a poll failure is returned converted; only the window whose `Resize` is queued may have its size rewritten |
| X11Conn.ProbeThenFetchIsWhole | src/platform/linux/xcb/clipboard.rs:30-46 | asking for as many units as the zero-length probe reported bytes remaining fetches the whole property value |
| XcbClipboard.ConversionTarget | src/platform/linux/xcb/clipboard.rs:14-16 | UTF-8 data is asked for as `UTF8_STRING` |
| XcbClipboard.Request | src/platform/linux/xcb/clipboard.rs:9-23 | the owner query comes first; with owner `NONE` the result is `Ok(None)` after that one call; otherwise the conversion is asked for, and any failure stops the flow with its error |
| XcbClipboard.Read | src/platform/linux/xcb/clipboard.rs:30-50 | a zero-length probe, a read of the reported length, then the deletion of the property; the value is returned only when all three succeed, and the property is deleted exactly then |
| XcbClipboard.Load | src/platform/linux/xcb/clipboard.rs:8-55 | the whole flow: at most five calls starting with the owner query; `Ok(None)` only when there is no owner or the conversion was not performed; the semaphore is reset exactly when an owner was found; the property is read at offset 0 and deleted exactly when data is returned |
| XcbClipboard.LoadFromClipboard | src/platform/linux/xcb/clipboard.rs:8-55 | the method's result, calls, semaphore and property table are those of `Load`; an INCR reply is excluded, since the source does not implement it |
| XcbClipboard.RequestConversion | src/platform/linux/xcb/clipboard.rs:9-23 | the method runs `Request`: its calls, its early result, and the semaphore reset |
| XcbClipboard.ReadReceived | src/platform/linux/xcb/clipboard.rs:30-50 | the method runs `Read`: its calls, its result and the deletion of the property |
| XcbWindow.SegmentSize | src/platform/linux/xcb/window.rs:88 | the segment size is `width * height * 4` whenever that product fits in u32 (the source computes it in u32) |
| XcbWindow.BufferLen | src/platform/linux/xcb/window.rs:88-124 | a private buffer has `width * height * 4` bytes; a shared-memory one has the segment size, which is below 2^32 and equals that product when it fits |
| XcbWindow.SegmentSizeWraps | src/platform/linux/xcb/window.rs:88 | a 32768 by 32768 window asks for a segment of 0 bytes, while its private buffer has 4 GiB |
| XcbWindow.ShmBacking | src/platform/linux/xcb/window.rs:87-122 | the shared-memory stage: the segment id, the segment, the mapping and the pixmap; once the segment exists every failure detaches it, a failed mapping returns `InsufficientMemory`, and success gives `Shm` of that segment |
| XcbWindow.PrivateBacking | src/platform/linux/xcb/window.rs:123-148 | the private stage: a server pixmap, then an anonymous mapping; a failed mapping returns `InsufficientMemory` at once; success gives `Native` with the root depth |
| XcbWindow.ReleaseMatchesAcquire | src/platform/linux/xcb/window.rs:87-187 | destroying a window gives back exactly the segment, mapping and pixmap its creation acquired, and nothing else |
| XcbWindow.Destroy | src/platform/linux/xcb/window.rs:175-187 | a failed detach returns its error before anything is unmapped; otherwise all release calls are made and the result is the pixmap release's |
| XcbWindow.RedrawPlan | src/platform/linux/xcb/window.rs:189-239 | a redraw uploads the buffer (native backing only), copies the whole pixmap onto the window, then flushes |
| XcbWindow.Setup | src/platform/linux/xcb/window.rs:37-79 | the window, its protocols, its graphics context, mapping and flushing, and the pixmap id, stopping at the first failure |
| XcbWindow.OpenWindow | src/platform/linux/xcb/window.rs:38-70 | an id, the window, and `WM_PROTOCOLS` listing `WM_DELETE_WINDOW`, stopping at the first failure |
| XcbWindow.PrepareDrawing | src/platform/linux/xcb/window.rs:72-79 | the graphics context, then mapping, flush and pixmap id, stopping at the first failure |
| XcbWindow.ShowWindow | src/platform/linux/xcb/window.rs:76-79 | mapping and flushing the window, then the pixmap id, stopping at the first failure |
| XcbWindow.SegmentReplyFails | src/platform/linux/xcb.rs:137-141 | the segment request is sent but its reply is an error |
| XcbWindow.AttachShm | src/platform/linux/xcb/window.rs:87-122 | the method runs the shared-memory stage, and on success returns a fresh buffer of the segment size; with the segment's reply unwrapped (as in `xcb.rs`) it panics exactly when that reply is an error, and otherwise the error is returned (as with `?` in `xcb/window.rs`) |
| XcbWindow.AllocPrivate | src/platform/linux/xcb/window.rs:123-148 | the method runs the private stage, and on success returns a fresh buffer of `width * height * 4` bytes |
| XcbWindow.BackingStage | src/platform/linux/xcb/window.rs:87-148 | on success the backing is `Shm` of the new segment when the server supports shared memory and `Native` with the root depth otherwise, after the calls of that stage |
| XcbWindow.CreateWindow | src/platform/linux/xcb/window.rs:36-173 | a setup failure is returned as its converted error; then the backing stage runs, and its failure is returned; on success the window id is the first generated id, the sizes are the builder's saturated to u16, and the inner record keeps the builder's size and the mapped length |
| XcbWindow.DestroyWindow | src/platform/linux/xcb/window.rs:175-187 | the method makes the calls of `Destroy` and returns its result |
| XcbWindow.RedrawWindow | src/platform/linux/xcb/window.rs:189-239 | the calls of the redraw, stopping at the first failure; it panics exactly when the last call made failed |
| XcbHandles.TryConvert | src/platform/linux/xcb.rs:286-313 | a delete-window client message becomes `CloseRequested`, every `Expose` becomes `Damaged` with its area and count, `DestroyNotify` becomes `Destroy`, anything else is dropped; the event names the record's window |
| XcbHandles.RevisionsOnSharedRecords | src/platform/linux/xcb.rs:286-313 | against the `xcb/` revision: both agree on close requests and destruction; on exposure this one reports `Damaged`, the other `Dirted` |
| XcbHandles.Translate | src/platform/linux/xcb.rs:252-256 | a poll failure becomes `Failed` (the `unwrap`), a record becomes its translation, or `Empty` when it translates to nothing |
| XcbHandles.TranslateAll | src/platform/linux/xcb.rs:252-256 | the script of loop polls is the native script translated entry by entry |
| XcbHandles.AscendingMembers | src/platform/linux/xcb.rs:231 | the map's iteration order lists every window and nothing else |
| XcbHandles.AscendingLength | src/platform/linux/xcb.rs:231 | the iteration order lists no window twice |
| XcbHandles.AscendingIncreases | src/platform/linux/xcb.rs:231 | the iteration order is strictly increasing in the window id |
| XcbHandles.CopiesAreTheFlagged | src/platform/linux/xcb.rs:231-250 | the redraw pass copies exactly the windows whose todo carries `REDRAW` |
| XcbHandles.ReleasePlan | src/platform/linux/xcb.rs:211-222 | releasing a window detaches and unmaps only for shared memory, and always ends by freeing the pixmap |
| XcbHandles.ReleaseAgainstOtherRevision | src/platform/linux/xcb.rs:211-222 | for shared memory both revisions release the same things in the same order; this one never unmaps a native buffer, the other does |
| XcbHandles.ReleaseRun | src/platform/linux/xcb.rs:211-222 | the release calls made stop at the first failure, which panics; without failure the whole release plan runs |
| XcbHandles.XcbHandle.constructor | src/platform/linux/xcb.rs:73-80 | a new handle tracks no window |
| XcbHandles.XcbHandle.CreateWindow | src/platform/linux/xcb.rs:83-209 | setup, segment and mapping calls with their failure paths; an error reply to the segment request panics, with no window added; on success the window is added to the map under its id with an empty todo, and nothing else in the map changes |
| XcbHandles.XcbHandle.DestroyWindow | src/platform/linux/xcb.rs:211-222 | the method makes the calls of `ReleaseRun`; without faults it does not panic |
| XcbHandles.XcbHandle.FlushRedraws | src/platform/linux/xcb.rs:231-250 | in ascending id order every window with `REDRAW` is copied, then `REDRAW` is cleared and every other todo bit is kept |
| XcbHandles.XcbHandle.Turn | src/platform/linux/xcb.rs:231-256 | the redraw pass, a flush, and one poll, translated |
| XcbHandles.XcbHandle.TearDown | src/platform/linux/xcb.rs:257-267 | a `Destroy` of a window in the map removes it and releases it; the requests sent are exactly that window's `ReleasePlan`; anything else changes nothing and sends nothing |
| XcbHandles.XcbHandle.Forget | src/platform/linux/xcb.rs:261-262 | the tracked window is removed from the map, and exactly its `ReleasePlan` is sent, with no fault to panic on |
| XcbHandles.XcbHandle.Round | src/platform/linux/xcb.rs:230-280 | one iteration: its requests begin with the redraw pass over the windows and todo bits it started with, then the flush; a failed poll sends nothing more and changes no window; every window left has its todo bits with `REDRAW` cleared; unless the poll failed, one `Step` of the functional loop |
| XcbHandles.XcbHandle.Handle | src/platform/linux/xcb.rs:257-279 | after a successful poll: one `Step` of the functional loop, with its teardown |
| XcbHandles.XcbHandle.Run | src/platform/linux/xcb.rs:224-284 | the loop starts under `Wait` and gives exactly the trace and outcome of `RunLoop` over the translated native polls; it logs one round per poll taken, and the requests it sends begin with those rounds' requests in order; each round begins with its redraw pass over the windows and todo bits it started with; the first round starts from the initial windows and todo bits, and each later one from the earlier one's windows with `REDRAW` cleared; the windows it released are those torn down, in order, and then every window left, in ascending id order, when the loop exited; it consumed the first native polls, one per iteration and one more when the last poll failed, and left the rest pending |
| XcbHandles.XcbHandle.Loop | src/platform/linux/xcb.rs:230-280 | the `while` loop's trace and outcome are those of `RunLoop`; its requests since the start are the logged rounds' requests, the rounds took the first native polls and the rest are pending, and the rounds are chained from the initial windows and todo bits |
| XcbHandles.XcbHandle.Iterate | src/platform/linux/xcb.rs:230-280 | one pass of the loop consumes one poll; a failed poll ends the run as `RunLoop` panics; otherwise the functional loop advances by exactly that iteration, and the log gains its round |
| XcbHandles.XcbHandle.LoggedRound | src/platform/linux/xcb.rs:230-280 | one iteration, with the round it adds to the log: that round begins with its redraw pass and leaves the windows with `REDRAW` cleared |
| XcbHandles.LogRound | src/platform/linux/xcb.rs:230-256 | a round that starts where the log ends, with its redraw pass, and takes the next pending poll, extends the log by itself |
| XcbHandles.LoggedPolls | src/platform/linux/xcb.rs:252-256 | the polls a log's rounds took are the first polls of the script, round by round, and what is pending is the rest |
| XcbHandles.ChainPasses | src/platform/linux/xcb.rs:230-250 | a logged chain of rounds is a series where each round begins with its redraw pass and follows the one before, starting from the initial windows and todo bits |
| XcbHandles.ChainWindows | src/platform/linux/xcb.rs:257-264 | the windows after a chain of rounds are some of the initial windows, in the same states |
| XcbHandles.XcbHandle.ReleaseRemaining | src/platform/linux/xcb.rs:281-283 | every window left in the map is released, in ascending id order; the requests sent are the release plans of those windows, one after the other in that order (`ReleaseRequests`) |
| XcbHandles.XcbHandle.ReleaseNext | src/platform/linux/xcb.rs:282 | releasing one more window appends exactly its release plan to the requests and its id to the released ones |
| XcbHandles.RedrawAll | src/platform/linux/xcb.rs:231-250 | the copy-and-clear loop over the map makes exactly the copies of the flagged windows, in ascending id order |
| XcbHandles.RedrawNext | src/platform/linux/xcb.rs:231-248 | one turn of the redraw loop visits the least window not yet visited: the visit stays in ascending id order, the copies made are those of the visited windows, and exactly the visited windows have `REDRAW` cleared |
| XcbHandles.RedrawStep | src/platform/linux/xcb.rs:231-248 | redrawing one window not yet visited appends its copy when it is flagged, and clears `REDRAW` for that window alone |
| XcbHandles.RedrawOne | src/platform/linux/xcb.rs:232-249 | a flagged window is copied; its todo loses `REDRAW` and keeps every other bit |
| XcbHandles.Dispatch | src/platform/linux/xcb.rs:268-279 | the handler gets a polled event; on an empty poll it gets `MainEventsCleared` under `Poll`, or under `Wait` right after an event |
| Wayland.ButtonNumber | src/platform/linux/wayland/mod.rs:124-129 | each button's evdev offset from `BTN_LEFT` is below 5 |
| Wayland.DecodeButton | src/platform/linux/wayland/mod.rs:120-133 | a button is decoded exactly when both bits of 0x110 are set and the low nibble is below 5, and then its number is that nibble |
| Wayland.EvdevButtons | src/platform/linux/wayland/mod.rs:121-133 | 0x110 to 0x114 decode to Left, Right, Middle, Side and Extra; 0x115 and 0x10f decode to nothing |
| Wayland.LooseMask | src/platform/linux/wayland/mod.rs:121 | the mask is loose: 0x130 decodes as Left and 0x1f1 as Right |
| Wayland.DecodeState | src/platform/linux/wayland/mod.rs:134-140 | only released and pressed states are decoded |
| Wayland.FilterPointer | src/platform/linux/wayland/mod.rs:79-155 | enter sends `MouseEnter` at the surface position to the entered surface's window; leave sends `MouseLeave(0, 0)` to the left surface's window; motion sends `MouseMove` at the surface position to window 0; a button event is sent exactly when its code and its state decode, as `MouseButton(0, 0, button, state)` to window 0; other pointer events send nothing |
| Wayland.LeaveArm | src/platform/linux/wayland/mod.rs:233-247 | a leave is forwarded only when the loaded pointer state is on the same surface and the window is tracked |
| Wayland.Track | src/platform/linux/wayland/mod.rs:211-308 | every pointer event handed out names a tracked window, and every other event passes through unchanged with the pointer state kept |
| Wayland.EnterStores | src/platform/linux/wayland/mod.rs:213-224 | an enter stores its surface and position, and is handed out exactly when its window is tracked |
| Wayland.LeaveNeverForwarded | src/platform/linux/wayland/mod.rs:233-242 | as written, a leave clears the pointer state and is never handed out |
| Wayland.PointerEventsFollowStoredSurface | src/platform/linux/wayland/mod.rs:249-302 | motion and button without a pointer state are dropped; with one, they are renamed to the stored surface and handed out exactly when it is tracked; motion updates the stored position, button takes it and keeps it |
| Wayland.NoPointerEventsWithoutEnter | src/platform/linux/wayland/mod.rs:225-302 | without an enter, the pointer state stays empty and no pointer event is handed out |
| Wayland.AtMostOnePointer | src/platform/linux/wayland/mod.rs:157-169 | at most one pointer is ever created; it is created exactly when none was before and some event announces the pointer capability |
| Wayland.OffersFollowLastEvent | src/platform/linux/wayland/mod.rs:176-189 | an offer is kept exactly when the last event about it introduced it; one no event mentions keeps its earlier presence |
| Wayland.Connection.FromDisplay | src/platform/linux/wayland/mod.rs:47-203 | after the initial roundtrip there is no window, no pointer state, no data offer, no pointer, and an empty channel |
| Wayland.Connection.OnPointer | src/platform/linux/wayland/mod.rs:79-155 | the filter's event, if any, is sent on the channel |
| Wayland.Connection.OnPing | src/platform/linux/wayland/mod.rs:67-74 | each ping is answered with a pong of the same serial |
| Wayland.Connection.OnSeat | src/platform/linux/wayland/mod.rs:157-170 | the first event that announces a pointer creates one and sets the flag; every other event changes nothing |
| Wayland.Connection.OnDataDevice | src/platform/linux/wayland/mod.rs:176-189 | a new offer is stored under its id as a fresh offer with no MIME type; a selected offer is removed; other events change nothing |
| Wayland.Connection.PollEvent | src/platform/linux/wayland/mod.rs:205-309 | one roundtrip; an empty channel gives `Ok(None)` with the state kept; otherwise the first event is taken and run through the pointer state machine against the tracked windows |
| WaylandDataExchange.CompareIds | src/platform/linux/wayland/data_exchange.rs:37 | `Less`, `Equal` and `Greater` exactly when the first id is smaller, equal or larger |
| WaylandDataExchange.DataOffer.FromWl | src/platform/linux/wayland/data_exchange.rs:12-32 | a new offer keeps its id and has no MIME type yet |
| WaylandDataExchange.DataOffer.OnEvent | src/platform/linux/wayland/data_exchange.rs:15-30 | an offered MIME string that parses is appended at the end; one that does not parse, and every other event, leave the list unchanged; an `Offer` extends the list by `Accepted` of its one string |
| WaylandDataExchange.Accepted | src/platform/linux/wayland/data_exchange.rs:18-26 | a series of offers yields no more MIME types than strings offered |
| WaylandDataExchange.AcceptedSnoc | src/platform/linux/wayland/data_exchange.rs:15-30 | one more `Offer` string extends `Accepted` by exactly what `OnEvent` appends for it, so an offer that handled a series of strings holds their `Accepted` list |
| WaylandDataExchange.AcceptedComeFromOffers | src/platform/linux/wayland/data_exchange.rs:18-26 | every MIME type kept comes from an offered string that parses to it |
| WaylandDataExchange.Cmp | src/platform/linux/wayland/data_exchange.rs:35-39 | `cmp` is `Equal` exactly when `eq` holds, and `Less` exactly when the first id is smaller |
| WaylandDataExchange.PartialCmp | src/platform/linux/wayland/data_exchange.rs:40-44 | `partial_cmp` is always defined |
| WaylandDataExchange.PartialCmpIsCmp | src/platform/linux/wayland/data_exchange.rs:35-44 | `partial_cmp` is always `Some(cmp)` |
| WaylandDataExchange.CmpIsTotalOrder | src/platform/linux/wayland/data_exchange.rs:35-51 | `cmp` is antisymmetric and transitive and is `Equal` exactly where `eq` holds; `eq` is transitive |
| WaylandWindows.ContentFits | src/platform/linux/wayland/window/frame.rs:30-33 | for a builder that fits `i32`, the content buffer is no larger than the frame's and the 20 header rows lie inside the frame buffer |
| WaylandWindows.SetupPlanLayout | src/platform/linux/wayland/window/mod.rs:165-177 | the pool size is the stride times the height, the stride is `width * 4`, and the mapping has the pool's size |
| WaylandWindows.SetupSurface | src/platform/linux/wayland/window/mod.rs:159-209 | the buffer is `width * height * 4` bytes long and fresh; the requests are a temporary file, a pool and a buffer of stride `width * 4`, a roundtrip, attach and commit, a roundtrip and the mapping |
| WaylandWindows.NewSurface | src/platform/linux/wayland/window/mod.rs:88-98 | the new `Argb8888` surface shares the mapped buffer with the given metadata |
| WaylandWindows.CreateWindow | src/platform/linux/wayland/window/mod.rs:41-121 | a surface, xdg surface and toplevel are opened with the title and a commit; the close handler is bound to the first surface's id; an undecorated window is registered under that id, a decorated one is built by `build_framed_window` and registered under its content surface, with the close handler naming an id not in the map; both have a fresh content surface of the builder's size, logical size and dpi 1.0 |
| WaylandWindows.FinishPlainWindow | src/platform/linux/wayland/window/mod.rs:83-120 | an undecorated window: its buffer is set up on the toplevel's surface, its metadata is the builder's size with length `width * height * 4`, and it is registered under the surface's id |
| WaylandWindows.HeaderPixels | src/platform/linux/wayland/window/frame.rs:57-61 | in a painted header, every pixel with `x < width` and `y < 20` is inside the buffer and holds `0xffdadada` |
| WaylandWindows.BuildFramedWindow | src/platform/linux/wayland/window/frame.rs:24-103 | the frame is on the toplevel's surface, `builder.width` wide and `builder.height + 20` high, with its header painted; the content surface is a later surface with a buffer of the builder's size; the window is registered and returned under the content surface, not the frame's |
| WaylandWindows.SetupFrame | src/platform/linux/wayland/window/frame.rs:30-46 | the frame buffer on the toplevel's surface, with the builder's width and 20 rows more than its height |
| WaylandWindows.SetupContent | src/platform/linux/wayland/window/frame.rs:48-80 | the content surface is a subsurface of the frame placed at `(0, 20)`, with a buffer of the builder's size |
| WaylandWindows.HeaderInBounds | src/platform/linux/wayland/window/frame.rs:57-61 | every header pixel's cell is `y * width + x` and passes the bound check, so no header write is dropped |
| WaylandWindows.PaintHeader | src/platform/linux/wayland/window/frame.rs:57-61 | after the loop every cell of the first 20 rows holds `0xffdadada` and every later cell is as it was |
| WaylandWindows.PaintRow | src/platform/linux/wayland/window/frame.rs:58-60 | one row of the loop extends the painted prefix by `width` cells and leaves the cells after it alone |
| WaylandWindows.DestroyUnmapsEachBuffer | src/platform/linux/wayland/window/mod.rs:134-152 | destroying a window unmaps the content buffer, then the frame buffer when there is one, each once with its length from the surface metadata |
| WaylandWindows.DestroyWindow | src/platform/linux/wayland/window/mod.rs:134-157 | destroys the toplevel, unmaps the content buffer and destroys its surface, does the same for the frame, destroys the toplevel again, and removes the window's id from the map |
| WaylandWindows.CreateThenDestroy | src/platform/linux/wayland/window/mod.rs:153-155 | a window `create_window` registered is forgotten by `destroy_window`, which removes the id of its content surface, and the map is then as it was before the creation. This rests on the stable-id reading of `DestroyWindow` under "## Left out": the source reads `wl_surface.as_ref().id()` at line 155, after `wl_surface.destroy()` at line 142, and the model takes that id to be the one the surface was registered under |
| WaylandWindows.RedrawWindow | src/platform/linux/wayland/window/mod.rs:123-132 | damage of the whole content buffer and a commit, then the same for the header bar of the frame |
| WaylandWindows.OnToplevel | src/platform/linux/wayland/window/mod.rs:50-65 | `Close` sends `CloseRequested` for the id the handler was bound to; `Configure` and the rest send nothing |
| WaylandWindows.OnXdgSurfaceConfigure | src/platform/linux/wayland/window/mod.rs:67-75 | each configure is acknowledged with its serial |
| Linux.WaylandOf | src/platform/linux/mod.rs:36-48 | `wayland()` and `wayland_mut()` are defined only on the Wayland variant and return its record |
| Linux.XcbOf | src/platform/linux/mod.rs:50-62 | `xcb()` and `xcb_mut()` are defined only on the XCB variant and return its record |
| Linux.AccessorsAreExclusive | src/platform/linux/mod.rs:35-63 | each record belongs to exactly one backend, and the matching accessor gives it back |
| Linux.NewConnection | src/platform/linux/mod.rs:74-80 | a connection is opened exactly when a display is found or XCB opens, and it is Wayland exactly when a display is found, whatever the XCB outcome; with a display it is opened on it; without one it is the XCB connection, or the XCB error when that fails |
| Linux.PollEvent | src/platform/linux/mod.rs:82-87 | on Wayland, the Wayland backend's roundtrip and pointer state machine; on XCB, the whole contract of the XCB `poll_event`: the requeue pop that touches nothing else, or the native polling loop with its converted poll failure and the window map kept but for a reported resize |
| Linux.CreateWindow | src/platform/linux/mod.rs:107-112 | on Wayland, a new window registered under the id returned; on XCB, the whole contract of the XCB `create_window`: the setup and backing calls with every failure path, and on success the window whose id is the first generated X id, with its size saturated to u16, its fresh buffer and its records |
| Linux.DestroyWindow | src/platform/linux/mod.rs:114-119 | the record must match the variant; on Wayland, the window's id leaves the map; on XCB, the release calls and the result of the XCB backend |
| Linux.RedrawWindow | src/platform/linux/mod.rs:121-126 | the record must match the variant; on Wayland, the damage and commit requests; on XCB, the redraw calls, panicking exactly when the last one failed |
| Linux.LoadFromClipboard | src/platform/linux/mod.rs:90-95 | only the XCB variant can load, since the Wayland arm is `todo!`; the result and calls are those of the XCB clipboard flow |

## Left out

- Native calls are not modelled: x11rb requests, `sync_roundtrip`, `tempfile`,
  `mmap`/`munmap`, and the Wayland protocol requests. Each is an entry in a
  request log. X11 failures come from a fault oracle keyed by log position. A
  failed X11 `mmap` is a set of log positions.
- Concurrency is not modelled: `Atomic`/`AtomicPtr` swaps, `RwLock`/`Mutex`
  maps, flume channels, and `thread::yield_now`. Each shared value is a plain
  field, and a channel is a sequence.
- The clipboard's condition-variable wait is not modelled. The flag `performed`
  says whether the conversion was done by the time the wait ended.
- INCR transfers are excluded by a precondition, because the source leaves them
  `unimplemented!`.
- `store_on_clipboard`, `process_selection_request` and
  `update_win_buffer_size` are not modelled, because their bodies are outside the
  modelled files. The last two are opaque logged calls.
- XcbEvents.ManageEvent: the size `update_win_buffer_size` stores for a resized
  window is left unconstrained (the map keeps its ids and every other entry), and
  the failures of `update_win_buffer_size` and `process_selection_request`, which
  `manage_event` unwraps into panics, are not modelled: both calls always succeed.
- Atom interning and the `xcb/mod.rs` singleton set-up are not modelled. A
  backend state is a constructor parameter.
- Xcb.XcbInfo: it is not the `XcbInfo` struct field for field. `screen_num` is
  replaced by the two values read through it, the screen's root window and root
  depth (`conn.setup().roots[screen_num]`), which the source looks up on each use.
  `clipboard_data` is left out, because only `store_on_clipboard` and
  `process_selection_request` use it, and neither is modelled. The field
  `windows` comes from the handle that `xcb/events.rs` reads as `self.windows`,
  not from `XcbInfo`.
- `xcb::Connection`, which `linux/mod.rs` names, is not part of this model. Its
  XCB variant is the state of the `xcb/` modules. `linux/mod.rs` passes a
  `Mime` value where `xcb/clipboard.rs` takes a `ClipboardDataKind`. The model
  passes the kind.
- Event coordinates are integers: `f64` positions, `Resize` dimensions and
  `Damaged` rectangles are not modelled. `dpi` is a real.
- Window sizes are integers. A `WindowBuilder`'s `width` and `height` are `f64`
  in the source. They are stored as the window's `LogicalSize` (`wayland/window/mod.rs`
  line 115, `wayland/window/frame.rs` line 97) and as the `f64` size of the XCB
  inner record (`Size::new` at `xcb/window.rs` line 151 and `xcb.rs` line 185).
  In the model the builders hold integers (`int` in `XcbWindow.Builder`, `u32` in
  `WaylandWindows.Builder`), and so do the stored logical and inner sizes. So the
  model does not capture how `as u16`, `as i32` and `as u32` truncate a
  fractional size or turn NaN into 0. Only the saturation of `as u16` at the
  bounds of the type is modelled.
- Pixels are written as four little-endian bytes in the shared buffer, so a
  little-endian host is assumed.
- Pixel offsets and the shared-memory segment size wrap in u32 (release-build
  Rust). That covers `y * width + x` in `surface.rs` (Surfaces.PixelOffset) and
  `(width as u32) * (height as u32) * 4` at `xcb/window.rs` line 88 and `xcb.rs`
  line 135 (XcbWindow.SegmentSize, XcbWindow.SegmentSizeWraps). A debug build
  would panic on either overflow instead, and that panic is not modelled.
- The event loops run over a finite script of poll results. Since the real loop
  may not terminate, a run can also end by running out of script.
- `println!` output in `poll_event` and in the data-offer handler is not
  modelled.
- Linux.NewConnection: `from_display` never returns an error, since its failures
  are panics. So the `?` at `linux/mod.rs` line 76 never propagates an error,
  and a Wayland display always yields a Wayland connection.
- The panics of `setup_surface` are not modelled: a failed tempfile, `set_len`,
  roundtrip or mapping. The Wayland model always succeeds there.
- WaylandWindows.CreateWindow: it requires the builder size to fit `i32`,
  including the frame's `width * (height + 20) * 4` byte length. It also
  requires enough free client object ids. The source's `as i32` casts and its
  id exhaustion outside that range are not modelled.
- WaylandWindows.DestroyWindow: it takes the surface id after the surface is
  destroyed, and ids are treated as stable. The toplevel is destroyed twice, as
  in the source, and both requests are logged.
- XcbHandles.XcbHandle.CreateWindow: it requires shared-memory support, because
  the private path of `xcb.rs` ends in `todo!`. A fault on the segment request
  that is not a connection error is read as an error reply, which the method
  reports as a panic; a connection error is a failed send, returned by `?`.
- EventLoops.EventLoop.Run: whether a window's `destroy_window` fails is a
  parameter, the set `fails` of window ids; the platform error itself is not
  modelled, only the panic its `unwrap` causes.
- XcbHandles.XcbHandle.Run: it requires that no request fails from the start of
  the run on. The only failure modelled is a failed poll, which `unwrap` turns
  into a panic that ends the run.
- The `WindowToDo` bit for `REDRAW` is taken as bit 0, because `window.rs`
  defines the flag type outside this model.
- A handler is a function of the events handed to it so far, the windows still
  tracked and the control flow. It cannot act on the backend: it cannot redraw,
  create or destroy a window.
- Leaks on failure paths are kept as in the source, not repaired: for example,
  the window and graphics context of an X11 window whose backing failed.
- Data offers' `wl_data_offer` objects are identified by their protocol id
  alone.
