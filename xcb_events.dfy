/**
 * XCB event translation (`manage_event`), the requeue (`run_event_for_queue`
 * pushes to the front, `poll_event` pops from the back) and `poll_event`'s loop
 * over native records.
 */
module XcbEvents {
  import opened Wrappers
  import opened Events
  import opened X11Rb
  import opened X11Conn
  import opened Xcb
  import XcbErrors
  import E = Errors

  /** What `manage_event` does besides returning an event. */
  datatype Effect =
    | NoEffect
    | ResizeBuffer(window: Xid, width: u16, height: u16)
    | SetSemaphore(converted: bool)
    | ServeSelectionRequest(request: XEvent)
    | ChunkReceived

  /** The part of the backend state `manage_event` may change. */
  datatype SideState = SideState(semaphore: Option<bool>, chunkReceived: bool, calls: seq<Call>)

  /** Whether `ConfigureNotify` finds the window tracked with a different stored size. */
  predicate SizeChanged(e: XEvent, windows: map<WindowId, WindowSize>)
    requires e.ConfigureNotify?
  {
    var id := FromX11(e.window);
    id in windows && (windows[id].width != e.width || windows[id].height != e.height)
  }

  /** Whether a `PropertyNotify` announces a new chunk of clipboard data. */
  predicate IsChunkNotice(e: XEvent, atoms: Atoms, hidden: Xid)
  {
    e.PropertyNotify? && e.window == hidden && e.atom == atoms.clipboardReceiver && e.state == NewValue
  }

  /** The window field a record names: `event` for pointer records, `window` for the others. */
  function RecordWindow(e: XEvent): Xid
  {
    if e.ButtonPress? || e.ButtonRelease? || e.MotionNotify? then e.event
    else if e.ConfigureNotify? || e.PropertyNotify? || e.ClientMessage? || e.Expose? || e.DestroyNotify? then e.window
    else NONE
  }

  /** `manage_event`: the event a native record translates to, and its side effect. */
  function Manage(e: XEvent, atoms: Atoms, hidden: Xid, windows: map<WindowId, WindowSize>): (r: (Option<Event>, Effect))
    ensures r.0.Some? ==> r.0.value.WindowEvent? && r.0.value.window == FromX11(RecordWindow(e))
    ensures e.ButtonPress? ==> r.0.Some? && r.0.value.event == MouseDown(e.eventX, e.eventY, e.detail & 0x07)
    ensures e.ButtonRelease? ==> r.0.Some? && r.0.value.event == MouseUp(e.eventX, e.eventY, e.detail & 0x07)
    ensures e.MotionNotify? ==> r.0.Some? && r.0.value.event == MouseMove(e.eventX, e.eventY)
    ensures (r.0.Some? && r.0.value.event.Resize?) <==> e.ConfigureNotify? && SizeChanged(e, windows)
    ensures r.1.ResizeBuffer? <==> e.ConfigureNotify? && SizeChanged(e, windows)
    ensures r.1.ResizeBuffer? ==> r.1 == ResizeBuffer(e.window, e.width, e.height)
                                  && r.0.value.event == Resize(e.width, e.height)
    ensures e.ConfigureNotify? && !SizeChanged(e, windows) ==> r.0.None?
    ensures (r.0.Some? && r.0.value.event.CloseRequested?) <==>
            e.ClientMessage? && e.format == 32 && e.data0 == atoms.wmDeleteWindow
    ensures (r.0.Some? && r.0.value.event.Dirted?) <==> e.Expose? && e.count == 0
    ensures e.Expose? && e.count != 0 ==> r.0.None?
    ensures (r.0.Some? && r.0.value.event.Destroy?) <==> e.DestroyNotify?
    ensures r.1.SetSemaphore? <==> e.SelectionNotify?
    ensures e.SelectionNotify? ==> r.1.converted == (e.property != NONE)
    ensures r.1 == ServeSelectionRequest(e) <==> e.SelectionRequest?
    ensures r.1.ChunkReceived? <==> IsChunkNotice(e, atoms, hidden)
    ensures e.SelectionNotify? || e.SelectionRequest? || e.PropertyNotify? || e.OtherEvent? ==> r.0.None?
  {
    match e
    case ButtonPress(w, x, y, detail) =>
      (Some(WindowEvent(FromX11(w), MouseDown(x, y, MouseButtonsFromBits(detail & 0x07).value))), NoEffect)
    case ButtonRelease(w, x, y, detail) =>
      (Some(WindowEvent(FromX11(w), MouseUp(x, y, MouseButtonsFromBits(detail & 0x07).value))), NoEffect)
    case ConfigureNotify(w, width, height) =>
      if SizeChanged(e, windows) then
        (Some(WindowEvent(FromX11(w), Resize(width, height))), ResizeBuffer(w, width, height))
      else
        (None, NoEffect)
    case MotionNotify(w, x, y) =>
      (Some(WindowEvent(FromX11(w), MouseMove(x, y))), NoEffect)
    case SelectionNotify(property) =>
      (None, SetSemaphore(property != NONE))
    case SelectionRequest(_, _, _, _) =>
      (None, ServeSelectionRequest(e))
    case PropertyNotify(_, _, _) =>
      if IsChunkNotice(e, atoms, hidden) then (None, ChunkReceived) else (None, NoEffect)
    case ClientMessage(w, format, data0) =>
      if format == 32 && data0 == atoms.wmDeleteWindow then
        (Some(WindowEvent(FromX11(w), CloseRequested)), NoEffect)
      else
        (None, NoEffect)
    case Expose(w, _, _, _, _, count) =>
      if count == 0 then (Some(WindowEvent(FromX11(w), Dirted)), NoEffect) else (None, NoEffect)
    case DestroyNotify(w) =>
      (Some(WindowEvent(FromX11(w), Destroy)), NoEffect)
    case OtherEvent =>
      (None, NoEffect)
  }

  /** The state after an effect; the buffer resize and the selection service are opaque calls. */
  function Apply(s: SideState, eff: Effect): (r: SideState)
    ensures eff.NoEffect? ==> r == s
    ensures eff.SetSemaphore? ==> r == s.(semaphore := Some(eff.converted))
    ensures eff.ChunkReceived? ==> r == s.(chunkReceived := true)
    ensures eff.ResizeBuffer? ==> r == s.(calls := s.calls + [UpdateWinBufferSize(eff.window, eff.width, eff.height)])
    ensures eff.ServeSelectionRequest? ==> r == s.(calls := s.calls + [ProcessSelectionRequest(eff.request)])
  {
    match eff
    case NoEffect => s
    case ResizeBuffer(w, width, height) => s.(calls := s.calls + [UpdateWinBufferSize(w, width, height)])
    case SetSemaphore(b) => s.(semaphore := Some(b))
    case ServeSelectionRequest(req) => s.(calls := s.calls + [ProcessSelectionRequest(req)])
    case ChunkReceived => s.(chunkReceived := true)
  }

  /** Whether a pending native result is a record that translates to nothing. */
  predicate Skipped(p: NativePoll, atoms: Atoms, hidden: Xid, windows: map<WindowId, WindowSize>)
  {
    p.Record? && Manage(p.record, atoms, hidden, windows).0.None?
  }

  datatype Drained = Drained(result: Result<Option<Event>, ConnectionError>, rest: seq<NativePoll>, side: SideState)

  /** `poll_event`'s loop over native records, once the requeue is empty. */
  function Drain(pending: seq<NativePoll>, atoms: Atoms, hidden: Xid, windows: map<WindowId, WindowSize>, s: SideState): Drained
    decreases |pending|
  {
    if pending == [] then Drained(Ok(None), [], s)
    else match pending[0]
      case NoEvent => Drained(Ok(None), pending[1..], s)
      case PollError(err) => Drained(Err(err), pending[1..], s)
      case Record(x) =>
        var (ev, eff) := Manage(x, atoms, hidden, windows);
        if ev.Some? then Drained(Ok(ev), pending[1..], Apply(s, eff))
        else Drain(pending[1..], atoms, hidden, windows, Apply(s, eff))
  }

  /** The result of polling a pending entry that is not a skipped record. */
  function Stop(p: NativePoll, atoms: Atoms, hidden: Xid, windows: map<WindowId, WindowSize>): Result<Option<Event>, ConnectionError>
  {
    match p
    case Record(x) => Ok(Manage(x, atoms, hidden, windows).0)
    case NoEvent => Ok(None)
    case PollError(err) => Err(err)
  }

  /** `d` is what the loop gives when it stops at position `k` of `pending` (or drains it, when `k == |pending|`). */
  ghost predicate StopsAt(pending: seq<NativePoll>, atoms: Atoms, hidden: Xid, windows: map<WindowId, WindowSize>, d: Drained, k: nat)
  {
    && k <= |pending|
    && (forall j :: 0 <= j < k ==> Skipped(pending[j], atoms, hidden, windows))
    && (k == |pending| ==> d.result == Ok(None) && d.rest == [])
    && (k < |pending| ==> !Skipped(pending[k], atoms, hidden, windows) && d.rest == pending[k + 1..]
                          && d.result == Stop(pending[k], atoms, hidden, windows))
  }

  /**
   * The loop skips exactly the leading records that translate to nothing, stops at
   * the first entry that is not one, and consumes it: a record is returned as its
   * event, an empty poll as `None`, a failure as its error; a drained source is `None`.
   */
  lemma {:induction false} DrainStopsAtFirst(pending: seq<NativePoll>, atoms: Atoms, hidden: Xid,
                                             windows: map<WindowId, WindowSize>, s: SideState)
    ensures exists k :: StopsAt(pending, atoms, hidden, windows, Drain(pending, atoms, hidden, windows, s), k)
    decreases |pending|
  {
    var d := Drain(pending, atoms, hidden, windows, s);
    if pending == [] {
      assert StopsAt(pending, atoms, hidden, windows, d, 0);
    } else if Skipped(pending[0], atoms, hidden, windows) {
      var eff := Manage(pending[0].record, atoms, hidden, windows).1;
      DrainSkips(pending, atoms, hidden, windows, s);
      DrainStopsAtFirst(pending[1..], atoms, hidden, windows, Apply(s, eff));
      var k: nat :| StopsAt(pending[1..], atoms, hidden, windows, d, k);
      StopsLater(pending, atoms, hidden, windows, d, k);
    } else {
      assert StopsAt(pending, atoms, hidden, windows, d, 0);
    }
  }

  /** A skipped leading record is consumed and its effect applied before the loop goes on. */
  lemma DrainSkips(pending: seq<NativePoll>, atoms: Atoms, hidden: Xid, windows: map<WindowId, WindowSize>, s: SideState)
    requires pending != [] && Skipped(pending[0], atoms, hidden, windows)
    ensures Drain(pending, atoms, hidden, windows, s)
         == Drain(pending[1..], atoms, hidden, windows, Apply(s, Manage(pending[0].record, atoms, hidden, windows).1))
  {
  }

  /** Stopping at `k` after a skipped head is stopping at `k + 1` with it. */
  lemma StopsLater(pending: seq<NativePoll>, atoms: Atoms, hidden: Xid, windows: map<WindowId, WindowSize>, d: Drained, k: nat)
    requires pending != [] && Skipped(pending[0], atoms, hidden, windows)
    requires StopsAt(pending[1..], atoms, hidden, windows, d, k)
    ensures StopsAt(pending, atoms, hidden, windows, d, k + 1)
  {
    assert forall j :: 0 < j < k + 1 ==> pending[j] == pending[1..][j - 1];
    if k + 1 < |pending| {
      assert pending[1..][k] == pending[k + 1];
      assert pending[1..][k + 1..] == pending[k + 2..];
    }
  }

  /** The requeue after `push_front`. */
  function PushFront(q: seq<Event>, e: Event): (r: seq<Event>)
    ensures |r| == |q| + 1 && r[0] == e && r[1..] == q
  {
    [e] + q
  }

  /** The events that successive `pop_back`s take out of a requeue, until it is empty. */
  function PopAll(q: seq<Event>): seq<Event>
  {
    if q == [] then [] else [q[|q| - 1]] + PopAll(q[..|q| - 1])
  }

  /** The requeue after pushing each event of `es` to the front, in order. */
  function PushAll(q: seq<Event>, es: seq<Event>): seq<Event>
    decreases |es|
  {
    if es == [] then q else PushAll(PushFront(q, es[0]), es[1..])
  }

  lemma {:induction false} PopAllAppend(a: seq<Event>, b: seq<Event>)
    ensures PopAll(a + b) == PopAll(b) + PopAll(a)
    decreases |b|
  {
    if b == [] {
      assert a + b == a;
    } else {
      assert (a + b)[..|a + b| - 1] == a + b[..|b| - 1];
      PopAllAppend(a, b[..|b| - 1]);
    }
  }

  lemma {:induction false} PushAllPrepends(q: seq<Event>, es: seq<Event>)
    ensures PopAll(PushAll(q, es)) == PopAll(q) + es
    decreases |es|
  {
    if es != [] {
      PushAllPrepends(PushFront(q, es[0]), es[1..]);
      PopAllAppend([es[0]], q);
      assert PopAll([es[0]]) == [es[0]] by {
        assert [es[0]][..0] == [];
      }
      assert es == [es[0]] + es[1..];
    }
  }

  /**
   * The requeue is first in, first out: events pushed with `run_event_for_queue`
   * come out of `poll_event` after everything already queued, in the order they
   * were pushed.
   */
  lemma RequeueIsFifo(es: seq<Event>)
    ensures PopAll(PushAll([], es)) == es
  {
    PushAllPrepends([], es);
  }

  function SideOf(xcb: XcbInfo): SideState
    reads xcb, xcb.conn
  {
    SideState(xcb.semaphore, xcb.chunkReceived, xcb.conn.calls)
  }

  /** The window a returned event resizes, if it is a `Resize`. */
  function ResizeTarget(r: Option<Event>): (t: Option<WindowId>)
    ensures t.Some? <==> r.Some? && r.value.WindowEvent? && r.value.event.Resize?
    ensures t.Some? ==> t.value == r.value.window
  {
    if r.Some? && r.value.WindowEvent? && r.value.event.Resize? then Some(r.value.window) else None
  }

  /**
   * The window map keeps its ids and every stored size, except possibly the one of
   * `resized`, whose record `update_win_buffer_size` is handed to rewrite.
   */
  predicate SizesKept(before: map<WindowId, WindowSize>, after: map<WindowId, WindowSize>, resized: Option<WindowId>)
  {
    after.Keys == before.Keys && forall id :: id in before && resized != Some(id) ==> after[id] == before[id]
  }

  /** `manage_event`, applying its effect to the backend state. */
  method ManageEvent(xcb: XcbInfo, e: XEvent) returns (r: Option<Event>)
    modifies xcb`semaphore, xcb`chunkReceived, xcb`windows, xcb.conn`calls
    ensures r == Manage(e, xcb.atoms, xcb.hiddenWindow, old(xcb.windows)).0
    ensures SideOf(xcb) == Apply(old(SideOf(xcb)), Manage(e, xcb.atoms, xcb.hiddenWindow, old(xcb.windows)).1)
    ensures SizesKept(old(xcb.windows), xcb.windows, ResizeTarget(r))
  {
    match e
    case ButtonPress(w, x, y, detail) =>
      r := Some(WindowEvent(FromX11(w), MouseDown(x, y, MouseButtonsFromBits(detail & 0x07).value)));
    case ButtonRelease(w, x, y, detail) =>
      r := Some(WindowEvent(FromX11(w), MouseUp(x, y, MouseButtonsFromBits(detail & 0x07).value)));
    case ConfigureNotify(w, width, height) =>
      var id := FromX11(w);
      r := None;
      if id in xcb.windows {
        var size := xcb.windows[id];
        if size.width != width || size.height != height {
          xcb.conn.Note(UpdateWinBufferSize(w, width, height));
          // the size it stores is not part of this model
          var stored: WindowSize :| true;
          xcb.windows := xcb.windows[id := stored];
          r := Some(WindowEvent(id, Resize(width, height)));
        }
      }
    case MotionNotify(w, x, y) =>
      r := Some(WindowEvent(FromX11(w), MouseMove(x, y)));
    case SelectionNotify(property) =>
      xcb.semaphore := Some(property != NONE);
      r := None;
    case SelectionRequest(_, _, _, _) =>
      xcb.conn.Note(ProcessSelectionRequest(e));
      r := None;
    case PropertyNotify(w, atom, state) =>
      if w == xcb.hiddenWindow && atom == xcb.atoms.clipboardReceiver && state == NewValue {
        xcb.chunkReceived := true;
      }
      r := None;
    case ClientMessage(w, format, data0) =>
      if format == 32 && data0 == xcb.atoms.wmDeleteWindow {
        return Some(WindowEvent(FromX11(w), CloseRequested));
      }
      return None;
    case Expose(w, _, _, _, _, count) =>
      r := if count == 0 then Some(WindowEvent(FromX11(w), Dirted)) else None;
    case DestroyNotify(w) =>
      r := Some(WindowEvent(FromX11(w), Destroy));
    case OtherEvent =>
      r := None;
  }

  /**
   * `poll_event`: a requeued event comes first, taken from the back without
   * consulting the server; otherwise native records are read until one
   * translates, the source is empty, or polling fails.
   */
  method PollEvent(xcb: XcbInfo) returns (r: Result<Option<Event>, E.OSError>)
    requires xcb.Valid()
    modifies xcb`semaphore, xcb`chunkReceived, xcb`eventsQueue, xcb`windows, xcb.conn`calls, xcb.conn`pending
    ensures xcb.Valid()
    ensures old(xcb.eventsQueue) != [] ==>
              && r == Ok(Some(old(xcb.eventsQueue)[|old(xcb.eventsQueue)| - 1]))
              && xcb.eventsQueue == old(xcb.eventsQueue)[..|old(xcb.eventsQueue)| - 1]
              && xcb.conn.pending == old(xcb.conn.pending)
              && SideOf(xcb) == old(SideOf(xcb))
              && xcb.windows == old(xcb.windows)
    ensures old(xcb.eventsQueue) == [] ==>
              var d := Drain(old(xcb.conn.pending), xcb.atoms, xcb.hiddenWindow, old(xcb.windows), old(SideOf(xcb)));
              && xcb.eventsQueue == []
              && xcb.conn.pending == d.rest
              && SideOf(xcb) == d.side
              && SizesKept(old(xcb.windows), xcb.windows, if d.result.Ok? then ResizeTarget(d.result.value) else None)
              && (d.result.Ok? ==> r == Ok(d.result.value))
              && (d.result.Err? ==> XcbErrors.Convertible(d.result.error)
                                    && r == Err(XcbErrors.FromConnectionError(d.result.error)))
  {
    if xcb.eventsQueue != [] {
      var event := xcb.eventsQueue[|xcb.eventsQueue| - 1];
      xcb.eventsQueue := xcb.eventsQueue[..|xcb.eventsQueue| - 1];
      return Ok(Some(event));
    }
    ghost var goal := Drain(xcb.conn.pending, xcb.atoms, xcb.hiddenWindow, xcb.windows, SideOf(xcb));
    while true
      invariant xcb.Valid()
      invariant xcb.eventsQueue == []
      invariant xcb.windows == old(xcb.windows)
      invariant Drain(xcb.conn.pending, xcb.atoms, xcb.hiddenWindow, xcb.windows, SideOf(xcb)) == goal
      decreases |xcb.conn.pending|
    {
      ghost var before := xcb.conn.pending;
      var xevent := xcb.conn.PollForEvent();
      if xevent.Err? {
        assert before[0] == PollError(xevent.error);
        return Err(XcbErrors.FromConnectionError(xevent.error));
      }
      if xevent.value.None? {
        return Ok(None);
      }
      var event := ManageEvent(xcb, xevent.value.value);
      if event.Some? {
        return Ok(event);
      }
    }
  }

  /** `run_event_for_queue`: reads one native record and pushes its translation, if any, to the front. */
  method RunEventForQueue(xcb: XcbInfo) returns (r: Result<(), E.OSError>)
    requires xcb.Valid()
    modifies xcb`semaphore, xcb`chunkReceived, xcb`eventsQueue, xcb`windows, xcb.conn`calls, xcb.conn`pending
    ensures xcb.Valid()
    ensures xcb.conn.pending == if old(xcb.conn.pending) == [] then [] else old(xcb.conn.pending)[1..]
    ensures var polled := NextPoll(old(xcb.conn.pending));
            && (polled.Err? ==> r == Err(XcbErrors.FromConnectionError(polled.error))
                                && xcb.eventsQueue == old(xcb.eventsQueue) && SideOf(xcb) == old(SideOf(xcb)))
            && (polled == Ok(None) ==> r == Ok(()) && xcb.eventsQueue == old(xcb.eventsQueue)
                                       && SideOf(xcb) == old(SideOf(xcb)))
            && (polled.Ok? && polled.value.Some? ==>
                  var m := Manage(polled.value.value, xcb.atoms, xcb.hiddenWindow, old(xcb.windows));
                  && r == Ok(())
                  && SideOf(xcb) == Apply(old(SideOf(xcb)), m.1)
                  && xcb.eventsQueue == if m.0.Some? then PushFront(old(xcb.eventsQueue), m.0.value)
                                        else old(xcb.eventsQueue))
    ensures var polled := NextPoll(old(xcb.conn.pending));
            SizesKept(old(xcb.windows), xcb.windows,
                      if polled.Ok? && polled.value.Some?
                      then ResizeTarget(Manage(polled.value.value, xcb.atoms, xcb.hiddenWindow, old(xcb.windows)).0)
                      else None)
  {
    ghost var before := xcb.conn.pending;
    var xevent := xcb.conn.PollForEvent();
    if xevent.Err? {
      assert before[0] == PollError(xevent.error);
      return Err(XcbErrors.FromConnectionError(xevent.error));
    }
    if xevent.value.Some? {
      var event := ManageEvent(xcb, xevent.value.value);
      if event.Some? {
        xcb.eventsQueue := PushFront(xcb.eventsQueue, event.value);
      }
    }
    r := Ok(());
  }
}
