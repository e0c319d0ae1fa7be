/**
 * The X11 backend of the `xcb.rs` revision: an `XcbHandle` owning its connection
 * and a map of window states ordered by id. Its `run` loop copies every window
 * flagged for redraw to the screen before each poll, translates native records
 * into events, releases a window whose `DestroyNotify` arrives, and releases
 * every remaining window once the handler chooses `Exit`.
 */
module XcbHandles {
  import opened Wrappers
  import opened Events
  import opened X11Rb
  import opened X11Conn
  import opened EventLoops
  import XcbErrors
  import XcbWindow
  import Xcb
  import XcbEvents
  import E = Errors

  /**
   * The `REDRAW` bit of `WindowToDo`. The bit set is declared outside this model;
   * every statement below holds for whichever single bit it is.
   */
  const REDRAW: bv8 := 0x01

  /** `WindowInner`, shared through a lock between the handle and the application's window. */
  class WindowInner {
    const size: (Coord, Coord)
    const frameBuffer: array<bv8>
    const frameBufferLen: nat
    var todo: bv8

    constructor (size: (Coord, Coord), frameBuffer: array<bv8>, frameBufferLen: nat)
      ensures this.size == size && this.frameBuffer == frameBuffer && this.frameBufferLen == frameBufferLen
      ensures todo == 0
    {
      this.size := size;
      this.frameBuffer := frameBuffer;
      this.frameBufferLen := frameBufferLen;
      todo := 0;
    }
  }

  datatype BufferKind = Native | Shm(seg: Xid)

  datatype WindowState = WindowState(
    buffer: array<bv8>,
    kind: BufferKind,
    pixmap: Xid,
    gcontext: Xid,
    width: u16,
    height: u16,
    inner: WindowInner)

  /** `try_convert_event`: the records this revision turns into events. */
  function TryConvert(x: XEvent, wmDeleteWindow: Xid): (r: Option<Event>)
    ensures r.Some? ==> r.value.WindowEvent? && r.value.window == FromX11(XcbEvents.RecordWindow(x))
    ensures x.ClientMessage? ==> (r.Some? <==> x.format == 32 && x.data0 == wmDeleteWindow)
    ensures x.ClientMessage? && r.Some? ==> r.value.event == CloseRequested
    ensures x.Expose? ==> r.Some? && r.value.event == Damaged(Rect(x.x, x.y, x.width, x.height), x.count)
    ensures x.DestroyNotify? ==> r.Some? && r.value.event == Destroy
    ensures !(x.ClientMessage? || x.Expose? || x.DestroyNotify?) ==> r.None?
  {
    match x
    case ClientMessage(window, format, data0) =>
      if format == 32 && data0 == wmDeleteWindow then Some(WindowEvent(FromX11(window), CloseRequested)) else None
    case Expose(window, ex, ey, width, height, count) =>
      Some(WindowEvent(FromX11(window), Damaged(Rect(ex, ey, width, height), count)))
    case DestroyNotify(window) => Some(WindowEvent(FromX11(window), Destroy))
    case _ => None
  }

  /**
   * The two X11 revisions agree on close requests and destruction, and differ on
   * exposure: this one reports every `Expose` as `Damaged` with its area and count,
   * the other reports `Dirted`, and only for the last `Expose` of a series.
   */
  lemma RevisionsOnSharedRecords(x: XEvent, atoms: Xcb.Atoms, hidden: Xid, windows: map<WindowId, Xcb.WindowSize>)
    requires x.ClientMessage? || x.DestroyNotify? || x.Expose?
    ensures var mine := TryConvert(x, atoms.wmDeleteWindow);
            var other := XcbEvents.Manage(x, atoms, hidden, windows).0;
            && (x.ClientMessage? || x.DestroyNotify? ==> mine == other)
            && (x.Expose? ==> && mine.Some? && mine.value.event.Damaged?
                              && (other.Some? <==> x.count == 0)
                              && (other.Some? ==> other.value == WindowEvent(mine.value.window, Dirted)))
  {
    var other := XcbEvents.Manage(x, atoms, hidden, windows).0;
    if x.ClientMessage? || x.DestroyNotify? {
      if other.Some? {
        assert other.value.window == FromX11(XcbEvents.RecordWindow(x));
      }
    }
  }

  /** One native poll result as the loop sees it: `unwrap` on the poll, then `and_then(try_convert_event)`. */
  function Translate(p: NativePoll, wmDeleteWindow: Xid): (q: Polled)
    ensures q.Failed? <==> p.PollError?
    ensures q.Ready? <==> p.Record? && TryConvert(p.record, wmDeleteWindow).Some?
    ensures q.Ready? ==> q.event == TryConvert(p.record, wmDeleteWindow).value
  {
    match p
    case Record(x) => (var e := TryConvert(x, wmDeleteWindow); if e.Some? then Ready(e.value) else Empty)
    case NoEvent => Empty
    case PollError(_) => Failed
  }

  function TranslateAll(ps: seq<NativePoll>, wmDeleteWindow: Xid): (qs: seq<Polled>)
    ensures |qs| == |ps| && forall k :: 0 <= k < |ps| ==> qs[k] == Translate(ps[k], wmDeleteWindow)
  {
    seq(|ps|, k requires 0 <= k < |ps| => Translate(ps[k], wmDeleteWindow))
  }

  // Ascending order of window ids: the iteration order of the `BTreeMap` of windows.

  predicate IsLeast(id: WindowId, s: set<WindowId>)
  {
    id in s && forall o :: o in s ==> id.raw <= o.raw
  }

  lemma {:induction false} LeastExists(s: set<WindowId>)
    requires s != {}
    ensures exists id :: IsLeast(id, s)
    decreases |s|
  {
    var x :| x in s;
    if s - {x} != {} {
      LeastExists(s - {x});
      var m :| IsLeast(m, s - {x});
      if x.raw < m.raw {
        assert IsLeast(x, s);
      } else {
        assert IsLeast(m, s);
      }
    } else {
      assert s == {x};
      assert IsLeast(x, s);
    }
  }

  lemma LeastIsUnique(a: WindowId, b: WindowId, s: set<WindowId>)
    requires IsLeast(a, s) && IsLeast(b, s)
    ensures a == b
  {
    assert a.raw == b.raw;
  }

  /** The ids of `s` in ascending order. */
  ghost function Ascending(s: set<WindowId>): (r: seq<WindowId>)
    decreases |s|
  {
    if s == {} then []
    else
      LeastExists(s);
      var m :| IsLeast(m, s);
      [m] + Ascending(s - {m})
  }

  /** A non-empty set's ascending order starts with its least id. */
  lemma AscendingHead(s: set<WindowId>)
    requires s != {}
    ensures |Ascending(s)| > 0 && IsLeast(Ascending(s)[0], s)
  {
  }

  /** Stepping to the least id of `s` leaves the ascending order of the rest. */
  lemma AscendingFrom(s: set<WindowId>, id: WindowId)
    requires IsLeast(id, s)
    ensures Ascending(s) == [id] + Ascending(s - {id})
  {
    LeastExists(s);
    var m :| IsLeast(m, s);
    LeastIsUnique(m, id, s);
  }

  /** The ascending order lists every id of the set, and nothing else. */
  lemma {:induction false} AscendingMembers(s: set<WindowId>)
    ensures forall id :: id in Ascending(s) <==> id in s
    decreases |s|
  {
    if s != {} {
      var r := Ascending(s);
      AscendingHead(s);
      AscendingFrom(s, r[0]);
      AscendingMembers(s - {r[0]});
    }
  }

  /** The ascending order has one entry per id: no id is listed twice. */
  lemma {:induction false} AscendingLength(s: set<WindowId>)
    ensures |Ascending(s)| == |s|
    decreases |s|
  {
    if s != {} {
      var r := Ascending(s);
      AscendingHead(s);
      AscendingFrom(s, r[0]);
      AscendingLength(s - {r[0]});
    }
  }

  /** The least id comes before every later one, strictly. */
  lemma HeadBelowRest(s: set<WindowId>)
    requires s != {}
    ensures var r := Ascending(s);
            forall k :: 0 < k < |r| ==> r[0].raw < r[k].raw
  {
    var r := Ascending(s);
    AscendingHead(s);
    var m := r[0];
    var rest := Ascending(s - {m});
    AscendingFrom(s, m);
    AscendingMembers(s - {m});
    forall k | 0 < k < |r|
      ensures m.raw < r[k].raw
    {
      var x := rest[k - 1];
      assert r[k] == x;
      assert x in s - {m};
      assert x.raw != m.raw;
    }
  }

  /** The ascending order is strictly increasing in the native id. */
  lemma {:induction false} AscendingIncreases(s: set<WindowId>)
    ensures forall i, j :: 0 <= i < j < |Ascending(s)| ==> Ascending(s)[i].raw < Ascending(s)[j].raw
    decreases |s|
  {
    if s != {} {
      var r := Ascending(s);
      AscendingHead(s);
      var rest := Ascending(s - {r[0]});
      AscendingFrom(s, r[0]);
      AscendingIncreases(s - {r[0]});
      HeadBelowRest(s);
      forall i, j | 0 < i < j < |r|
        ensures r[i].raw < r[j].raw
      {
        assert r[i] == rest[i - 1] && r[j] == rest[j - 1];
      }
    }
  }

  /** Visiting the least id not visited yet keeps the visit in ascending order. */
  lemma VisitLeast(visited: seq<WindowId>, remaining: set<WindowId>, s: set<WindowId>, id: WindowId)
    requires IsLeast(id, remaining) && remaining <= s
    requires visited + Ascending(remaining) == Ascending(s)
    ensures (visited + [id]) + Ascending(remaining - {id}) == Ascending(s)
    ensures s - remaining + {id} == s - (remaining - {id})
    ensures |remaining - {id}| < |remaining|
  {
    AscendingFrom(remaining, id);
    assert visited + ([id] + Ascending(remaining - {id})) == (visited + [id]) + Ascending(remaining - {id});
  }

  /** The redraw of one window: a copy of its whole pixmap onto it. */
  function CopyOf(id: WindowId, w: WindowState): Call
  {
    CopyArea(w.pixmap, id.raw, w.gcontext, w.width, w.height)
  }

  predicate Flagged(todo: bv8)
  {
    todo & REDRAW != 0
  }

  /** The copies the redraw pass makes, visiting `ids` in order with the todo bits `todos`. */
  function Copies(ids: seq<WindowId>, windows: map<WindowId, WindowState>, todos: map<WindowId, bv8>): seq<Call>
  {
    if ids == [] then []
    else
      var last := ids[|ids| - 1];
      Copies(ids[..|ids| - 1], windows, todos)
      + (if last in windows && last in todos && Flagged(todos[last]) then [CopyOf(last, windows[last])] else [])
  }

  /** The requests of one redraw pass over `windows` with the todo bits `todos`: the copies, then a flush. */
  ghost function RedrawPass(windows: map<WindowId, WindowState>, todos: map<WindowId, bv8>): seq<Call>
  {
    Copies(Ascending(windows.Keys), windows, todos) + [Flush]
  }

  /**
   * One iteration of `run` as observed: the window map and todo bits at its start, the
   * requests it sent, and the native poll it took.
   */
  datatype RoundLog = RoundLog(windows: map<WindowId, WindowState>, todos: map<WindowId, bv8>, calls: seq<Call>,
                               poll: NativePoll)

  /** The requests of a series of iterations, in order. */
  function Flatten(rounds: seq<RoundLog>): seq<Call>
  {
    if rounds == [] then [] else Flatten(rounds[..|rounds| - 1]) + rounds[|rounds| - 1].calls
  }

  /** The native polls a series of iterations took, in order. */
  function Polls(rounds: seq<RoundLog>): (ps: seq<NativePoll>)
    ensures |ps| == |rounds|
  {
    if rounds == [] then [] else Polls(rounds[..|rounds| - 1]) + [rounds[|rounds| - 1].poll]
  }

  /** An iteration starts by its redraw pass over the windows it started with, one todo byte per window. */
  ghost predicate StartsWithPass(round: RoundLog)
  {
    round.todos.Keys == round.windows.Keys && RedrawPass(round.windows, round.todos) <= round.calls
  }

  /**
   * The windows `windows` and todo bits `todos` an iteration begins with, after `prev`:
   * some of the windows `prev` began with, in the same states, and their todo bits with
   * `REDRAW` cleared.
   */
  ghost predicate Follows(prev: RoundLog, windows: map<WindowId, WindowState>, todos: map<WindowId, bv8>)
  {
    && (forall id :: id in windows ==> id in prev.windows && windows[id] == prev.windows[id])
    && (forall id :: id in todos ==> id in prev.todos && todos[id] == prev.todos[id] & !REDRAW)
  }

  /** Every iteration starts by its redraw pass, and each one follows the one before. */
  ghost predicate Passes(rounds: seq<RoundLog>)
  {
    if rounds == [] then true
    else
      var init := rounds[..|rounds| - 1];
      var last := rounds[|rounds| - 1];
      && Passes(init)
      && StartsWithPass(last)
      && (|init| > 0 ==> Follows(init[|init| - 1], last.windows, last.todos))
  }

  /**
   * The log `rounds` of the iterations run so far: the requests sent since `calls0` are
   * theirs, in order; they took the first polls of `script`, and `pending` is the rest;
   * each began with its redraw pass; the first began with the windows `w0` and the todo
   * bits `t0`; and `windows` and `todos` are what the next one begins with.
   */
  ghost predicate Logged(rounds: seq<RoundLog>, calls0: seq<Call>, calls: seq<Call>,
                         script: seq<NativePoll>, pending: seq<NativePoll>,
                         w0: map<WindowId, WindowState>, t0: map<WindowId, bv8>,
                         windows: map<WindowId, WindowState>, todos: map<WindowId, bv8>)
  {
    && calls == calls0 + Flatten(rounds)
    && script == Polls(rounds) + pending
    && Chain(rounds, w0, t0, windows, todos)
  }

  /**
   * Iterations that began with the windows `w0` and the todo bits `t0`, each by its redraw
   * pass and each after the one before, leaving `windows` and `todos` to the next one.
   */
  ghost predicate Chain(rounds: seq<RoundLog>, w0: map<WindowId, WindowState>, t0: map<WindowId, bv8>,
                        windows: map<WindowId, WindowState>, todos: map<WindowId, bv8>)
  {
    if rounds == [] then windows == w0 && todos == t0
    else
      var last := rounds[|rounds| - 1];
      && Chain(rounds[..|rounds| - 1], w0, t0, last.windows, last.todos)
      && StartsWithPass(last)
      && Follows(last, windows, todos)
  }

  /** A chain of iterations is a series of redraw passes that starts from `w0` and `t0`. */
  lemma {:induction false} ChainPasses(rounds: seq<RoundLog>, w0: map<WindowId, WindowState>, t0: map<WindowId, bv8>,
                                       windows: map<WindowId, WindowState>, todos: map<WindowId, bv8>)
    requires Chain(rounds, w0, t0, windows, todos)
    ensures Passes(rounds)
    ensures rounds != [] ==> rounds[0].windows == w0 && rounds[0].todos == t0
  {
    if rounds != [] {
      var init := rounds[..|rounds| - 1];
      var last := rounds[|rounds| - 1];
      ChainPasses(init, w0, t0, last.windows, last.todos);
      if init != [] {
        assert init[0] == rounds[0];
        assert Chain(init, w0, t0, last.windows, last.todos);
        var prev := init[|init| - 1];
        assert init[..|init| - 1] == rounds[..|rounds| - 2];
        assert Follows(prev, last.windows, last.todos);
      }
    }
  }

  /** What the next iteration of a chain begins with: some of the windows `w0`, in the same states. */
  lemma {:induction false} ChainWindows(rounds: seq<RoundLog>, w0: map<WindowId, WindowState>, t0: map<WindowId, bv8>,
                                        windows: map<WindowId, WindowState>, todos: map<WindowId, bv8>)
    requires Chain(rounds, w0, t0, windows, todos)
    ensures forall id :: id in windows ==> id in w0 && windows[id] == w0[id]
  {
    if rounds != [] {
      var last := rounds[|rounds| - 1];
      ChainWindows(rounds[..|rounds| - 1], w0, t0, last.windows, last.todos);
    }
  }

  /** An iteration that began as the log says, with its redraw pass, and took the next poll, extends the log. */
  lemma {:induction false} LogRound(rounds: seq<RoundLog>, calls0: seq<Call>, before: seq<Call>, after: seq<Call>,
                                    script: seq<NativePoll>, pending: seq<NativePoll>,
                                    w0: map<WindowId, WindowState>, t0: map<WindowId, bv8>, round: RoundLog,
                                    windows: map<WindowId, WindowState>, todos: map<WindowId, bv8>)
    requires Logged(rounds, calls0, before, script, pending, w0, t0, round.windows, round.todos)
    requires round.todos.Keys == round.windows.Keys
    requires before + RedrawPass(round.windows, round.todos) <= after && round.calls == after[|before|..]
    requires pending != [] && round.poll == pending[0]
    requires Follows(round, windows, todos)
    ensures Logged(rounds + [round], calls0, after, script, pending[1..], w0, t0, windows, todos)
  {
    var tail := SplitAfter(before, RedrawPass(round.windows, round.todos), after);
    assert round.calls == tail;
    var rs := rounds + [round];
    assert rs[..|rs| - 1] == rounds;
    PollsStep(rounds, round, script, pending);
  }

  /** Taking the first pending poll moves it from what is left to the polls taken. */
  lemma PollsStep(rounds: seq<RoundLog>, round: RoundLog, script: seq<NativePoll>, pending: seq<NativePoll>)
    requires script == Polls(rounds) + pending
    requires pending != [] && round.poll == pending[0]
    ensures script == Polls(rounds + [round]) + pending[1..]
  {
    PollsSnoc(rounds, round);
    ConsumeHead(Polls(rounds), pending);
  }

  /** One more round adds its poll at the end. */
  lemma PollsSnoc(rounds: seq<RoundLog>, round: RoundLog)
    ensures Polls(rounds + [round]) == Polls(rounds) + [round.poll]
  {
    var rs := rounds + [round];
    assert rs[..|rs| - 1] == rounds;
  }

  /** Moving the head of the pending part to the end of the taken part keeps the whole. */
  lemma ConsumeHead<T>(taken: seq<T>, pending: seq<T>)
    requires pending != []
    ensures taken + pending == (taken + [pending[0]]) + pending[1..]
  {
    assert pending == [pending[0]] + pending[1..];
  }

  /** The polls a log took are the first ones of its script; what is left is the rest. */
  lemma LoggedPolls(rounds: seq<RoundLog>, script: seq<NativePoll>, pending: seq<NativePoll>)
    requires script == Polls(rounds) + pending
    ensures |rounds| <= |script| && pending == script[|rounds|..]
    ensures forall k :: 0 <= k < |rounds| ==> rounds[k].poll == script[k]
  {
    PollsAt(rounds);
  }

  /** The `k`th poll of a log is the one its `k`th iteration took. */
  lemma {:induction false} PollsAt(rounds: seq<RoundLog>)
    ensures forall k :: 0 <= k < |rounds| ==> Polls(rounds)[k] == rounds[k].poll
  {
    if rounds != [] {
      var init := rounds[..|rounds| - 1];
      PollsAt(init);
      assert forall k :: 0 <= k < |init| ==> init[k] == rounds[k];
    }
  }

  /** When `before + pass` is a prefix of `after`, what follows `before` in `after` starts with `pass`. */
  lemma SplitAfter<T>(before: seq<T>, pass: seq<T>, after: seq<T>) returns (tail: seq<T>)
    requires before + pass <= after
    ensures after == before + tail && pass <= tail
  {
    tail := after[|before|..];
    assert after[..|before|] == before;
  }

  /** Visiting one more id adds that id's copy when it is flagged. */
  lemma CopiesSnoc(ids: seq<WindowId>, id: WindowId, windows: map<WindowId, WindowState>, todos: map<WindowId, bv8>)
    ensures Copies(ids + [id], windows, todos)
            == Copies(ids, windows, todos)
               + (if id in windows && id in todos && Flagged(todos[id]) then [CopyOf(id, windows[id])] else [])
  {
    assert (ids + [id])[..|ids|] == ids;
  }

  /** The copies made are those of the flagged windows visited, and only those. */
  lemma {:induction false} CopiesAreTheFlagged(ids: seq<WindowId>, windows: map<WindowId, WindowState>, todos: map<WindowId, bv8>)
    requires forall id :: id in ids ==> id in windows && id in todos
    ensures forall id :: id in ids && Flagged(todos[id]) ==> CopyOf(id, windows[id]) in Copies(ids, windows, todos)
    ensures forall c :: c in Copies(ids, windows, todos) ==>
              exists id :: id in ids && Flagged(todos[id]) && c == CopyOf(id, windows[id])
    decreases |ids|
  {
    if ids != [] {
      var init := ids[..|ids| - 1];
      var last := ids[|ids| - 1];
      CopiesAreTheFlagged(init, windows, todos);
      assert ids == init + [last];
      forall c | c in Copies(ids, windows, todos)
        ensures exists id :: id in ids && Flagged(todos[id]) && c == CopyOf(id, windows[id])
      {
        if c !in Copies(init, windows, todos) {
          assert c == CopyOf(last, windows[last]) && Flagged(todos[last]);
        }
      }
    }
  }

  /**
   * What releasing a window asks for: detaching the segment and unmapping the
   * buffer for shared memory only, then freeing the pixmap.
   */
  function ReleasePlan(w: WindowState): (plan: seq<Call>)
    ensures |plan| == if w.kind.Shm? then 3 else 1
    ensures plan[|plan| - 1] == FreePixmap(w.pixmap)
    ensures w.kind.Native? ==> plan == [FreePixmap(w.pixmap)]
    ensures w.kind.Shm? ==> plan[..2] == [ShmDetach(w.kind.seg), Munmap(w.buffer.Length)]
  {
    (if w.kind.Shm? then [ShmDetach(w.kind.seg), Munmap(w.buffer.Length)] else []) + [FreePixmap(w.pixmap)]
  }

  /**
   * Against the other revision: for shared memory both release the same things in
   * the same order, but this one never unmaps a native buffer.
   */
  lemma ReleaseAgainstOtherRevision(w: WindowState, p: XcbWindow.WindowPlatform)
    requires p.buffer == w.buffer && p.pixmap == w.pixmap
    requires w.kind.Shm? <==> p.kind.Shm?
    requires w.kind.Shm? ==> p.kind.seg == w.kind.seg
    ensures w.kind.Shm? ==> ReleasePlan(w) == XcbWindow.ReleasePlan(p)
    ensures w.kind.Native? ==> Munmap(w.buffer.Length) !in ReleasePlan(w) && Munmap(w.buffer.Length) in XcbWindow.ReleasePlan(p)
  {
    if w.kind.Native? {
      assert XcbWindow.ReleasePlan(p)[0] == Munmap(w.buffer.Length);
    }
  }

  /** The release requests of the windows `ids` of `ws`, one window after the other, in the order of `ids`. */
  function ReleaseRequests(ids: seq<WindowId>, ws: map<WindowId, WindowState>): seq<Call>
  {
    if ids == [] then []
    else
      var last := ids[|ids| - 1];
      ReleaseRequests(ids[..|ids| - 1], ws) + (if last in ws then ReleasePlan(ws[last]) else [])
  }

  /** Releasing one more window appends its release plan. */
  lemma ReleaseRequestsSnoc(calls0: seq<Call>, ids: seq<WindowId>, id: WindowId, ws: map<WindowId, WindowState>)
    requires id in ws
    ensures calls0 + ReleaseRequests(ids, ws) + ReleasePlan(ws[id]) == calls0 + ReleaseRequests(ids + [id], ws)
  {
    var s := ids + [id];
    assert s[..|s| - 1] == ids;
  }

  /** A release as run with its requests unwrapped: the calls made and whether one of them panicked. */
  datatype Release = Release(calls: seq<Call>, panicked: bool)

  /** `destroy_window`, its first call at position `n`. */
  function ReleaseRun(n: nat, faults: map<nat, XError>, w: WindowState): (t: Release)
    ensures t.calls <= ReleasePlan(w) && |t.calls| >= 1
    ensures t.panicked <==> (w.kind.Shm? && n in faults) || n + |ReleasePlan(w)| - 1 in faults
    ensures !t.panicked ==> t.calls == ReleasePlan(w)
    ensures w.kind.Shm? && n in faults ==> t.calls == [ShmDetach(w.kind.seg)]
  {
    var plan := ReleasePlan(w);
    if w.kind.Shm? && n in faults then Release(plan[..1], true)
    else Release(plan, n + |plan| - 1 in faults)
  }

  /** The todo bits of `id` once the ids in `done` had `REDRAW` cleared. */
  function Cleared(before: map<WindowId, bv8>, done: set<WindowId>, id: WindowId): bv8
    requires id in before
  {
    if id in done then before[id] & !REDRAW else before[id]
  }

  /** Every window's shared record is one of `inners`, and no two windows share one. */
  ghost predicate Owned(ws: map<WindowId, WindowState>, inners: set<WindowInner>)
  {
    && (forall id :: id in ws ==> ws[id].inner in inners)
    && forall a, b :: a in ws && b in ws && a != b ==> ws[a].inner != ws[b].inner
  }

  lemma OwnedRemove(ws: map<WindowId, WindowState>, inners: set<WindowInner>, id: WindowId)
    requires Owned(ws, inners)
    ensures Owned(ws - {id}, inners)
  {
  }

  lemma OwnedAdd(ws: map<WindowId, WindowState>, inners: set<WindowInner>, id: WindowId, w: WindowState)
    requires Owned(ws, inners) && forall o :: o in ws ==> ws[o].inner != w.inner
    ensures Owned(ws[id := w], inners + {w.inner})
  {
  }

  /** No call from position `n` on fails. */
  predicate NoFaultsFrom(faults: map<nat, XError>, n: nat)
  {
    forall i :: i in faults ==> i < n
  }

  class XcbHandle {
    const conn: XConnection
    const screenRoot: Xid
    /** Whether shared-memory pixmaps are supported. */
    const shm: bool
    const wmProtocols: Xid
    const wmDeleteWindow: Xid
    var windows: map<WindowId, WindowState>
    /** The windows `destroy_window` was applied to, in order. */
    ghost var released: seq<WindowId>
    /** The shared records of every window the handle created. */
    ghost var inners: set<WindowInner>

    constructor (conn: XConnection, screenRoot: Xid, shm: bool, wmProtocols: Xid, wmDeleteWindow: Xid)
      ensures this.conn == conn && this.screenRoot == screenRoot && this.shm == shm
      ensures this.wmProtocols == wmProtocols && this.wmDeleteWindow == wmDeleteWindow
      ensures windows == map[] && released == [] && inners == {}
    {
      this.conn := conn;
      this.screenRoot := screenRoot;
      this.shm := shm;
      this.wmProtocols := wmProtocols;
      this.wmDeleteWindow := wmDeleteWindow;
      windows := map[];
      released := [];
      inners := {};
    }


    /** `t` holds the todo bits of every window. */
    ghost predicate TodosAre(t: map<WindowId, bv8>)
      requires Valid()
      reads this`windows, this`inners, inners
    {
      t.Keys == windows.Keys && forall id :: id in windows ==> windows[id].inner.todo == t[id]
    }

    /** The todo bits of every window, as a map. */
    ghost method Snapshot() returns (t: map<WindowId, bv8>)
      requires Valid()
      ensures TodosAre(t)
    {
      t := map id | id in windows :: windows[id].inner.todo;
    }

    /** Errors are ones the conversions accept, and no two windows share their inner record. */
    ghost predicate Valid()
      reads this`windows, this`inners
    {
      XcbErrors.FaultsConvertible(conn.faults) && Owned(windows, inners)
    }

    /**
     * `create_window` (shared memory only: the private path ends in `todo!`): the
     * setup requests, the segment and its mapping, a flush, and then the new state
     * in the map under the window's id, with an empty todo set. The segment's reply
     * is `unwrap`ped: an error reply panics (`panicked`) and changes no window.
     */
    method CreateWindow(builder: XcbWindow.Builder) returns (r: Result<WindowId, E.OSError>, panicked: bool)
      requires Valid() && shm
      modifies this`windows, this`inners, conn`calls, conn`nextId
      ensures Valid()
      ensures var n := |old(conn.calls)|;
              var win := old(conn.nextId);
              var width := XcbWindow.SaturateU16(builder.width);
              var height := XcbWindow.SaturateU16(builder.height);
              var setup := XcbWindow.SetupPlan(win, NextXid(win), screenRoot, width, height, wmProtocols, wmDeleteWindow);
              && (!XcbWindow.Clean(conn.faults, n, 8) ==>
                    && RanUntilFailure(old(conn.calls), conn.calls, setup, conn.faults)
                    && r == Err(XcbErrors.FromXError(conn.faults[|conn.calls| - 1])))
              && (XcbWindow.Clean(conn.faults, n, 8) ==>
                    var b := XcbWindow.ShmBacking(n + 8, conn.faults, conn.mmapFailures, win, NextXid(NextXid(win)),
                                                  NextXid(NextXid(NextXid(win))), width, height);
                    && (panicked <==> XcbWindow.SegmentReplyFails(conn.faults, n + 8))
                    && (b.outcome.Err? ==> conn.calls == old(conn.calls) + setup + b.calls)
                    && (b.outcome.Err? && !panicked ==> r == Err(b.outcome.error))
                    && (b.outcome.Ok? ==> && conn.calls == old(conn.calls) + setup + b.calls + [Flush]
                                          && (r.Ok? <==> |conn.calls| - 1 !in conn.faults)
                                          && (r.Err? ==> r.error == XcbErrors.FromXError(conn.faults[|conn.calls| - 1]))))
      ensures !XcbWindow.Clean(conn.faults, |old(conn.calls)|, 8) ==> !panicked
      ensures r.Err? || panicked ==> windows == old(windows)
      ensures r.Ok? ==> !panicked
      ensures r.Ok? ==> var win := old(conn.nextId);
                        && r.value == FromX11(win) && r.value in windows
                        && windows == old(windows)[r.value := windows[r.value]]
                        && var w := windows[r.value];
                           && w.kind == Shm(NextXid(NextXid(NextXid(win))))
                           && w.gcontext == NextXid(win) && w.pixmap == NextXid(NextXid(win))
                           && w.width == XcbWindow.SaturateU16(builder.width) && w.height == XcbWindow.SaturateU16(builder.height)
                           && fresh(w.buffer) && w.buffer.Length == XcbWindow.SegmentSize(w.width, w.height)
                           && fresh(w.inner) && w.inner.size == (builder.width, builder.height)
                           && w.inner.frameBuffer == w.buffer && w.inner.frameBufferLen == w.buffer.Length
                           && w.inner.todo == 0
    {
      var width := XcbWindow.SaturateU16(builder.width);
      var height := XcbWindow.SaturateU16(builder.height);
      panicked := false;
      var ids := XcbWindow.Setup(conn, screenRoot, wmProtocols, wmDeleteWindow, width, height);
      if ids.Err? {
        r := Err(ids.error);
        return;
      }
      var (win, gcontext, pixmap) := ids.value;
      var backing;
      backing, panicked := XcbWindow.AttachShm(conn, win, pixmap, width, height, true);
      if backing.Err? {
        r := Err(backing.error);
        return;
      }
      var (buffer, shmKind) := backing.value;
      var inner := new WindowInner((builder.width, builder.height), buffer, buffer.Length);
      var state := WindowState(buffer, Shm(shmKind.seg), pixmap, gcontext, width, height, inner);
      var flushed := conn.Send(Flush);
      if flushed.Err? {
        r := Err(XcbErrors.FromXError(flushed.error));
        return;
      }
      OwnedAdd(windows, inners, FromX11(win), state);
      windows := windows[FromX11(win) := state];
      inners := inners + {inner};
      r := Ok(FromX11(win));
    }

    /** `destroy_window`: the release requests of one window, each unwrapped. */
    method DestroyWindow(ghost id: WindowId, state: WindowState) returns (panicked: bool)
      modifies conn`calls, this`released
      ensures var t := ReleaseRun(|old(conn.calls)|, conn.faults, state);
              conn.calls == old(conn.calls) + t.calls && panicked == t.panicked
      ensures NoFaultsFrom(conn.faults, |old(conn.calls)|) ==> !panicked
      ensures released == old(released) + [id]
    {
      released := released + [id];
      if state.kind.Shm? {
        var detached := conn.Send(ShmDetach(state.kind.seg));
        if detached.Err? {
          return true;
        }
        conn.Note(Munmap(state.buffer.Length));
      }
      var freed := conn.Send(FreePixmap(state.pixmap));
      panicked := freed.Err?;
    }

    /**
     * The redraw pass before each poll: in ascending id order, every window whose
     * todo carries `REDRAW` is copied to the screen, and `REDRAW` is cleared while
     * every other todo bit is kept.
     */
    method FlushRedraws(ghost before: map<WindowId, bv8>)
      requires Valid() && NoFaultsFrom(conn.faults, |conn.calls|) && TodosAre(before)
      modifies conn`calls, inners
      ensures conn.calls == old(conn.calls) + Copies(Ascending(windows.Keys), windows, before)
      ensures forall id :: id in windows ==> windows[id].inner.todo == before[id] & !REDRAW
    {
      RedrawAll(conn, windows, inners, before);
    }

    /**
     * The part of one loop iteration before the handler: the redraw pass, a flush,
     * and one poll, unwrapped and translated.
     */
    method Turn(ghost before: map<WindowId, bv8>) returns (polled: Polled)
      requires Valid() && NoFaultsFrom(conn.faults, |conn.calls|) && conn.pending != [] && TodosAre(before)
      modifies conn`calls, conn`pending, inners
      ensures polled == Translate(old(conn.pending)[0], wmDeleteWindow)
      ensures conn.pending == old(conn.pending)[1..]
      ensures conn.calls == old(conn.calls) + Copies(Ascending(windows.Keys), windows, before) + [Flush]
      ensures forall id :: id in windows ==> windows[id].inner.todo == before[id] & !REDRAW
    {
      FlushRedraws(before);
      var _ := conn.Send(Flush);
      var res := conn.PollForEvent();
      if res.Err? {
        polled := Failed;
      } else if res.value.None? {
        polled := Empty;
      } else {
        var event := TryConvert(res.value.value, wmDeleteWindow);
        polled := if event.Some? then Ready(event.value) else Empty;
      }
    }

    /** The teardown before the handler: a `Destroy` of a window in the map removes and releases it. */
    method TearDown(polled: Polled) returns (toreDown: Option<WindowId>)
      requires Valid() && NoFaultsFrom(conn.faults, |conn.calls|)
      modifies this`windows, this`released, conn`calls
      ensures Valid() && NoFaultsFrom(conn.faults, |conn.calls|)
      ensures toreDown == if polled.Ready? && IsDestroy(polled.event) && polled.event.window in old(windows)
                          then Some(polled.event.window) else None
      ensures windows == if toreDown.Some? then old(windows) - {toreDown.value} else old(windows)
      ensures released == old(released) + OptSeqId(toreDown)
      ensures old(conn.calls) <= conn.calls
      ensures conn.calls == old(conn.calls) + if toreDown.Some? then ReleasePlan(old(windows)[toreDown.value]) else []
    {
      toreDown := None;
      if polled.Ready? && polled.event.WindowEvent? && polled.event.event.Destroy? && polled.event.window in windows {
        var id := polled.event.window;
        Forget(id);
        toreDown := Some(id);
      }
    }

    /** Taking the tracked window `id` out of the map, then releasing it. */
    method Forget(id: WindowId)
      requires Valid() && NoFaultsFrom(conn.faults, |conn.calls|) && id in windows
      modifies this`windows, this`released, conn`calls
      ensures Valid() && NoFaultsFrom(conn.faults, |conn.calls|)
      ensures windows == old(windows) - {id} && released == old(released) + [id]
      ensures conn.calls == old(conn.calls) + ReleasePlan(old(windows)[id])
    {
      var state := windows[id];
      OwnedRemove(windows, inners, id);
      windows := windows - {id};
      assert Valid();
      var _ := DestroyWindow(id, state);
    }

    /**
     * One iteration of the loop: the redraw pass over the todo bits `before`, a flush
     * and a poll; then, unless the poll failed, the teardown of a destroyed window and
     * the handler call.
     */
    method Round(h: Handler, cf: ControlFlow, hadEvent: bool, prior: seq<Event>, ghost before: map<WindowId, bv8>)
      returns (polled: Polled, record: Iteration, cf': ControlFlow, hadEvent': bool, delivered: seq<Event>)
      requires Valid() && NoFaultsFrom(conn.faults, |conn.calls|) && TodosAre(before)
      requires conn.pending != [] && cf != Exit
      modifies this`windows, this`released, conn`calls, conn`pending, inners
      ensures Valid() && NoFaultsFrom(conn.faults, |conn.calls|)
      ensures old(conn.calls) + RedrawPass(old(windows), before) <= conn.calls
      ensures polled.Failed? ==> conn.calls == old(conn.calls) + RedrawPass(old(windows), before)
      ensures forall id :: id in windows ==> id in before && windows[id].inner.todo == before[id] & !REDRAW
      ensures polled == Translate(old(conn.pending)[0], wmDeleteWindow)
      ensures conn.pending == old(conn.pending)[1..]
      ensures polled.Failed? ==> windows == old(windows) && released == old(released)
      ensures !polled.Failed? ==>
                && record == Step(LoopState(cf, hadEvent, old(windows).Keys, prior), polled, h)
                && LoopState(cf', hadEvent', windows.Keys, delivered) == Next(record)
                && released == old(released) + OptSeqId(record.toreDown)
      ensures forall w :: w in windows ==> w in old(windows) && windows[w] == old(windows)[w]
    {
      polled := Turn(before);
      ghost var pass := conn.calls;
      assert pass == old(conn.calls) + RedrawPass(old(windows), before);
      record, cf', hadEvent', delivered := Iteration(cf, hadEvent, windows.Keys, prior, polled, None, None, cf, windows.Keys), cf, hadEvent, prior;
      if !polled.Failed? {
        record, cf', hadEvent', delivered := Handle(polled, h, cf, hadEvent, prior);
        assert pass <= conn.calls;
      }
    }

    /**
     * One iteration of the loop as `Round`, appended to the log `rounds`, and matched
     * against `RunLoop` from poll `i` of `polls`; `next` are the todo bits it leaves.
     */
    method Iterate(h: Handler, cf: ControlFlow, hadEvent: bool, prior: seq<Event>,
                   ghost script: seq<NativePoll>, ghost polls: seq<Polled>, ghost i: nat,
                   ghost trace: seq<Iteration>, ghost whole: RunResult, ghost released0: seq<WindowId>,
                   ghost rounds: seq<RoundLog>, ghost calls0: seq<Call>,
                   ghost w0: map<WindowId, WindowState>, ghost t0: map<WindowId, bv8>, ghost todos: map<WindowId, bv8>)
      returns (polled: Polled, record: Iteration, cf': ControlFlow, hadEvent': bool, delivered: seq<Event>,
               ghost round: RoundLog, ghost next: map<WindowId, bv8>, ghost rest: RunResult)
      requires Valid() && NoFaultsFrom(conn.faults, |conn.calls|) && TodosAre(todos)
      requires conn.pending != [] && cf != Exit
      requires polls == TranslateAll(script, wmDeleteWindow) && i <= |script| && conn.pending == script[i..]
      requires var rest := RunLoop(polls[i..], h, {}, LoopState(cf, hadEvent, windows.Keys, prior));
               whole == RunResult(trace + rest.trace, rest.final, rest.outcome)
      requires Logged(rounds, calls0, conn.calls, script, conn.pending, w0, t0, windows, todos)
      requires released == released0 + TornDown(trace)
      modifies this`windows, this`released, conn`calls, conn`pending, inners
      ensures Valid() && NoFaultsFrom(conn.faults, |conn.calls|) && TodosAre(next)
      ensures Logged(rounds + [round], calls0, conn.calls, script, conn.pending, w0, t0, windows, next)
      ensures i < |script| && conn.pending == script[i + 1..]
      ensures polled.Failed? ==> && windows == old(windows) && released == released0 + TornDown(trace)
                                 && whole == RunResult(trace, LoopState(cf, hadEvent, windows.Keys, prior), Panicked)
      ensures !polled.Failed? ==>
                && released == released0 + TornDown(trace + [record])
                && rest == RunLoop(polls[i + 1..], h, {}, LoopState(cf', hadEvent', windows.Keys, delivered))
                && whole == RunResult(trace + [record] + rest.trace, rest.final, rest.outcome)
    {
      ghost var cur := LoopState(cf, hadEvent, windows.Keys, prior);
      assert polls[i] == Translate(conn.pending[0], wmDeleteWindow);
      polled, record, cf', hadEvent', delivered, round, next := LoggedRound(h, cf, hadEvent, prior, script, rounds, calls0, w0, t0, todos);
      rest := RunLoop(polls[i + 1..], h, {}, LoopState(cf', hadEvent', windows.Keys, delivered));
      if polled.Failed? {
        assert polls[i..][0] == polled;
      } else {
        RunLoopAdvance(polls, i, h, {}, cur, trace, whole);
        ReleasedStep(released0, trace, record);
      }
    }

    /**
     * One iteration as `Round`, with its requests, the windows and the todo bits it began
     * with appended to the log `rounds`; `next` are the todo bits it leaves.
     */
    method LoggedRound(h: Handler, cf: ControlFlow, hadEvent: bool, prior: seq<Event>, ghost script: seq<NativePoll>,
                       ghost rounds: seq<RoundLog>, ghost calls0: seq<Call>,
                       ghost w0: map<WindowId, WindowState>, ghost t0: map<WindowId, bv8>, ghost todos: map<WindowId, bv8>)
      returns (polled: Polled, record: Iteration, cf': ControlFlow, hadEvent': bool, delivered: seq<Event>,
               ghost round: RoundLog, ghost next: map<WindowId, bv8>)
      requires Valid() && NoFaultsFrom(conn.faults, |conn.calls|) && TodosAre(todos)
      requires conn.pending != [] && cf != Exit
      requires Logged(rounds, calls0, conn.calls, script, conn.pending, w0, t0, windows, todos)
      modifies this`windows, this`released, conn`calls, conn`pending, inners
      ensures Valid() && NoFaultsFrom(conn.faults, |conn.calls|) && TodosAre(next)
      ensures Logged(rounds + [round], calls0, conn.calls, script, conn.pending, w0, t0, windows, next)
      ensures polled == Translate(old(conn.pending)[0], wmDeleteWindow)
      ensures conn.pending == old(conn.pending)[1..]
      ensures polled.Failed? ==> windows == old(windows) && released == old(released)
      ensures !polled.Failed? ==>
                && record == Step(LoopState(cf, hadEvent, old(windows).Keys, prior), polled, h)
                && LoopState(cf', hadEvent', windows.Keys, delivered) == Next(record)
                && released == old(released) + OptSeqId(record.toreDown)
      ensures forall w :: w in windows ==> w in old(windows) && windows[w] == old(windows)[w]
    {
      ghost var before := conn.calls;
      polled, record, cf', hadEvent', delivered := Round(h, cf, hadEvent, prior, todos);
      round := RoundLog(old(windows), todos, conn.calls[|before|..], old(conn.pending)[0]);
      next := Snapshot();
      SnapshotFollows(round, next);
      LogRound(rounds, calls0, before, conn.calls, script, old(conn.pending), w0, t0, round, windows, next);
    }

    /** The todo bits `next` read after an iteration that cleared `REDRAW` in those `round` began with follow `round`. */
    lemma SnapshotFollows(round: RoundLog, next: map<WindowId, bv8>)
      requires Valid() && TodosAre(next)
      requires forall id :: id in windows ==> id in round.windows && windows[id] == round.windows[id]
      requires forall id :: id in windows ==> id in round.todos && windows[id].inner.todo == round.todos[id] & !REDRAW
      ensures Follows(round, windows, next)
    {
    }

    /** The loop body after a successful poll: the teardown of a destroyed window, then the handler call. */
    method Handle(polled: Polled, h: Handler, cf: ControlFlow, hadEvent: bool, prior: seq<Event>)
      returns (record: Iteration, cf': ControlFlow, hadEvent': bool, delivered: seq<Event>)
      requires Valid() && NoFaultsFrom(conn.faults, |conn.calls|)
      requires cf != Exit && !polled.Failed?
      modifies this`windows, this`released, conn`calls
      ensures Valid() && NoFaultsFrom(conn.faults, |conn.calls|)
      ensures record == Step(LoopState(cf, hadEvent, old(windows).Keys, prior), polled, h)
      ensures LoopState(cf', hadEvent', windows.Keys, delivered) == Next(record)
      ensures released == old(released) + OptSeqId(record.toreDown)
      ensures forall w :: w in windows ==> w in old(windows) && windows[w] == old(windows)[w]
      ensures forall w :: w in windows ==> windows[w].inner.todo == old(windows[w].inner.todo)
      ensures old(conn.calls) <= conn.calls
    {
      var live := windows.Keys;
      var toreDown := TearDown(polled);
      var handled;
      handled, cf', hadEvent', delivered := Dispatch(polled, h, cf, hadEvent, prior, windows.Keys);
      record := Iteration(cf, hadEvent, live, prior, polled, toreDown, handled, cf', windows.Keys);
    }

    /**
     * `run`: starts under `Wait` and loops until the handler sets `Exit`, over the
     * native polls still pending; then releases every window still in the map.
     */
    method Run(h: Handler) returns (trace: seq<Iteration>, outcome: Outcome, ghost rounds: seq<RoundLog>)
      requires Valid() && NoFaultsFrom(conn.faults, |conn.calls|)
      modifies this`windows, this`released, conn`calls, conn`pending, inners
      ensures |rounds| == |trace| + (if outcome == Panicked then 1 else 0)
      ensures old(conn.calls) + Flatten(rounds) <= conn.calls
      ensures Passes(rounds)
      ensures |rounds| > 0 ==> rounds[0].windows == old(windows)
      ensures |rounds| > 0 ==> forall id :: id in old(windows) ==> id in rounds[0].todos && rounds[0].todos[id] == old(windows[id].inner.todo)
      ensures var r := RunLoop(TranslateAll(old(conn.pending), wmDeleteWindow), h, {},
                               LoopState(Wait, false, old(windows).Keys, []));
              trace == r.trace && outcome == r.outcome && windows.Keys == r.final.live
      ensures forall w :: w in windows ==> w in old(windows) && windows[w] == old(windows)[w]
      ensures released == old(released) + TornDown(trace) + (if outcome == Exited then Ascending(windows.Keys) else [])
      ensures |trace| + (if outcome == Panicked then 1 else 0) <= |old(conn.pending)|
      ensures conn.pending == old(conn.pending)[|trace| + (if outcome == Panicked then 1 else 0)..]
    {
      ghost var start, todos;
      trace, outcome, rounds, start, todos := Loop(h);
      LoggedPolls(rounds, old(conn.pending), conn.pending);
      ChainPasses(rounds, old(windows), start, windows, todos);
      ChainWindows(rounds, old(windows), start, windows, todos);
      if outcome == Exited {
        ReleaseRemaining();
      }
    }

    /**
     * The loop of `run`, from `Wait`: iterations until the handler sets `Exit`, the polls
     * run out or a poll fails, each logged in `rounds` with the requests it sent.
     */
    method Loop(h: Handler)
      returns (trace: seq<Iteration>, outcome: Outcome, ghost rounds: seq<RoundLog>, ghost start: map<WindowId, bv8>,
               ghost todos: map<WindowId, bv8>)
      requires Valid() && NoFaultsFrom(conn.faults, |conn.calls|)
      modifies this`windows, this`released, conn`calls, conn`pending, inners
      ensures |rounds| == |trace| + (if outcome == Panicked then 1 else 0)
      ensures Valid() && NoFaultsFrom(conn.faults, |conn.calls|)
      ensures Logged(rounds, old(conn.calls), conn.calls, old(conn.pending), conn.pending, old(windows), start, windows, todos)
      ensures start.Keys == old(windows).Keys && forall id :: id in start ==> start[id] == old(windows[id].inner.todo)
      ensures var r := RunLoop(TranslateAll(old(conn.pending), wmDeleteWindow), h, {},
                               LoopState(Wait, false, old(windows).Keys, []));
              trace == r.trace && outcome == r.outcome && windows.Keys == r.final.live
      ensures released == old(released) + TornDown(trace)
    {
      ghost var polls := TranslateAll(conn.pending, wmDeleteWindow);
      ghost var script := conn.pending;
      var cf := Wait;
      var thereWasAnEventBefore := false;
      var delivered: seq<Event> := [];
      ghost var i := 0;
      trace := [];
      ghost var whole := RunLoop(polls, h, {}, LoopState(Wait, false, windows.Keys, []));
      ghost var rest := whole;
      start := Snapshot();
      todos := start;
      rounds := [];
      outcome := Exited;
      while cf != Exit
        invariant Valid() && NoFaultsFrom(conn.faults, |conn.calls|)
        invariant 0 <= i <= |polls| && conn.pending == script[i..]
        invariant rest == RunLoop(polls[i..], h, {}, LoopState(cf, thereWasAnEventBefore, windows.Keys, delivered))
        invariant whole == RunResult(trace + rest.trace, rest.final, rest.outcome)
        invariant |trace| == i
        invariant released == old(released) + TornDown(trace)
        invariant |rounds| == i && TodosAre(todos)
        invariant Logged(rounds, old(conn.calls), conn.calls, script, conn.pending, old(windows), start, windows, todos)
        invariant outcome == Exited
        decreases |polls| - i
      {
        ghost var cur := LoopState(cf, thereWasAnEventBefore, windows.Keys, delivered);
        if conn.pending == [] {
          RunLoopStops(polls, i, h, {}, cur, trace, whole);
          outcome := OutOfPolls;
          break;
        }
        var polled, record;
        ghost var round, next, rest';
        polled, record, cf, thereWasAnEventBefore, delivered, round, next, rest' :=
          Iterate(h, cf, thereWasAnEventBefore, delivered, script, polls, i, trace, whole, old(released),
                  rounds, old(conn.calls), old(windows), start, todos);
        rounds, todos := rounds + [round], next;
        if polled.Failed? {
          outcome := Panicked;
          break;
        }
        trace := trace + [record];
        rest := rest';
        i := i + 1;
      }
      if outcome == Exited {
        RunLoopStops(polls, i, h, {}, LoopState(cf, thereWasAnEventBefore, windows.Keys, delivered), trace, whole);
      }
    }

    /** One step of `ReleaseRemaining`: the release of window `id`, after those of `visited`. */
    method ReleaseNext(id: WindowId, ghost visited: seq<WindowId>, ghost calls0: seq<Call>, ghost released0: seq<WindowId>)
      requires id in windows && NoFaultsFrom(conn.faults, |conn.calls|)
      requires calls0 <= conn.calls && conn.calls == calls0 + ReleaseRequests(visited, windows)
      requires released == released0 + visited
      modifies conn`calls, this`released
      ensures NoFaultsFrom(conn.faults, |conn.calls|) && windows == old(windows) && conn.pending == old(conn.pending)
      ensures calls0 <= conn.calls && conn.calls == calls0 + ReleaseRequests(visited + [id], windows)
      ensures released == released0 + (visited + [id])
    {
      var _ := DestroyWindow(id, windows[id]);
      ReleasedSnoc(released0, visited, id);
      ReleaseRequestsSnoc(calls0, visited, id, windows);
    }

    /** The release of every window still in the map, in ascending id order; the map itself is kept. */
    method ReleaseRemaining()
      requires NoFaultsFrom(conn.faults, |conn.calls|)
      modifies conn`calls, this`released
      ensures NoFaultsFrom(conn.faults, |conn.calls|)
      ensures released == old(released) + Ascending(windows.Keys)
      ensures old(conn.calls) <= conn.calls && windows == old(windows) && conn.pending == old(conn.pending)
      ensures conn.calls == old(conn.calls) + ReleaseRequests(Ascending(windows.Keys), windows)
    {
      var remaining := windows.Keys;
      ghost var keys := remaining;
      ghost var visited: seq<WindowId> := [];
      while remaining != {}
        invariant remaining <= keys
        invariant NoFaultsFrom(conn.faults, |conn.calls|)
        invariant visited + Ascending(remaining) == Ascending(keys)
        invariant released == old(released) + visited
        invariant old(conn.calls) <= conn.calls
        invariant conn.calls == old(conn.calls) + ReleaseRequests(visited, windows)
        decreases |remaining|
      {
        LeastExists(remaining);
        var id :| IsLeast(id, remaining);
        VisitLeast(visited, remaining, keys, id);
        ReleaseNext(id, visited, old(conn.calls), old(released));
        visited := visited + [id];
        remaining := remaining - {id};
      }
      assert visited == visited + Ascending(remaining);
    }

  }

  /** The copy-and-clear loop of the redraw pass over the window map `ws`, whose todo bits are `before`. */
  method RedrawAll(conn: XConnection, ws: map<WindowId, WindowState>, ghost inners: set<WindowInner>,
                   ghost before: map<WindowId, bv8>)
    requires NoFaultsFrom(conn.faults, |conn.calls|)
    requires before.Keys == ws.Keys
    requires Owned(ws, inners) && forall id :: id in ws ==> ws[id].inner.todo == before[id]
    modifies conn`calls, inners
    ensures conn.calls == old(conn.calls) + Copies(Ascending(ws.Keys), ws, before)
    ensures forall id :: id in ws ==> ws[id].inner.todo == before[id] & !REDRAW
  {
    var remaining := ws.Keys;
    ghost var visited: seq<WindowId> := [];
    while remaining != {}
      invariant remaining <= ws.Keys
      invariant visited + Ascending(remaining) == Ascending(ws.Keys)
      invariant conn.calls == old(conn.calls) + Copies(visited, ws, before)
      invariant forall id :: id in ws ==> ws[id].inner.todo == Cleared(before, ws.Keys - remaining, id)
      decreases |remaining|
    {
      remaining, visited := RedrawNext(conn, ws, inners, before, remaining, visited, old(conn.calls));
    }
    assert visited == visited + Ascending(remaining);
  }

  /** One turn of the redraw loop: the least window not visited yet is redrawn and moves to the visited ones. */
  method RedrawNext(conn: XConnection, ws: map<WindowId, WindowState>, ghost inners: set<WindowInner>,
                    ghost before: map<WindowId, bv8>, remaining: set<WindowId>, ghost visited: seq<WindowId>,
                    ghost start: seq<Call>)
    returns (remaining': set<WindowId>, ghost visited': seq<WindowId>)
    requires NoFaultsFrom(conn.faults, |conn.calls|)
    requires before.Keys == ws.Keys && Owned(ws, inners)
    requires remaining != {} && remaining <= ws.Keys
    requires visited + Ascending(remaining) == Ascending(ws.Keys)
    requires conn.calls == start + Copies(visited, ws, before)
    requires forall id :: id in ws ==> ws[id].inner.todo == Cleared(before, ws.Keys - remaining, id)
    modifies conn`calls, inners
    ensures NoFaultsFrom(conn.faults, |conn.calls|)
    ensures remaining' <= ws.Keys && |remaining'| < |remaining|
    ensures visited' + Ascending(remaining') == Ascending(ws.Keys)
    ensures conn.calls == start + Copies(visited', ws, before)
    ensures forall id :: id in ws ==> ws[id].inner.todo == Cleared(before, ws.Keys - remaining', id)
  {
    LeastExists(remaining);
    var id :| IsLeast(id, remaining);
    VisitLeast(visited, remaining, ws.Keys, id);
    RedrawStep(conn, ws, id, before, ws.Keys - remaining, start, visited);
    visited' := visited + [id];
    remaining' := remaining - {id};
  }

  /** One step of the redraw pass, for a window not visited yet. */
  method RedrawStep(conn: XConnection, ws: map<WindowId, WindowState>, id: WindowId, ghost before: map<WindowId, bv8>,
                    ghost done: set<WindowId>, ghost start: seq<Call>, ghost visited: seq<WindowId>)
    requires NoFaultsFrom(conn.faults, |conn.calls|)
    requires id in ws && id !in done && before.Keys == ws.Keys
    requires forall o :: o in ws && o != id ==> ws[o].inner != ws[id].inner
    requires forall o :: o in ws ==> ws[o].inner.todo == Cleared(before, done, o)
    requires conn.calls == start + Copies(visited, ws, before)
    modifies conn`calls, ws[id].inner
    ensures conn.calls == start + Copies(visited + [id], ws, before)
    ensures forall o :: o in ws ==> ws[o].inner.todo == Cleared(before, done + {id}, o)
  {
    ghost var c := if Flagged(before[id]) then [CopyOf(id, ws[id])] else [];
    RedrawOne(conn, id, ws[id]);
    CopiesSnoc(visited, id, ws, before);
    assert conn.calls == start + (Copies(visited, ws, before) + c);
  }

  /** One window of the redraw pass: the copy if it is flagged, then its todo without `REDRAW`. */
  method RedrawOne(conn: XConnection, id: WindowId, w: WindowState)
    requires NoFaultsFrom(conn.faults, |conn.calls|)
    modifies conn`calls, w.inner
    ensures conn.calls == old(conn.calls) + if Flagged(old(w.inner.todo)) then [CopyOf(id, w)] else []
    ensures w.inner.todo == old(w.inner.todo) & !REDRAW
  {
    var todo := w.inner.todo;
    if todo & REDRAW != 0 {
      var _ := conn.Send(CopyOf(id, w));
      todo := todo & !REDRAW;
    }
    w.inner.todo := todo;
  }

  /**
   * The handler call of one iteration, after any teardown, with `live` the windows
   * then tracked: a polled event is handed over; an empty poll hands over
   * `MainEventsCleared` under `Poll`, or under `Wait` right after an event.
   */
  method Dispatch(polled: Polled, h: Handler, cf: ControlFlow, hadEvent: bool, prior: seq<Event>, live: set<WindowId>)
    returns (handled: Option<Event>, cf': ControlFlow, hadEvent': bool, delivered: seq<Event>)
    requires !polled.Failed?
    ensures polled.Ready? ==> handled == Some(polled.event)
    ensures polled.Empty? ==> handled == if IdleTick(cf, hadEvent) then Some(MainEventsCleared) else None
    ensures delivered == prior + OptSeq(handled)
    ensures cf' == if handled.Some? then h(delivered, live, cf) else cf
    ensures hadEvent' == polled.Ready?
  {
    handled := None;
    cf' := cf;
    delivered := prior;
    if polled.Ready? {
      delivered := delivered + [polled.event];
      handled := Some(polled.event);
      cf' := h(delivered, live, cf);
      hadEvent' := true;
    } else {
      if cf == Poll || hadEvent {
        delivered := delivered + [MainEventsCleared];
        handled := Some(MainEventsCleared);
        cf' := h(delivered, live, cf);
      }
      hadEvent' := false;
    }
  }

  /** The releases of a trace grow by those of its next iteration. */
  lemma ReleasedStep(start: seq<WindowId>, trace: seq<Iteration>, it: Iteration)
    ensures start + TornDown(trace) + OptSeqId(it.toreDown) == start + TornDown(trace + [it])
  {
    TornDownAppend(trace, [it]);
    assert TornDown([it]) == OptSeqId(it.toreDown) + TornDown([]);
  }

  /** Releasing one more window extends the visited prefix of the releases. */
  lemma ReleasedSnoc(start: seq<WindowId>, visited: seq<WindowId>, id: WindowId)
    ensures start + visited + [id] == start + (visited + [id])
  {
  }
}
