/**
 * Window buffers of the XCB backend (the `xcb/` revision): creating a window with
 * either a shared-memory segment or a private anonymous mapping behind it,
 * releasing those resources, and copying the buffer to the screen.
 */
module XcbWindow {
  import opened Wrappers
  import opened Events
  import opened X11Rb
  import opened X11Conn
  import opened Xcb
  import XcbErrors
  import E = Errors

  /** The size a `WindowBuilder` asks for; its `f64` fields are integers here. */
  datatype Builder = Builder(width: int, height: int)

  /** `AtomEnum::ATOM`, the type of the `WM_PROTOCOLS` property. */
  const ATOM: Xid := 4

  /** `as u16` on a builder dimension: Rust's float-to-integer cast saturates at the bounds of the type. */
  function SaturateU16(x: int): u16
  {
    if x < 0 then 0 else if x >= U16_LIMIT then U16_LIMIT - 1 else x
  }

  /** `(width as u32) * (height as u32) * 4`: u32 arithmetic, which wraps around in a release build. */
  function SegmentSize(width: u16, height: u16): (size: u32)
    ensures width * height * 4 < U32_LIMIT ==> size == width * height * 4
  {
    AreaNonneg(width, height);
    (width * height * 4) % U32_LIMIT
  }

  /** A window's byte count is never negative. */
  lemma AreaNonneg(width: u16, height: u16)
    ensures 0 <= width * height * 4
  {
    assert 0 <= width * height;
  }

  /** The buffer length of each backing: the segment size, or `width * height * 4` computed in `usize`. */
  function BufferLen(shm: bool, width: u16, height: u16): (len: nat)
    ensures !shm || width * height * 4 < U32_LIMIT ==> len == width * height * 4
    ensures shm ==> len < U32_LIMIT
  {
    AreaNonneg(width, height);
    if shm then SegmentSize(width, height) else width * height * 4
  }

  /**
   * The u32 product does overflow: a 32768 by 32768 window asks for a segment of
   * zero bytes, while the private backing of the same window has 4 GiB.
   */
  lemma SegmentSizeWraps()
    ensures SegmentSize(0x8000, 0x8000) == 0
    ensures BufferLen(false, 0x8000, 0x8000) == U32_LIMIT
  {
  }

  /** Where the pixels live. */
  datatype BufferKind = Native(screenDepth: nat) | Shm(seg: Xid)

  /** `WindowInner`: the builder's size and the mapped frame buffer with its length. */
  datatype WindowInner = WindowInner(size: (Coord, Coord), frameBuffer: array<bv8>, frameBufferLen: nat)

  /** `WindowPlatform`: the backend's record of a window. */
  datatype WindowPlatform = WindowPlatform(
    buffer: array<bv8>,
    kind: BufferKind,
    pixmap: Xid,
    gcontext: Xid,
    width: u16,
    height: u16,
    inner: WindowInner)

  datatype Window = Window(id: WindowId, inner: WindowInner, platform: WindowPlatform)

  /** No call at positions `n` .. `n + k - 1` of the log fails. */
  predicate Clean(faults: map<nat, XError>, n: nat, k: nat)
  {
    forall i :: n <= i < n + k ==> i !in faults
  }

  /** The requests that set the window up, up to and including the id of its pixmap. */
  function SetupPlan(win: Xid, gc: Xid, root: Xid, width: u16, height: u16, wmProtocols: Xid, wmDeleteWindow: Xid): seq<Call>
  {
    [Call.GenerateId, Call.CreateWindow(win, root, width, height),
     ChangeProperty32(win, wmProtocols, ATOM, [wmDeleteWindow]),
     Call.GenerateId, CreateGc(gc, win), MapWindow(win), Flush, Call.GenerateId]
  }

  /** The calls that give the window its pixels when nothing fails. */
  function BackingPlan(shm: bool, win: Xid, pixmap: Xid, seg: Xid, width: u16, height: u16): seq<Call>
  {
    if shm then
      [Call.GenerateId, ShmCreateSegment(seg, SegmentSize(width, height)), Mmap(SegmentSize(width, height), true),
       ShmCreatePixmap(pixmap, win, width, height, seg)]
    else
      [CreatePixmap(pixmap, win, width, height), Mmap(width * height * 4, false)]
  }

  /** What a backing stage did: its calls, and the kind of buffer it produced or the error it returned. */
  datatype Backing = Backing(calls: seq<Call>, outcome: Result<BufferKind, E.OSError>)

  /**
   * The shared-memory stage, its first call at position `n`: a segment id, the
   * segment, the mapping and the pixmap over it. Once the segment exists, every
   * failure detaches it before returning.
   */
  function ShmBacking(n: nat, faults: map<nat, XError>, mmapFailures: set<nat>, win: Xid, pixmap: Xid, seg: Xid,
                      width: u16, height: u16): (b: Backing)
    requires XcbErrors.FaultsConvertible(faults)
    ensures b.outcome.Ok? <==> Clean(faults, n, 2) && n + 2 !in mmapFailures && n + 3 !in faults
    ensures b.outcome.Ok? ==> b.outcome.value == Shm(seg) && b.calls == BackingPlan(true, win, pixmap, seg, width, height)
    ensures b.outcome.Err? && |b.calls| > 2 ==> b.calls[|b.calls| - 1] == ShmDetach(seg)
    ensures Clean(faults, n, 2) && n + 2 in mmapFailures ==>
              && b.calls == BackingPlan(true, win, pixmap, seg, width, height)[..3] + [ShmDetach(seg)]
              && b.outcome == Err(if n + 3 in faults then XcbErrors.FromXError(faults[n + 3]) else E.InsufficientMemory)
    ensures Clean(faults, n, 2) && n + 2 !in mmapFailures && n + 3 in faults ==>
              && b.calls == BackingPlan(true, win, pixmap, seg, width, height) + [ShmDetach(seg)]
              && b.outcome == Err(XcbErrors.FromXError(faults[n + 3]))
    ensures !Clean(faults, n, 2) ==> && 1 <= |b.calls| <= 2 && b.calls == BackingPlan(true, win, pixmap, seg, width, height)[..|b.calls|]
                                     && n + |b.calls| - 1 in faults && Clean(faults, n, |b.calls| - 1)
                                     && b.outcome == Err(XcbErrors.FromXError(faults[n + |b.calls| - 1]))
  {
    var size := SegmentSize(width, height);
    var plan := BackingPlan(true, win, pixmap, seg, width, height);
    if n in faults then Backing(plan[..1], Err(XcbErrors.FromXError(faults[n])))
    else if n + 1 in faults then Backing(plan[..2], Err(XcbErrors.FromXError(faults[n + 1])))
    else if n + 2 in mmapFailures then
      Backing(plan[..3] + [ShmDetach(seg)],
              Err(if n + 3 in faults then XcbErrors.FromXError(faults[n + 3]) else E.InsufficientMemory))
    else if n + 3 in faults then Backing(plan + [ShmDetach(seg)], Err(XcbErrors.FromXError(faults[n + 3])))
    else Backing(plan, Ok(Shm(seg)))
  }

  /**
   * The segment request of a shared-memory stage that starts at position `n` is
   * sent, but its reply is an error: a fault other than a failure to send it.
   */
  predicate SegmentReplyFails(faults: map<nat, XError>, n: nat)
  {
    n !in faults && n + 1 in faults && !faults[n + 1].Connection?
  }

  /**
   * The private stage, its first call at position `n`: a server-side pixmap and an
   * anonymous mapping. A failed mapping returns `InsufficientMemory` at once.
   */
  function PrivateBacking(n: nat, faults: map<nat, XError>, mmapFailures: set<nat>, win: Xid, pixmap: Xid,
                          width: u16, height: u16, depth: nat): (b: Backing)
    requires XcbErrors.FaultsConvertible(faults)
    ensures b.outcome.Ok? <==> n !in faults && n + 1 !in mmapFailures
    ensures b.outcome.Ok? ==> b.outcome.value == Native(depth) && b.calls == BackingPlan(false, win, pixmap, 0, width, height)
    ensures n in faults ==> b == Backing([CreatePixmap(pixmap, win, width, height)], Err(XcbErrors.FromXError(faults[n])))
    ensures n !in faults && n + 1 in mmapFailures ==>
              b == Backing(BackingPlan(false, win, pixmap, 0, width, height), Err(E.InsufficientMemory))
  {
    var plan := BackingPlan(false, win, pixmap, 0, width, height);
    if n in faults then Backing(plan[..1], Err(XcbErrors.FromXError(faults[n])))
    else if n + 1 in mmapFailures then Backing(plan, Err(E.InsufficientMemory))
    else Backing(plan, Ok(Native(depth)))
  }

  /**
   * What `destroy_window` asks for, in order: detaching the segment (shared memory only),
   * unmapping the whole buffer, freeing the pixmap.
   */
  function ReleasePlan(p: WindowPlatform): seq<Call>
  {
    (if p.kind.Shm? then [ShmDetach(p.kind.seg)] else []) + [Munmap(p.buffer.Length), FreePixmap(p.pixmap)]
  }

  /** The call that gives back what `c` acquired, if it acquires anything. */
  function Releaser(c: Call): Option<Call>
  {
    match c
    case ShmCreateSegment(seg, _) => Some(ShmDetach(seg))
    case Mmap(length, _) => Some(Munmap(length))
    case ShmCreatePixmap(pixmap, _, _, _, _) => Some(FreePixmap(pixmap))
    case CreatePixmap(pixmap, _, _, _) => Some(FreePixmap(pixmap))
    case _ => None
  }

  /**
   * Releasing a window gives back exactly what creating it acquired: every segment,
   * mapping and pixmap the backing stage made is released, and nothing else is.
   */
  lemma ReleaseMatchesAcquire(p: WindowPlatform, shm: bool, win: Xid, depth: nat)
    requires p.kind.Shm? <==> shm
    requires p.buffer.Length == BufferLen(shm, p.width, p.height)
    ensures var acquired := BackingPlan(shm, win, p.pixmap, if shm then p.kind.seg else 0, p.width, p.height);
            && (forall c :: c in acquired && Releaser(c).Some? ==> Releaser(c).value in ReleasePlan(p))
            && (forall d :: d in ReleasePlan(p) ==> exists c :: c in acquired && Releaser(c) == Some(d))
  {
    var acquired := BackingPlan(shm, win, p.pixmap, if shm then p.kind.seg else 0, p.width, p.height);
    forall d | d in ReleasePlan(p)
      ensures exists c :: c in acquired && Releaser(c) == Some(d)
    {
      if shm {
        if d == ShmDetach(p.kind.seg) {
          assert Releaser(acquired[1]) == Some(d);
        } else if d == Munmap(p.buffer.Length) {
          assert Releaser(acquired[2]) == Some(d);
        } else {
          assert Releaser(acquired[3]) == Some(d);
        }
      } else {
        if d == Munmap(p.buffer.Length) {
          assert Releaser(acquired[1]) == Some(d);
        } else {
          assert Releaser(acquired[0]) == Some(d);
        }
      }
    }
  }

  /** What a release did: its calls and its result. */
  datatype Release = Release(calls: seq<Call>, result: Result<(), E.OSError>)

  /**
   * `destroy_window`, its first call at position `n`: a failed detach returns at once,
   * before the buffer is unmapped; otherwise the plan runs to its end.
   */
  function Destroy(n: nat, faults: map<nat, XError>, p: WindowPlatform): (t: Release)
    requires XcbErrors.FaultsConvertible(faults)
    ensures t.calls <= ReleasePlan(p) && |t.calls| >= 1
    ensures p.kind.Shm? && n in faults ==> t == Release([ShmDetach(p.kind.seg)], Err(XcbErrors.FromXError(faults[n])))
    ensures Munmap(p.buffer.Length) in t.calls ==> t.calls == ReleasePlan(p)
    ensures t.result.Ok? <==> (p.kind.Shm? ==> n !in faults) && n + |ReleasePlan(p)| - 1 !in faults
    ensures t.result.Err? ==> n + |t.calls| - 1 in faults && t.result.error == XcbErrors.FromXError(faults[n + |t.calls| - 1])
    ensures t.result.Ok? ==> t.calls == ReleasePlan(p)
  {
    var plan := ReleasePlan(p);
    if p.kind.Shm? && n in faults then Release(plan[..1], Err(XcbErrors.FromXError(faults[n])))
    else if n + |plan| - 1 in faults then Release(plan, Err(XcbErrors.FromXError(faults[n + |plan| - 1])))
    else Release(plan, Ok(()))
  }

  /** What `redraw_window` sends: the upload (native buffers only), the copy of the whole window, the flush. */
  function RedrawPlan(id: WindowId, p: WindowPlatform, pixels: seq<bv8>): (plan: seq<Call>)
    ensures |plan| == if p.kind.Native? then 3 else 2
    ensures plan[|plan| - 2] == CopyArea(p.pixmap, id.raw, p.gcontext, p.width, p.height) && plan[|plan| - 1] == Flush
    ensures p.kind.Native? ==> plan[0] == PutImage(p.pixmap, p.gcontext, p.width, p.height, pixels)
  {
    (if p.kind.Native? then [PutImage(p.pixmap, p.gcontext, p.width, p.height, pixels)] else [])
    + [CopyArea(p.pixmap, id.raw, p.gcontext, p.width, p.height), Flush]
  }

  /** The setup stage of `create_window`: the window, its protocols, its graphics context, and the id of its pixmap. */
  method Setup(conn: XConnection, root: Xid, wmProtocols: Xid, wmDeleteWindow: Xid, width: u16, height: u16) returns (r: Result<(Xid, Xid, Xid), E.OSError>)
    requires XcbErrors.FaultsConvertible(conn.faults)
    modifies conn`calls, conn`nextId
    ensures var win := old(conn.nextId);
            var gc := NextXid(win);
            RanUntilFailure(old(conn.calls), conn.calls,
                            SetupPlan(win, gc, root, width, height, wmProtocols, wmDeleteWindow), conn.faults)
    ensures r.Ok? <==> |conn.calls| == |old(conn.calls)| + 8 && |conn.calls| - 1 !in conn.faults
    ensures r.Err? ==> r.error == XcbErrors.FromXError(conn.faults[|conn.calls| - 1])
    ensures r.Ok? ==> && r.value == (old(conn.nextId), NextXid(old(conn.nextId)), NextXid(NextXid(old(conn.nextId))))
                      && conn.nextId == NextXid(r.value.2)
  {
    ghost var start := conn.calls;
    var win := OpenWindow(conn, root, wmProtocols, wmDeleteWindow, width, height);
    ghost var plan1 := OpenPlan(old(conn.nextId), root, width, height, wmProtocols, wmDeleteWindow);
    ghost var plan2 := DrawingPlan(old(conn.nextId), NextXid(old(conn.nextId)));
    assert SetupPlan(old(conn.nextId), NextXid(old(conn.nextId)), root, width, height, wmProtocols, wmDeleteWindow) == plan1 + plan2;
    if win.Err? {
      RanStopped(start, conn.calls, plan1, plan2, conn.faults);
      return Err(win.error);
    }
    ghost var mid := conn.calls;
    var ids := PrepareDrawing(conn, win.value);
    RanThen(start, mid, conn.calls, plan1, plan2, conn.faults);
    if ids.Err? {
      return Err(ids.error);
    }
    r := Ok((win.value, ids.value.0, ids.value.1));
  }

  function OpenPlan(win: Xid, root: Xid, width: u16, height: u16, wmProtocols: Xid, wmDeleteWindow: Xid): seq<Call>
  {
    [Call.GenerateId, Call.CreateWindow(win, root, width, height),
     ChangeProperty32(win, wmProtocols, ATOM, [wmDeleteWindow])]
  }

  function DrawingPlan(win: Xid, gc: Xid): seq<Call>
  {
    [Call.GenerateId, CreateGc(gc, win), MapWindow(win), Flush, Call.GenerateId]
  }

  /** The window itself, and `WM_PROTOCOLS` listing `WM_DELETE_WINDOW` on it. */
  method OpenWindow(conn: XConnection, root: Xid, wmProtocols: Xid, wmDeleteWindow: Xid, width: u16, height: u16) returns (r: Result<Xid, E.OSError>)
    requires XcbErrors.FaultsConvertible(conn.faults)
    modifies conn`calls, conn`nextId
    ensures RanUntilFailure(old(conn.calls), conn.calls,
                            OpenPlan(old(conn.nextId), root, width, height, wmProtocols, wmDeleteWindow), conn.faults)
    ensures r.Ok? <==> |conn.calls| == |old(conn.calls)| + 3 && |conn.calls| - 1 !in conn.faults
    ensures r.Err? ==> r.error == XcbErrors.FromXError(conn.faults[|conn.calls| - 1])
    ensures r.Ok? ==> r.value == old(conn.nextId) && conn.nextId == NextXid(r.value)
  {
    var win := conn.GenerateId();
    if win.Err? {
      return Err(XcbErrors.FromXError(win.error));
    }
    var created := conn.Send(Call.CreateWindow(win.value, root, width, height));
    if created.Err? {
      return Err(XcbErrors.FromXError(created.error));
    }
    var protocols := conn.Send(ChangeProperty32(win.value, wmProtocols, ATOM, [wmDeleteWindow]));
    if protocols.Err? {
      return Err(XcbErrors.FromXError(protocols.error));
    }
    r := Ok(win.value);
  }

  /** The graphics context, mapping and flushing the window, and the id of its pixmap. */
  method PrepareDrawing(conn: XConnection, win: Xid) returns (r: Result<(Xid, Xid), E.OSError>)
    requires XcbErrors.FaultsConvertible(conn.faults)
    modifies conn`calls, conn`nextId
    ensures RanUntilFailure(old(conn.calls), conn.calls, DrawingPlan(win, old(conn.nextId)), conn.faults)
    ensures r.Ok? <==> |conn.calls| == |old(conn.calls)| + 5 && |conn.calls| - 1 !in conn.faults
    ensures r.Err? ==> r.error == XcbErrors.FromXError(conn.faults[|conn.calls| - 1])
    ensures r.Ok? ==> r.value == (old(conn.nextId), NextXid(old(conn.nextId))) && conn.nextId == NextXid(r.value.1)
  {
    var gc := conn.GenerateId();
    if gc.Err? {
      return Err(XcbErrors.FromXError(gc.error));
    }
    var gcCreated := conn.Send(CreateGc(gc.value, win));
    if gcCreated.Err? {
      return Err(XcbErrors.FromXError(gcCreated.error));
    }
    ghost var mid := conn.calls;
    ghost var head := [Call.GenerateId, CreateGc(gc.value, win)];
    assert mid == old(conn.calls) + head[..|mid| - |old(conn.calls)|];
    var pixmap := ShowWindow(conn, win);
    RanThen(old(conn.calls), mid, conn.calls, head, [MapWindow(win), Flush, Call.GenerateId], conn.faults);
    assert head + [MapWindow(win), Flush, Call.GenerateId] == DrawingPlan(win, old(conn.nextId));
    if pixmap.Err? {
      return Err(pixmap.error);
    }
    r := Ok((gc.value, pixmap.value));
  }

  /** Mapping and flushing the window, then the id of its pixmap. */
  method ShowWindow(conn: XConnection, win: Xid) returns (r: Result<Xid, E.OSError>)
    requires XcbErrors.FaultsConvertible(conn.faults)
    modifies conn`calls, conn`nextId
    ensures RanUntilFailure(old(conn.calls), conn.calls, [MapWindow(win), Flush, Call.GenerateId], conn.faults)
    ensures r.Ok? <==> |conn.calls| == |old(conn.calls)| + 3 && |conn.calls| - 1 !in conn.faults
    ensures r.Err? ==> r.error == XcbErrors.FromXError(conn.faults[|conn.calls| - 1])
    ensures r.Ok? ==> r.value == old(conn.nextId) && conn.nextId == NextXid(r.value)
  {
    var mapped := conn.Send(MapWindow(win));
    if mapped.Err? {
      return Err(XcbErrors.FromXError(mapped.error));
    }
    var flushed := conn.Send(Flush);
    if flushed.Err? {
      return Err(XcbErrors.FromXError(flushed.error));
    }
    var pixmap := conn.GenerateId();
    if pixmap.Err? {
      return Err(XcbErrors.FromXError(pixmap.error));
    }
    r := Ok(pixmap.value);
  }

  /**
   * The shared-memory backing: segment, mapping and pixmap, detaching the segment when
   * a later step fails. With `unwrapReply` the segment's reply is `unwrap`ped rather
   * than passed on by `?`, so an error reply panics (`panicked`) instead of returning.
   */
  method AttachShm(conn: XConnection, win: Xid, pixmap: Xid, width: u16, height: u16, unwrapReply: bool)
    returns (r: Result<(array<bv8>, BufferKind), E.OSError>, panicked: bool)
    requires XcbErrors.FaultsConvertible(conn.faults)
    modifies conn`calls, conn`nextId
    ensures panicked <==> unwrapReply && SegmentReplyFails(conn.faults, |old(conn.calls)|)
    ensures var b := ShmBacking(|old(conn.calls)|, conn.faults, conn.mmapFailures, win, pixmap,
                                old(conn.nextId), width, height);
            && conn.calls == old(conn.calls) + b.calls
            && (r.Ok? <==> b.outcome.Ok?)
            && (r.Err? && !panicked ==> r.error == b.outcome.error)
            && (r.Ok? ==> r.value.1 == b.outcome.value && fresh(r.value.0) && r.value.0.Length == SegmentSize(width, height))
  {
    panicked := false;
    var size := SegmentSize(width, height);
    var seg := conn.GenerateId();
    if seg.Err? {
      r := Err(XcbErrors.FromXError(seg.error));
      return;
    }
    var created := conn.Send(ShmCreateSegment(seg.value, size));
    if created.Err? {
      panicked := unwrapReply && !created.error.Connection?;
      r := Err(XcbErrors.FromXError(created.error));
      return;
    }
    var addr := conn.Mmap(size, true);
    if addr.None? {
      var detached := conn.Send(ShmDetach(seg.value));
      if detached.Err? {
        r := Err(XcbErrors.FromXError(detached.error));
        return;
      }
      r := Err(E.InsufficientMemory);
      return;
    }
    var attached := conn.Send(ShmCreatePixmap(pixmap, win, width, height, seg.value));
    if attached.Err? {
      var _ := conn.Send(ShmDetach(seg.value));
      r := Err(XcbErrors.FromXError(attached.error));
      return;
    }
    r := Ok((addr.value, Shm(seg.value)));
  }

  /** The private backing: a server pixmap and an anonymous mapping of `width * height * 4` bytes. */
  method AllocPrivate(xcb: XcbInfo, win: Xid, pixmap: Xid, width: u16, height: u16)
    returns (r: Result<(array<bv8>, BufferKind), E.OSError>)
    requires xcb.Valid()
    modifies xcb.conn`calls
    ensures var b := PrivateBacking(|old(xcb.conn.calls)|, xcb.conn.faults, xcb.conn.mmapFailures, win, pixmap,
                                    width, height, xcb.rootDepth);
            && xcb.conn.calls == old(xcb.conn.calls) + b.calls
            && (r.Ok? <==> b.outcome.Ok?)
            && (r.Err? ==> r.error == b.outcome.error)
            && (r.Ok? ==> r.value.1 == b.outcome.value && fresh(r.value.0) && r.value.0.Length == width * height * 4)
  {
    var frameBufferLen := width * height * 4;
    var created := xcb.conn.Send(CreatePixmap(pixmap, win, width, height));
    if created.Err? {
      return Err(XcbErrors.FromXError(created.error));
    }
    var addr := xcb.conn.Mmap(frameBufferLen, false);
    if addr.None? {
      return Err(E.InsufficientMemory);
    }
    r := Ok((addr.value, Native(xcb.rootDepth)));
  }

  /** The backing stage `create_window` runs: shared memory exactly when the server supports it. */
  function BackingStage(shm: bool, n: nat, faults: map<nat, XError>, mmapFailures: set<nat>, win: Xid, pixmap: Xid,
                        seg: Xid, width: u16, height: u16, depth: nat): (b: Backing)
    requires XcbErrors.FaultsConvertible(faults)
    ensures b.outcome.Ok? ==> b.outcome.value == (if shm then Shm(seg) else Native(depth))
    ensures b.outcome.Ok? ==> b.calls == BackingPlan(shm, win, pixmap, seg, width, height)
  {
    if shm then ShmBacking(n, faults, mmapFailures, win, pixmap, seg, width, height)
    else PrivateBacking(n, faults, mmapFailures, win, pixmap, width, height, depth)
  }

  /**
   * `create_window`: the setup requests, then the backing, then a flush. The window
   * record keeps the mapped buffer with the length it was mapped with, and its
   * inner record the builder's own size.
   */
  method CreateWindow(xcb: XcbInfo, builder: Builder) returns (r: Result<Window, E.OSError>)
    requires xcb.Valid()
    modifies xcb.conn`calls, xcb.conn`nextId
    ensures var n := |old(xcb.conn.calls)|;
            var win := old(xcb.conn.nextId);
            var setup := SetupPlan(win, NextXid(win), xcb.screenRoot, SaturateU16(builder.width), SaturateU16(builder.height),
                               xcb.atoms.wmProtocols, xcb.atoms.wmDeleteWindow);
            && (!Clean(xcb.conn.faults, n, 8) ==>
                  && RanUntilFailure(old(xcb.conn.calls), xcb.conn.calls, setup, xcb.conn.faults)
                  && r == Err(XcbErrors.FromXError(xcb.conn.faults[|xcb.conn.calls| - 1])))
            && (Clean(xcb.conn.faults, n, 8) ==>
                  var b := BackingStage(xcb.shm, n + 8, xcb.conn.faults, xcb.conn.mmapFailures, win,
                                        NextXid(NextXid(win)), NextXid(NextXid(NextXid(win))),
                                        SaturateU16(builder.width), SaturateU16(builder.height), xcb.rootDepth);
                  && (b.outcome.Err? ==> xcb.conn.calls == old(xcb.conn.calls) + setup + b.calls && r == Err(b.outcome.error))
                  && (b.outcome.Ok? ==> && xcb.conn.calls == old(xcb.conn.calls) + setup + b.calls + [Flush]
                                        && (r.Ok? <==> |xcb.conn.calls| - 1 !in xcb.conn.faults)
                                        && (r.Err? ==> r.error == XcbErrors.FromXError(xcb.conn.faults[|xcb.conn.calls| - 1]))))
    ensures r.Ok? ==> var win := old(xcb.conn.nextId);
                      var p := r.value.platform;
                      && r.value.id == FromX11(win)
                      && p.kind == (if xcb.shm then Shm(NextXid(NextXid(NextXid(win)))) else Native(xcb.rootDepth))
                      && p.gcontext == NextXid(win) && p.pixmap == NextXid(NextXid(win))
                      && p.width == SaturateU16(builder.width) && p.height == SaturateU16(builder.height)
                      && fresh(p.buffer) && p.buffer.Length == BufferLen(xcb.shm, p.width, p.height)
                      && r.value.inner == p.inner
                      && p.inner == WindowInner((builder.width, builder.height), p.buffer, p.buffer.Length)
  {
    var width := SaturateU16(builder.width);
    var height := SaturateU16(builder.height);
    ghost var n := |xcb.conn.calls|;
    var ids := Setup(xcb.conn, xcb.screenRoot, xcb.atoms.wmProtocols, xcb.atoms.wmDeleteWindow, width, height);
    if ids.Err? {
      return Err(ids.error);
    }
    var (win, gcontext, pixmap) := ids.value;
    ghost var afterSetup := xcb.conn.calls;
    var backing, unwrapped;
    if xcb.shm {
      backing, unwrapped := AttachShm(xcb.conn, win, pixmap, width, height, false);
    } else {
      backing := AllocPrivate(xcb, win, pixmap, width, height);
    }
    if backing.Err? {
      return Err(backing.error);
    }
    var (buffer, bufferKind) := backing.value;
    var inner := WindowInner((builder.width, builder.height), buffer, buffer.Length);
    var platform := WindowPlatform(buffer, bufferKind, pixmap, gcontext, width, height, inner);
    var flushed := xcb.conn.Send(Flush);
    if flushed.Err? {
      return Err(XcbErrors.FromXError(flushed.error));
    }
    r := Ok(Window(FromX11(win), inner, platform));
  }

  /** `destroy_window`: detach (shared memory only), unmap, free the pixmap; a failed detach returns at once. */
  method DestroyWindow(xcb: XcbInfo, win: WindowPlatform) returns (r: Result<(), E.OSError>)
    requires xcb.Valid()
    modifies xcb.conn`calls
    ensures var t := Destroy(|old(xcb.conn.calls)|, xcb.conn.faults, win);
            xcb.conn.calls == old(xcb.conn.calls) + t.calls && r == t.result
  {
    if win.kind.Shm? {
      var detached := xcb.conn.Send(ShmDetach(win.kind.seg));
      if detached.Err? {
        return Err(XcbErrors.FromXError(detached.error));
      }
    }
    xcb.conn.Note(Munmap(win.buffer.Length));
    var freed := xcb.conn.Send(FreePixmap(win.pixmap));
    if freed.Err? {
      return Err(XcbErrors.FromXError(freed.error));
    }
    r := Ok(());
  }

  /**
   * `redraw_window`: each request is unwrapped, so a failure panics; `panicked` says
   * whether that happened, at the last call made.
   */
  method RedrawWindow(xcb: XcbInfo, id: WindowId, platform: WindowPlatform) returns (panicked: bool)
    modifies xcb.conn`calls
    ensures RanUntilFailure(old(xcb.conn.calls), xcb.conn.calls, RedrawPlan(id, platform, platform.buffer[..]), xcb.conn.faults)
    ensures panicked <==> |xcb.conn.calls| - 1 in xcb.conn.faults
  {
    ghost var plan := RedrawPlan(id, platform, platform.buffer[..]);
    if platform.kind.Native? {
      var uploaded := xcb.conn.Send(PutImage(platform.pixmap, platform.gcontext, platform.width, platform.height, platform.buffer[..]));
      if uploaded.Err? {
        return true;
      }
    }
    var copied := xcb.conn.Send(CopyArea(platform.pixmap, id.raw, platform.gcontext, platform.width, platform.height));
    if copied.Err? {
      return true;
    }
    var flushed := xcb.conn.Send(Flush);
    panicked := flushed.Err?;
    assert xcb.conn.calls == old(xcb.conn.calls) + plan;
  }
}
