/**
 * Window bookkeeping of the Wayland backend: each window is a toplevel on a
 * surface backed by a shared-memory buffer of `width * height * 4` bytes. A
 * decorated window puts its content on a subsurface below a 20-row header bar
 * painted on the toplevel's own surface.
 */
module WaylandWindows {
  import opened Wrappers
  import opened Events
  import opened Surfaces
  import opened Wayland
  import E = Errors

  const I32_MAX: int := 0x7FFF_FFFF

  /** The height of the header bar of a framed window, in rows. */
  const HEADER_BAR_HEIGHT: int := 20

  /** The colour of the header bar. */
  const HEADER_COLOR: bv32 := 0xffda_dada

  /** The part of `WindowBuilder` the backend reads. */
  datatype Builder = Builder(title: string, width: u32, height: u32, decorations: bool)

  /** `mwin::Window`: the id the window is known by, its content surface, its logical size and dpi. */
  datatype WindowHandle = WindowHandle(id: WindowId, surface: Surface, logicalSize: (int, int), dpi: real, platform: Window)

  /** The toplevel's events; only `Close` produces anything. */
  datatype ToplevelEvent = Configure(width: int, height: int) | Close | OtherToplevelEvent

  /**
   * A builder size the backend handles: the `as i32` casts keep the value and no
   * buffer length `width * height * 4` overflows `i32`, including the frame's.
   */
  predicate Fits(b: Builder)
  {
    && b.width <= I32_MAX && b.height + HEADER_BAR_HEIGHT <= I32_MAX
    && b.width * (b.height + HEADER_BAR_HEIGHT) * 4 <= I32_MAX
  }

  /** The byte length of a `width` by `height` ARGB buffer. */
  function BufferLen(width: nat, height: nat): nat
  {
    width * height * 4
  }

  /**
   * For a builder that fits, the content buffer is no larger than the frame's,
   * and the 20 header rows lie inside the frame's buffer.
   */
  lemma ContentFits(b: Builder)
    requires Fits(b)
    ensures 0 <= BufferLen(b.width, b.height) <= BufferLen(b.width, b.height + HEADER_BAR_HEIGHT) <= I32_MAX
    ensures 4 * (HEADER_BAR_HEIGHT * b.width) <= BufferLen(b.width, b.height + HEADER_BAR_HEIGHT)
    ensures HEADER_BAR_HEIGHT * b.width < U32_LIMIT
  {
    assert b.width * (b.height + HEADER_BAR_HEIGHT) == b.width * b.height + b.width * HEADER_BAR_HEIGHT;
  }

  /** The requests of `setup_surface` for `surface`, with pool and buffer ids `pool` and `buffer`. */
  function SetupPlan(surface: u32, pool: u32, buffer: u32, width: nat, height: nat): seq<Call>
  {
    var len := BufferLen(width, height);
    [TempFile(len), CreatePool(pool, len), CreateBuffer(buffer, pool, 0, width, height, width * 4, Argb8888),
     Roundtrip, Attach(surface, buffer), Commit(surface), Roundtrip, Mmap(len)]
  }

  /** The pool holds exactly the buffer's rows: stride `width * 4` times `height` rows is the pool size. */
  lemma SetupPlanLayout(surface: u32, pool: u32, buffer: u32, width: nat, height: nat)
    ensures var plan := SetupPlan(surface, pool, buffer, width, height);
            && plan[1].CreatePool? && plan[2].CreateBuffer?
            && plan[1].size == plan[2].stride * plan[2].height
            && plan[2].stride == 4 * plan[2].width
            && plan[1].size == plan[7].length
  {
    var plan := SetupPlan(surface, pool, buffer, width, height);
    assert plan[2].stride * plan[2].height == width * 4 * height;
  }

  /** The requests that open a toplevel on `surface` (ids `surface`, then the xdg surface, then the toplevel). */
  function OpenPlan(surface: u32, xdgSurface: u32, toplevel: u32, title: string): seq<Call>
  {
    [CreateSurface(surface), GetXdgSurface(xdgSurface, surface), GetToplevel(toplevel, xdgSurface),
     SetTitle(toplevel, title), Commit(surface)]
  }

  /**
   * `setup_surface`: a temporary file of `width * height * 4` bytes shared as a
   * pool holding one ARGB buffer of stride `width * 4`, attached to the surface,
   * then mapped. The file, the mapping and the two roundtrips cannot fail here.
   */
  method SetupSurface(conn: Connection, surface: u32, width: nat, height: nat) returns (ptr: array<bv8>, len: nat)
    requires BufferLen(width, height) <= I32_MAX
    requires conn.Valid() && conn.nextId + 2 < CLIENT_ID_LIMIT
    modifies conn`calls, conn`nextId
    ensures conn.Valid()
    ensures len == BufferLen(width, height) && ptr.Length == len && fresh(ptr)
    ensures conn.nextId == old(conn.nextId) + 2
    ensures conn.calls == old(conn.calls) + SetupPlan(surface, old(conn.nextId), old(conn.nextId) + 1, width, height)
  {
    len := BufferLen(width, height);
    var pool := conn.NewObject();
    var buffer := conn.NewObject();
    conn.RequestAll(SetupPlan(surface, pool, buffer, width, height));
    ptr := new bv8[len];
  }

  /** The new surface object over a fresh mapping, with its metadata. */
  method NewSurface(ptr: array<bv8>, meta: SharedData) returns (s: Surface)
    requires ptr.Length == meta.bufferLen
    ensures fresh(s) && fresh(s.shared)
    ensures s.Valid() && s.format == Argb8888 && s.shared.ptr == ptr && s.shared.meta == meta
  {
    var shared := new Shared(ptr, meta);
    s := new Surface(Argb8888, shared);
  }

  /**
   * `create_window`: a surface, its xdg surface and toplevel, a title and a
   * commit; the toplevel's `Close` handler is bound to the window id of the
   * surface. A decorated window is then built by `build_framed_window`; an
   * undecorated one gets its buffer on that surface and is registered under it.
   */
  method CreateWindow(conn: Connection, builder: Builder) returns (r: Result<WindowHandle, E.OSError>)
    requires conn.Valid() && Fits(builder) && conn.nextId + 10 < CLIENT_ID_LIMIT
    modifies conn`calls, conn`nextId, conn`windows, conn`closeTargets
    ensures conn.Valid() && r.Ok?
    ensures var s := old(conn.nextId);
            var h := r.value;
            && conn.closeTargets == old(conn.closeTargets)[(s + 2) := FromWayland(s)]
            && Registered(old(conn.windows), conn.windows, h, builder)
            && h.platform.xdgToplevel == s + 2
            && (builder.decorations <==> h.platform.frame.Some?)
            && (!builder.decorations ==> && h.id == FromWayland(s)
                                         && conn.calls == old(conn.calls) + OpenPlan(s, s + 1, s + 2, builder.title)
                                                          + SetupPlan(s, s + 3, s + 4, builder.width, builder.height))
            && (builder.decorations ==> && Framed(h.platform, s, builder)
                                        && conn.calls == old(conn.calls) + OpenPlan(s, s + 1, s + 2, builder.title)
                                                         + FramePlan(s, s + 3, builder)
                                        && conn.closeTargets[s + 2] != h.id
                                        && conn.closeTargets[s + 2] !in conn.windows)
  {
    var wlSurface := conn.NewObject();
    var xdgSurface := conn.NewObject();
    var toplevel := conn.NewObject();
    conn.RequestAll(OpenPlan(wlSurface, xdgSurface, toplevel, builder.title));
    conn.closeTargets := conn.closeTargets[toplevel := FromWayland(wlSurface)];
    if builder.decorations {
      r := BuildFramedWindow(conn, builder, toplevel, wlSurface);
    } else {
      r := FinishPlainWindow(conn, builder, toplevel, wlSurface);
    }
  }

  /**
   * The window `h` was added to the map under a new id, with a fresh content
   * surface of the builder's size, logical size and dpi 1.0.
   */
  ghost predicate Registered(before: map<WindowId, Window>, after: map<WindowId, Window>, h: WindowHandle, builder: Builder)
    reads h.surface, h.surface.shared
  {
    && h.id !in before && after == before[h.id := h.platform]
    && h.id == FromWayland(h.platform.wlSurface)
    && h.logicalSize == (builder.width, builder.height) && h.dpi == 1.0
    && h.surface == h.platform.surface
    && h.platform.bufX == builder.width && h.platform.bufY == builder.height
    && h.surface.Valid() && h.surface.format == Argb8888
    && h.surface.shared.meta == SharedData(BufferLen(builder.width, builder.height), builder.width, builder.height)
  }

  /** The rest of `create_window` for an undecorated window: the buffer goes on the toplevel's own surface. */
  method FinishPlainWindow(conn: Connection, builder: Builder, toplevel: u32, wlSurface: u32)
    returns (r: Result<WindowHandle, E.OSError>)
    requires conn.Valid() && Fits(builder) && conn.nextId + 2 < CLIENT_ID_LIMIT
    requires wlSurface < conn.nextId && FromWayland(wlSurface) !in conn.windows
    modifies conn`calls, conn`nextId, conn`windows
    ensures conn.Valid() && r.Ok?
    ensures var h := r.value;
            && Registered(old(conn.windows), conn.windows, h, builder) && fresh(h.surface)
            && h.id == FromWayland(wlSurface) && h.platform.xdgToplevel == toplevel && h.platform.frame.None?
            && conn.calls == old(conn.calls) + SetupPlan(wlSurface, old(conn.nextId), old(conn.nextId) + 1,
                                                         builder.width, builder.height)
  {
    ContentFits(builder);
    var width: nat := builder.width;
    var height: nat := builder.height;
    var ptr, len := SetupSurface(conn, wlSurface, width, height);
    var surface := NewSurface(ptr, SharedData(len, width, height));
    var window := Window(toplevel, width, height, surface, wlSurface, None);
    conn.windows := conn.windows[FromWayland(wlSurface) := window];
    r := Ok(WindowHandle(FromWayland(wlSurface), surface, (builder.width, builder.height), 1.0, window));
  }

  /**
   * The shape of a framed window whose toplevel surface is `s`: a frame on `s` of
   * the builder's width and 20 rows more than its height, with the header bar
   * painted, and the content on a later surface.
   */
  ghost predicate Framed(w: Window, s: u32, builder: Builder)
    reads if w.frame.Some? then {w.frame.value.surface, w.frame.value.surface.shared, w.frame.value.surface.shared.ptr} else {}
  {
    && Fits(builder)
    && w.frame.Some?
    && var f := w.frame.value;
    && f.wlSurface == s && s < w.wlSurface
    && f.frameWidth == builder.width && f.headerBarHeight == HEADER_BAR_HEIGHT
    && f.surface.Valid() && f.surface.format == Argb8888
    && f.surface.shared.meta == SharedData(BufferLen(builder.width, builder.height + HEADER_BAR_HEIGHT),
                                           builder.width, builder.height + HEADER_BAR_HEIGHT)
    && HeaderPainted(f.surface.shared.ptr[..], builder.width)
  }

  /** Every cell of the first 20 rows of a `width`-wide buffer holds the header colour. */
  ghost predicate HeaderPainted(bytes: seq<bv8>, width: int)
  {
    && 4 * (HEADER_BAR_HEIGHT * width) <= |bytes|
    && forall k :: 0 <= k < HEADER_BAR_HEIGHT * width ==> CellAt(bytes, k) == HEADER_COLOR
  }

  /** In pixel coordinates: every `(x, y)` with `x < width` and `y < 20` holds the header colour. */
  lemma HeaderPixels(bytes: seq<bv8>, width: nat, x: nat, y: nat)
    requires HeaderPainted(bytes, width)
    requires x < width && y < HEADER_BAR_HEIGHT
    ensures 4 * (y * width + x) + 4 <= |bytes|
    ensures CellAt(bytes, y * width + x) == HEADER_COLOR
  {
    assert y * width + x < (y + 1) * width <= HEADER_BAR_HEIGHT * width;
  }

  /**
   * `build_framed_window`: the frame's buffer on the toplevel's surface, then a
   * content surface placed as a subsurface at `(0, 20)` with a buffer of the
   * builder's size, then the header painted; the window is registered and
   * returned under the content surface, not the frame's.
   */
  method BuildFramedWindow(conn: Connection, builder: Builder, toplevel: u32, frameSurface: u32)
    returns (r: Result<WindowHandle, E.OSError>)
    requires conn.Valid() && Fits(builder) && conn.nextId + 6 < CLIENT_ID_LIMIT
    requires frameSurface < conn.nextId && FromWayland(frameSurface) !in conn.windows
    modifies conn`calls, conn`nextId, conn`windows
    ensures conn.Valid() && r.Ok?
    ensures var h := r.value;
            var s := old(conn.nextId);
            && h.id == FromWayland(s + 2) && conn.nextId == s + 6
            && FromWayland(frameSurface) !in conn.windows
            && Registered(old(conn.windows), conn.windows, h, builder) && fresh(h.surface)
            && h.platform.xdgToplevel == toplevel
            && Framed(h.platform, frameSurface, builder)
            && conn.calls == old(conn.calls) + FramePlan(frameSurface, s, builder)
  {
    ContentFits(builder);
    var frameWidth: nat := builder.width;
    var frameSurf := SetupFrame(conn, builder, frameSurface);
    var bufferSurface, surface := SetupContent(conn, builder, frameSurface);
    PaintHeader(frameSurf, frameWidth);
    var frame := Frame(frameSurface, frameSurf, frameWidth, HEADER_BAR_HEIGHT);
    var window := Window(toplevel, builder.width, builder.height, surface, bufferSurface, Some(frame));
    conn.windows := conn.windows[FromWayland(bufferSurface) := window];
    r := Ok(WindowHandle(FromWayland(bufferSurface), surface, (builder.width, builder.height), 1.0, window));
  }

  /** The frame's buffer on the toplevel's surface: the builder's width and 20 rows more than its height. */
  method SetupFrame(conn: Connection, builder: Builder, frameSurface: u32) returns (frameSurf: Surface)
    requires conn.Valid() && Fits(builder) && conn.nextId + 2 < CLIENT_ID_LIMIT
    modifies conn`calls, conn`nextId
    ensures conn.Valid() && conn.nextId == old(conn.nextId) + 2
    ensures conn.calls == old(conn.calls) + SetupPlan(frameSurface, old(conn.nextId), old(conn.nextId) + 1,
                                                      builder.width, builder.height + HEADER_BAR_HEIGHT)
    ensures fresh(frameSurf) && fresh(frameSurf.shared) && fresh(frameSurf.shared.ptr)
    ensures frameSurf.Valid() && frameSurf.format == Argb8888
    ensures frameSurf.shared.meta == SharedData(BufferLen(builder.width, builder.height + HEADER_BAR_HEIGHT),
                                                builder.width, builder.height + HEADER_BAR_HEIGHT)
  {
    ContentFits(builder);
    var frameWidth: nat := builder.width;
    var frameHeight: nat := HEADER_BAR_HEIGHT + builder.height;
    var framePtr, frameLen := SetupSurface(conn, frameSurface, frameWidth, frameHeight);
    frameSurf := NewSurface(framePtr, SharedData(frameLen, frameWidth, frameHeight));
  }

  /** The content surface: a subsurface of the frame at `(0, 20)` with a buffer of the builder's size. */
  method SetupContent(conn: Connection, builder: Builder, frameSurface: u32) returns (bufferSurface: u32, surface: Surface)
    requires conn.Valid() && Fits(builder) && conn.nextId + 4 < CLIENT_ID_LIMIT
    modifies conn`calls, conn`nextId
    ensures conn.Valid() && conn.nextId == old(conn.nextId) + 4 && bufferSurface == old(conn.nextId)
    ensures conn.calls == old(conn.calls) + ContentPlan(frameSurface, old(conn.nextId), builder)
    ensures fresh(surface) && fresh(surface.shared) && fresh(surface.shared.ptr)
    ensures surface.Valid() && surface.format == Argb8888
    ensures surface.shared.meta == SharedData(BufferLen(builder.width, builder.height), builder.width, builder.height)
  {
    ContentFits(builder);
    bufferSurface := conn.NewObject();
    var subsurface := conn.NewObject();
    conn.RequestAll([CreateSurface(bufferSurface), GetSubsurface(subsurface, bufferSurface, frameSurface),
                     SetPosition(subsurface, 0, HEADER_BAR_HEIGHT)]);
    var ptr, len := SetupSurface(conn, bufferSurface, builder.width, builder.height);
    surface := NewSurface(ptr, SharedData(len, builder.width, builder.height));
  }

  /** The requests for the content surface, whose first new object id is `s`. */
  function ContentPlan(frameSurface: u32, s: int, builder: Builder): seq<Call>
    requires 0 <= s && s + 4 <= U32_LIMIT
  {
    [CreateSurface(s), GetSubsurface(s + 1, s, frameSurface), SetPosition(s + 1, 0, HEADER_BAR_HEIGHT)]
    + SetupPlan(s, s + 2, s + 3, builder.width, builder.height)
  }

  /** The requests of `build_framed_window`, whose first new object id is `s`. */
  function FramePlan(frameSurface: u32, s: int, builder: Builder): seq<Call>
    requires 0 <= s && s + 6 <= U32_LIMIT
  {
    SetupPlan(frameSurface, s, s + 1, builder.width, builder.height + HEADER_BAR_HEIGHT)
    + ContentPlan(frameSurface, s + 2, builder)
  }

  /** Cells below `n` hold the header colour; cells from `n` on are as they were in `orig`. */
  ghost predicate PaintedUpTo(bytes: seq<bv8>, orig: seq<bv8>, n: int)
  {
    && |bytes| == |orig|
    && (forall k :: 0 <= k < n && 4 * k + 4 <= |bytes| ==> CellAt(bytes, k) == HEADER_COLOR)
    && (forall k :: 0 <= n <= k && 4 * k + 4 <= |bytes| ==> CellAt(bytes, k) == CellAt(orig, k))
  }

  /** Writing the header colour into cell `n` extends the painted prefix by one cell. */
  lemma PaintStep(before: seq<bv8>, orig: seq<bv8>, n: nat)
    requires PaintedUpTo(before, orig, n) && 4 * n + 4 <= |before|
    ensures PaintedUpTo(WriteCell(before, n, HEADER_COLOR), orig, n + 1)
  {
    var after := WriteCell(before, n, HEADER_COLOR);
    forall k | 0 <= k && k != n && 4 * k + 4 <= |after|
      ensures CellAt(after, k) == CellAt(before, k)
    {
      assert after[4 * k] == before[4 * k] && after[4 * k + 1] == before[4 * k + 1];
      assert after[4 * k + 2] == before[4 * k + 2] && after[4 * k + 3] == before[4 * k + 3];
    }
  }

  /**
   * Every header pixel lies inside the buffer, at the cell `y * width + x`: the
   * bound `put_u32_pixel` checks never drops one of them.
   */
  lemma HeaderInBounds(meta: SharedData, x: u32, y: u32)
    requires x < meta.width && y < HEADER_BAR_HEIGHT
    requires 4 * (HEADER_BAR_HEIGHT * meta.width) <= meta.bufferLen
    requires HEADER_BAR_HEIGHT * meta.width < U32_LIMIT
    ensures PixelOffset(meta, x, y) == y * meta.width + x
    ensures PixelInBounds(meta, x, y)
  {
    var w: int := meta.width;
    var rows: int := y;
    RowsFit(rows + 1, w);
    assert rows * w + x + 1 <= HEADER_BAR_HEIGHT * w;
  }

  /** `rows` rows of `w` cells are `rows - 1` rows and one more row, and they fit in the header's rows. */
  lemma RowsFit(rows: int, w: int)
    requires 0 < rows <= HEADER_BAR_HEIGHT && 0 <= w
    ensures rows * w == (rows - 1) * w + w && rows * w <= HEADER_BAR_HEIGHT * w
  {
    assert HEADER_BAR_HEIGHT * w - rows * w == (HEADER_BAR_HEIGHT - rows) * w;
  }

  /**
   * The header loop: every pixel of the first 20 rows is set to the header colour
   * and the cells of the rows below are left as they were.
   */
  method PaintHeader(s: Surface, width: u32)
    requires s.Valid() && s.shared.meta.width == width
    requires 4 * (HEADER_BAR_HEIGHT * width) <= s.shared.meta.bufferLen && HEADER_BAR_HEIGHT * width < U32_LIMIT
    modifies s.shared.ptr
    ensures HeaderPainted(s.shared.ptr[..], width)
    ensures forall k :: HEADER_BAR_HEIGHT * width <= k && 4 * k + 4 <= s.shared.ptr.Length ==>
                          CellAt(s.shared.ptr[..], k) == CellAt(old(s.shared.ptr[..]), k)
  {
    ghost var orig := s.shared.ptr[..];
    var y: u32 := 0;
    while y < HEADER_BAR_HEIGHT
      invariant y <= HEADER_BAR_HEIGHT
      invariant PaintedUpTo(s.shared.ptr[..], orig, y * width)
    {
      PaintRow(s, width, y, orig);
      assert y * width + width == (y + 1) * width;
      y := y + 1;
    }
  }

  /** One row of the header loop: the cells of row `y` join the painted prefix. */
  method PaintRow(s: Surface, width: u32, y: u32, ghost orig: seq<bv8>)
    requires s.Valid() && s.shared.meta.width == width && y < HEADER_BAR_HEIGHT
    requires 4 * (HEADER_BAR_HEIGHT * width) <= s.shared.meta.bufferLen && HEADER_BAR_HEIGHT * width < U32_LIMIT
    requires PaintedUpTo(s.shared.ptr[..], orig, y * width)
    modifies s.shared.ptr
    ensures PaintedUpTo(s.shared.ptr[..], orig, y * width + width)
  {
    ghost var row := y * width;
    var x: u32 := 0;
    while x < width
      invariant x <= width
      invariant PaintedUpTo(s.shared.ptr[..], orig, row + x)
    {
      ghost var before := s.shared.ptr[..];
      s.PutU32Pixel(x, y, HEADER_COLOR);
      PaintPixel(before, orig, s.shared.meta, x, y, row);
      x := x + 1;
    }
  }

  /** Painting header pixel `(x, y)` paints cell `row + x`, where `row` is `y * width`. */
  lemma PaintPixel(before: seq<bv8>, orig: seq<bv8>, meta: SharedData, x: u32, y: u32, row: int)
    requires x < meta.width && y < HEADER_BAR_HEIGHT && row == y * meta.width
    requires 4 * (HEADER_BAR_HEIGHT * meta.width) <= meta.bufferLen
    requires HEADER_BAR_HEIGHT * meta.width < U32_LIMIT
    requires |before| == meta.bufferLen && PaintedUpTo(before, orig, row + x)
    ensures PaintedUpTo(PutPixel(before, meta, x, y, HEADER_COLOR), orig, row + x + 1)
  {
    HeaderInBounds(meta, x, y);
    PaintStep(before, orig, row + x);
  }

  /** The requests of `destroy_window`, given the buffer lengths read from the surfaces' metadata. */
  function DestroyPlan(w: Window, contentLen: nat, frameLen: nat): seq<Call>
  {
    [DestroyToplevel(w.xdgToplevel), Munmap(contentLen), DestroySurface(w.wlSurface)]
    + (if w.frame.Some? then [Munmap(frameLen), DestroySurface(w.frame.value.wlSurface)] else [])
    + [DestroyToplevel(w.xdgToplevel)]
  }

  /** Each mapping is released once, with the length in its surface's metadata, content first. */
  function Unmapped(calls: seq<Call>): seq<int>
  {
    if calls == [] then []
    else (if calls[0].Munmap? then [calls[0].length] else []) + Unmapped(calls[1..])
  }

  lemma {:induction false} UnmappedAppend(a: seq<Call>, b: seq<Call>)
    ensures Unmapped(a + b) == Unmapped(a) + Unmapped(b)
    decreases |a|
  {
    if a != [] {
      assert (a + b)[0] == a[0];
      assert (a + b)[1..] == a[1..] + b;
      UnmappedAppend(a[1..], b);
    } else {
      assert a + b == b;
    }
  }

  lemma DestroyUnmapsEachBuffer(w: Window, contentLen: nat, frameLen: nat)
    ensures Unmapped(DestroyPlan(w, contentLen, frameLen)) == [contentLen] + (if w.frame.Some? then [frameLen] else [])
  {
    var head := [DestroyToplevel(w.xdgToplevel), Munmap(contentLen), DestroySurface(w.wlSurface)];
    var mid: seq<Call> := if w.frame.Some? then [Munmap(frameLen), DestroySurface(w.frame.value.wlSurface)] else [];
    var tail := [DestroyToplevel(w.xdgToplevel)];
    UnmappedAppend(head + mid, tail);
    UnmappedAppend(head, mid);
    assert Unmapped(head) == [contentLen] by {
      assert head[1..][1..][1..] == [];
      assert Unmapped(head[1..][1..]) == [];
      assert Unmapped(head[1..]) == [contentLen];
    }
    assert Unmapped(tail) == [] by {
      assert tail[1..] == [];
    }
    if w.frame.Some? {
      assert mid[1..][1..] == [];
      assert Unmapped(mid[1..]) == [];
    }
  }

  /**
   * `destroy_window`: destroys the toplevel, unmaps the content buffer and
   * destroys its surface, does the same for the frame, destroys the toplevel
   * again and forgets the window.
   */
  method DestroyWindow(conn: Connection, w: Window) returns (r: Result<(), E.OSError>)
    requires conn.Valid()
    modifies conn`calls, conn`windows
    ensures conn.Valid() && r == Ok(())
    ensures conn.calls == old(conn.calls) + DestroyPlan(w, w.surface.shared.meta.bufferLen,
                                                        if w.frame.Some? then w.frame.value.surface.shared.meta.bufferLen else 0)
    ensures conn.windows == old(conn.windows) - {FromWayland(w.wlSurface)}
  {
    conn.Request(DestroyToplevel(w.xdgToplevel));
    conn.Request(Munmap(w.surface.shared.meta.bufferLen));
    conn.Request(DestroySurface(w.wlSurface));
    if w.frame.Some? {
      conn.Request(Munmap(w.frame.value.surface.shared.meta.bufferLen));
      conn.Request(DestroySurface(w.frame.value.wlSurface));
    }
    conn.Request(DestroyToplevel(w.xdgToplevel));
    conn.windows := conn.windows - {FromWayland(w.wlSurface)};
    r := Ok(());
  }

  /**
   * A window `create_window` registered and `destroy_window` then forgets leaves the
   * window map as it was: the id it was registered under is the one `destroy_window`
   * removes, that of its content surface.
   */
  lemma CreateThenDestroy(before: map<WindowId, Window>, after: map<WindowId, Window>, h: WindowHandle, builder: Builder)
    requires Registered(before, after, h, builder)
    ensures after - {FromWayland(h.platform.wlSurface)} == before
  {
    assert (after - {FromWayland(h.platform.wlSurface)}).Keys == before.Keys;
  }

  /** The requests of `redraw_window`: the whole content buffer, then the header bar of the frame. */
  function RedrawPlan(w: Window): seq<Call>
  {
    [Damage(w.wlSurface, 0, 0, w.bufX, w.bufY), Commit(w.wlSurface)]
    + if w.frame.Some? then
        var f := w.frame.value;
        [Damage(f.wlSurface, 0, 0, f.frameWidth, f.headerBarHeight), Commit(f.wlSurface)]
      else []
  }

  method RedrawWindow(conn: Connection, w: Window)
    modifies conn`calls
    ensures conn.calls == old(conn.calls) + RedrawPlan(w)
  {
    conn.Request(Damage(w.wlSurface, 0, 0, w.bufX, w.bufY));
    conn.Request(Commit(w.wlSurface));
    if w.frame.Some? {
      var f := w.frame.value;
      conn.Request(Damage(f.wlSurface, 0, 0, f.frameWidth, f.headerBarHeight));
      conn.Request(Commit(f.wlSurface));
    }
  }

  /** The toplevel handler: `Close` sends `CloseRequested` for the id it was created with; nothing else sends. */
  method OnToplevel(conn: Connection, toplevel: u32, ev: ToplevelEvent)
    requires toplevel in conn.closeTargets
    modifies conn`channel
    ensures conn.channel == old(conn.channel) +
                            if ev.Close? then [WindowEvent(conn.closeTargets[toplevel], CloseRequested)] else []
  {
    if ev.Close? {
      conn.channel := conn.channel + [WindowEvent(conn.closeTargets[toplevel], CloseRequested)];
    }
  }

  /** The xdg surface handler acknowledges each configure. */
  method OnXdgSurfaceConfigure(conn: Connection, xdgSurface: u32, serial: u32)
    modifies conn`calls
    ensures conn.calls == old(conn.calls) + [AckConfigure(xdgSurface, serial)]
  {
    conn.Request(AckConfigure(xdgSurface, serial));
  }
}
