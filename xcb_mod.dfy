/**
 * The state of the XCB backend's connection singleton: the server connection,
 * whether shared-memory pixmaps are available, the interned atoms, the hidden
 * window that receives clipboard data, the receiver semaphore, the requeue of
 * events, and the chunk-received flag of the clipboard protocol.
 */
module Xcb {
  import opened Wrappers
  import opened Events
  import opened X11Rb
  import opened X11Conn
  import XcbErrors

  /** The atoms interned at start-up. */
  datatype Atoms = Atoms(
    wmProtocols: Xid,
    wmDeleteWindow: Xid,
    clipboard: Xid,
    targets: Xid,
    multiple: Xid,
    timestamp: Xid,
    utf8String: Xid,
    text: Xid,
    stringAtom: Xid,
    mimeTextPlainUtf8: Xid,
    incr: Xid,
    clipboardReceiver: Xid)

  /** The size the backend has stored for a window it tracks. */
  datatype WindowSize = WindowSize(width: u16, height: u16)

  class XcbInfo {
    const conn: XConnection
    const screenRoot: Xid
    const rootDepth: nat
    /** Whether shared-memory pixmaps are supported. */
    const shm: bool
    const atoms: Atoms
    const hiddenWindow: Xid
    var semaphore: Option<bool>
    /** The requeue, front first: `push_front` prepends and `pop_back` takes the last element. */
    var eventsQueue: seq<Event>
    var chunkReceived: bool
    /** The windows the backend tracks, with their stored sizes. */
    var windows: map<WindowId, WindowSize>

    /**
     * Every error the connection can report is one the `?` conversions accept:
     * they declare `UnsupportedExtension` unreachable.
     */
    ghost predicate Valid()
      reads conn`pending
    {
      && XcbErrors.FaultsConvertible(conn.faults)
      && (forall k :: 0 <= k < |conn.pending| && conn.pending[k].PollError? ==>
            XcbErrors.Convertible(conn.pending[k].error))
    }

    constructor (conn: XConnection, screenRoot: Xid, rootDepth: nat, shm: bool, atoms: Atoms, hiddenWindow: Xid)
      ensures this.conn == conn && this.screenRoot == screenRoot && this.rootDepth == rootDepth
      ensures this.shm == shm && this.atoms == atoms && this.hiddenWindow == hiddenWindow
      ensures semaphore == None && eventsQueue == [] && !chunkReceived && windows == map[]
    {
      this.conn := conn;
      this.screenRoot := screenRoot;
      this.rootDepth := rootDepth;
      this.shm := shm;
      this.atoms := atoms;
      this.hiddenWindow := hiddenWindow;
      semaphore := None;
      eventsQueue := [];
      chunkReceived := false;
      windows := map[];
    }
  }
}
