/**
 * Reading the clipboard over X11 (the selection request of ICCCM section 2.4,
 * "Requesting a Selection"): ask who owns CLIPBOARD, ask the owner to convert
 * it into a property on the hidden window, wait for the answer, read the
 * property whole and delete it.
 */
module XcbClipboard {
  import opened Wrappers
  import opened Events
  import opened X11Rb
  import opened X11Conn
  import opened Xcb
  import XcbErrors
  import E = Errors

  datatype ClipboardDataKind = Utf8

  /** The conversion target asked of the selection owner for a kind of data. */
  function ConversionTarget(kind: ClipboardDataKind, atoms: Atoms): (target: Xid)
    ensures kind == Utf8 ==> target == atoms.utf8String
  {
    match kind
    case Utf8 => atoms.utf8String
  }

  function OwnerOf(owners: map<Xid, Xid>, selection: Xid): Xid
  {
    if selection in owners then owners[selection] else NONE
  }

  /** What a clipboard load did: its result, the calls it made, and what it changed. */
  datatype LoadTrace = LoadTrace(result: Result<Option<seq<bv8>>, E.OSError>, calls: seq<Call>, semaphoreReset: bool, deleted: bool)

  /**
   * Reading the converted data, with the first call at position `n` of the log:
   * a zero-length probe for the size, a read of that many units, and the deletion
   * of the property.
   */
  function Read(n: nat, faults: map<nat, XError>, hidden: Xid, receiver: Xid, props: map<(Xid, Xid), Property>): (t: LoadTrace)
    requires XcbErrors.FaultsConvertible(faults)
    ensures 1 <= |t.calls| <= 3 && t.calls[0] == GetProperty(hidden, receiver, 0) && t.semaphoreReset
    ensures t.result.Err? ==> n + |t.calls| - 1 in faults
                              && t.result.error == XcbErrors.FromXError(faults[n + |t.calls| - 1])
    ensures t.result.Ok? ==> forall i :: n <= i < n + |t.calls| ==> i !in faults
    ensures t.deleted <==> t.result.Ok?
    ensures t.result.Ok? ==> && |t.calls| == 3
                             && t.calls[1] == GetProperty(hidden, receiver, |PropertyAt(props, hidden, receiver).value|)
                             && t.calls[2] == DeleteProperty(hidden, receiver)
                             && t.result.value == Some(PropertyAt(props, hidden, receiver).value)
  {
    var probed := FetchProperty(props, hidden, receiver, 0);
    var probe := GetProperty(hidden, receiver, 0);
    var fetch := GetProperty(hidden, receiver, probed.bytesAfter);
    var delete := DeleteProperty(hidden, receiver);
    ProbeThenFetchIsWhole(props, hidden, receiver);
    if n in faults then LoadTrace(Err(XcbErrors.FromXError(faults[n])), [probe], true, false)
    else if n + 1 in faults then LoadTrace(Err(XcbErrors.FromXError(faults[n + 1])), [probe, fetch], true, false)
    else if n + 2 in faults then LoadTrace(Err(XcbErrors.FromXError(faults[n + 2])), [probe, fetch, delete], true, false)
    else LoadTrace(Ok(Some(FetchProperty(props, hidden, receiver, probed.bytesAfter).value)), [probe, fetch, delete], true, true)
  }

  /**
   * Asking for the conversion, with the first call at position `n` of the log: find
   * the owner of CLIPBOARD and, when there is one, ask it to convert into the
   * receiving property. `done` is the result when the flow ends here; `None` when
   * the request was sent.
   */
  function Request(n: nat, faults: map<nat, XError>, owner: Xid, kind: ClipboardDataKind, atoms: Atoms, hidden: Xid)
    : (q: (Option<Result<Option<seq<bv8>>, E.OSError>>, seq<Call>))
    requires XcbErrors.FaultsConvertible(faults)
    ensures 1 <= |q.1| <= 2 && q.1[0] == GetSelectionOwner(atoms.clipboard)
    ensures q.0.None? <==> |q.1| == 2 && n !in faults && n + 1 !in faults
    ensures |q.1| == 2 ==> && owner != NONE && n !in faults
                           && q.1[1] == ConvertSelection(hidden, atoms.clipboard, ConversionTarget(kind, atoms), atoms.clipboardReceiver)
    ensures q.0.Some? && q.0.value.Err? ==> n + |q.1| - 1 in faults
                                            && q.0.value.error == XcbErrors.FromXError(faults[n + |q.1| - 1])
    ensures q.0.Some? && q.0.value.Ok? ==> q.0.value == Ok(None) && |q.1| == 1 && n !in faults && owner == NONE
  {
    var ask := GetSelectionOwner(atoms.clipboard);
    var convert := ConvertSelection(hidden, atoms.clipboard, ConversionTarget(kind, atoms), atoms.clipboardReceiver);
    if n in faults then (Some(Err(XcbErrors.FromXError(faults[n]))), [ask])
    else if owner == NONE then (Some(Ok(None)), [ask])
    else if n + 1 in faults then (Some(Err(XcbErrors.FromXError(faults[n + 1]))), [ask, convert])
    else (None, [ask, convert])
  }

  /**
   * The load flow, when its first call lands at position `n` of the call log: the
   * selection owner is `owner`, the receiving property on the hidden window is
   * in `props`, and `performed` says whether the owner converted the selection.
   */
  function Load(n: nat, faults: map<nat, XError>, owner: Xid, performed: bool, kind: ClipboardDataKind,
                atoms: Atoms, hidden: Xid, props: map<(Xid, Xid), Property>): (t: LoadTrace)
    requires XcbErrors.FaultsConvertible(faults)
    ensures 1 <= |t.calls| <= 5 && t.calls[0] == GetSelectionOwner(atoms.clipboard)
    ensures t.result.Err? ==> n + |t.calls| - 1 in faults
                              && t.result.error == XcbErrors.FromXError(faults[n + |t.calls| - 1])
    ensures n !in faults && owner == NONE ==> t.result == Ok(None) && |t.calls| == 1
    ensures t.semaphoreReset <==> |t.calls| >= 2
    ensures |t.calls| >= 2 ==> owner != NONE
                               && t.calls[1] == ConvertSelection(hidden, atoms.clipboard, ConversionTarget(kind, atoms),
                                                                   atoms.clipboardReceiver)
    ensures !performed ==> |t.calls| <= 2
    ensures |t.calls| >= 3 ==> t.calls[2] == GetProperty(hidden, atoms.clipboardReceiver, 0)
    ensures t.deleted <==> t.result.Ok? && t.result.value.Some?
    ensures t.deleted ==> && |t.calls| == 5
                          && t.calls[4] == DeleteProperty(hidden, atoms.clipboardReceiver)
                          && t.result.value.value == PropertyAt(props, hidden, atoms.clipboardReceiver).value
    ensures t.result == Ok(None) ==> owner == NONE || !performed
  {
    var q := Request(n, faults, owner, kind, atoms, hidden);
    if q.0.Some? then LoadTrace(q.0.value, q.1, |q.1| == 2, false)
    else if !performed then LoadTrace(Ok(None), q.1, true, false)
    else
      var rd := Read(n + 2, faults, hidden, atoms.clipboardReceiver, props);
      rd.(calls := q.1 + rd.calls)
  }

  /**
   * `load_from_clipboard`. Waiting for the owner's `SelectionNotify` is outside
   * the model: `performed` says whether the conversion was done by the time
   * the wait ended, and the property table is what the owner left there.
   */
  method LoadFromClipboard(xcb: XcbInfo, kind: ClipboardDataKind, performed: bool)
    returns (r: Result<Option<seq<bv8>>, E.OSError>)
    requires xcb.Valid()
    requires PropertyAt(xcb.conn.properties, xcb.hiddenWindow, xcb.atoms.clipboardReceiver).kind != xcb.atoms.incr
    modifies xcb`semaphore, xcb.conn`calls, xcb.conn`properties
    ensures xcb.Valid()
    ensures var t := Load(|old(xcb.conn.calls)|, xcb.conn.faults, OwnerOf(xcb.conn.owners, xcb.atoms.clipboard), performed,
                          kind, xcb.atoms, xcb.hiddenWindow, old(xcb.conn.properties));
            && r == t.result
            && xcb.conn.calls == old(xcb.conn.calls) + t.calls
            && xcb.semaphore == (if t.semaphoreReset then Some(false) else old(xcb.semaphore))
            && xcb.conn.properties == if t.deleted then old(xcb.conn.properties) - {(xcb.hiddenWindow, xcb.atoms.clipboardReceiver)}
                                      else old(xcb.conn.properties)
  {
    ghost var start := xcb.conn.calls;
    ghost var q := Request(|start|, xcb.conn.faults, OwnerOf(xcb.conn.owners, xcb.atoms.clipboard), kind, xcb.atoms,
                           xcb.hiddenWindow);
    var done := RequestConversion(xcb, kind);
    if done.Some? {
      r := done.value;
    } else if !performed {
      r := Ok(None);
    } else {
      ghost var t := Read(|start| + 2, xcb.conn.faults, xcb.hiddenWindow, xcb.atoms.clipboardReceiver, xcb.conn.properties);
      r := ReadReceived(xcb);
      Regroup(start, q.1, t.calls);
    }
  }

  /** The requests of the conversion, then those of the read, are the two parts of the load's requests. */
  lemma Regroup<T>(a: seq<T>, b: seq<T>, c: seq<T>)
    ensures a + b + c == a + (b + c)
  {
  }

  /** The first part of `load_from_clipboard`: find the owner, reset the semaphore and ask for the conversion. */
  method RequestConversion(xcb: XcbInfo, kind: ClipboardDataKind) returns (done: Option<Result<Option<seq<bv8>>, E.OSError>>)
    requires xcb.Valid()
    modifies xcb`semaphore, xcb.conn`calls
    ensures var q := Request(|old(xcb.conn.calls)|, xcb.conn.faults, OwnerOf(xcb.conn.owners, xcb.atoms.clipboard),
                             kind, xcb.atoms, xcb.hiddenWindow);
            && done == q.0
            && xcb.conn.calls == old(xcb.conn.calls) + q.1
            && xcb.semaphore == (if |q.1| == 2 then Some(false) else old(xcb.semaphore))
  {
    var owner := xcb.conn.GetSelectionOwner(xcb.atoms.clipboard);
    if owner.Err? {
      return Some(Err(XcbErrors.FromXError(owner.error)));
    }
    if owner.value == NONE {
      return Some(Ok(None));
    }
    xcb.semaphore := Some(false);
    var target := ConversionTarget(kind, xcb.atoms);
    var sent := xcb.conn.Send(ConvertSelection(xcb.hiddenWindow, xcb.atoms.clipboard, target, xcb.atoms.clipboardReceiver));
    if sent.Err? {
      return Some(Err(XcbErrors.FromXError(sent.error)));
    }
    return None;
  }

  /** The part of `load_from_clipboard` after a performed conversion: read the property whole, then delete it. */
  method ReadReceived(xcb: XcbInfo) returns (r: Result<Option<seq<bv8>>, E.OSError>)
    requires xcb.Valid()
    requires PropertyAt(xcb.conn.properties, xcb.hiddenWindow, xcb.atoms.clipboardReceiver).kind != xcb.atoms.incr
    modifies xcb.conn`calls, xcb.conn`properties
    ensures var t := Read(|old(xcb.conn.calls)|, xcb.conn.faults, xcb.hiddenWindow, xcb.atoms.clipboardReceiver,
                          old(xcb.conn.properties));
            && r == t.result
            && xcb.conn.calls == old(xcb.conn.calls) + t.calls
            && xcb.conn.properties == if t.deleted then old(xcb.conn.properties) - {(xcb.hiddenWindow, xcb.atoms.clipboardReceiver)}
                                      else old(xcb.conn.properties)
  {
    var probe := xcb.conn.GetProperty(xcb.hiddenWindow, xcb.atoms.clipboardReceiver, 0);
    if probe.Err? {
      return Err(XcbErrors.FromXError(probe.error));
    }
    if probe.value.kind != xcb.atoms.incr {
      var propLength := probe.value.bytesAfter;
      var prop := xcb.conn.GetProperty(xcb.hiddenWindow, xcb.atoms.clipboardReceiver, propLength);
      if prop.Err? {
        return Err(XcbErrors.FromXError(prop.error));
      }
      var result := prop.value.value;
      var deleted := xcb.conn.DeleteProperty(xcb.hiddenWindow, xcb.atoms.clipboardReceiver);
      if deleted.Err? {
        return Err(XcbErrors.FromXError(deleted.error));
      }
      return Ok(Some(result));
    } else {
      assert false;
    }
  }
}
