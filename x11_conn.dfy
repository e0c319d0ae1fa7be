/**
 * The X server as the XCB backend sees it through its x11rb connection: the
 * native event records it reads, the calls it makes (X requests and the OS
 * memory-mapping calls that go with them), and the little server state those
 * calls read or change (selection owners, window properties, resource ids).
 *
 * Which calls fail is not decided here: `faults` says which position of the call
 * log fails and with what error, and `mmapFailures` which `mmap` returns
 * `MAP_FAILED`. Every outcome of the real server is one choice of these.
 */
module X11Conn {
  import opened Wrappers
  import opened Events
  import opened X11Rb

  /** A resource id or atom. */
  type Xid = u32

  /** `x11rb::NONE`. */
  const NONE: Xid := 0

  datatype PropertyState = NewValue | Deleted

  /** The native event records the backend looks at, with the fields it reads. */
  datatype XEvent =
    | ButtonPress(event: Xid, eventX: int, eventY: int, detail: bv8)
    | ButtonRelease(event: Xid, eventX: int, eventY: int, detail: bv8)
    | ConfigureNotify(window: Xid, width: u16, height: u16)
    | MotionNotify(event: Xid, eventX: int, eventY: int)
    | SelectionNotify(property: Xid)
    | SelectionRequest(requestor: Xid, selection: Xid, target: Xid, property: Xid)
    | PropertyNotify(window: Xid, atom: Xid, state: PropertyState)
    | ClientMessage(window: Xid, format: nat, data0: u32)
    | Expose(window: Xid, x: u16, y: u16, width: u16, height: u16, count: u16)
    | DestroyNotify(window: Xid)
    | OtherEvent

  /** What one `poll_for_event` returns. */
  datatype NativePoll = Record(record: XEvent) | NoEvent | PollError(error: ConnectionError)

  /** A window property in format 8: its type atom and its bytes. */
  datatype Property = Property(kind: Xid, value: seq<bv8>)

  /** The fields of a `GetProperty` reply the backend reads. */
  datatype PropertyReply = PropertyReply(kind: Xid, bytesAfter: nat, value: seq<bv8>)

  /** Every call the backend makes on the connection, plus the OS calls that map buffers. */
  datatype Call =
    | GenerateId
    | CreateWindow(window: Xid, parent: Xid, width: u16, height: u16)
    | ChangeProperty32(window: Xid, property: Xid, kind: Xid, values: seq<u32>)
    | CreateGc(gc: Xid, window: Xid)
    | MapWindow(window: Xid)
    | Flush
    | ShmCreateSegment(seg: Xid, size: u32)
    | ShmDetach(seg: Xid)
    | ShmCreatePixmap(pixmap: Xid, window: Xid, width: u16, height: u16, seg: Xid)
    | CreatePixmap(pixmap: Xid, window: Xid, width: u16, height: u16)
    | FreePixmap(pixmap: Xid)
    | PutImage(pixmap: Xid, gc: Xid, width: u16, height: u16, data: seq<bv8>)
    | CopyArea(pixmap: Xid, window: Xid, gc: Xid, width: u16, height: u16)
    | GetSelectionOwner(selection: Xid)
    | ConvertSelection(requestor: Xid, selection: Xid, target: Xid, property: Xid)
    | GetProperty(window: Xid, property: Xid, longLength: nat)
    | DeleteProperty(window: Xid, property: Xid)
    | Mmap(length: nat, shared: bool)
    | Munmap(length: nat)
    | UpdateWinBufferSize(window: Xid, width: u16, height: u16)
    | ProcessSelectionRequest(request: XEvent)

  /** What `poll_for_event` returns for a script of pending results; an exhausted script reads as no event. */
  function NextPoll(pending: seq<NativePoll>): (r: Result<Option<XEvent>, ConnectionError>)
    ensures pending == [] ==> r == Ok(None)
    ensures pending != [] && pending[0].Record? ==> r == Ok(Some(pending[0].record))
    ensures pending != [] && pending[0].PollError? ==> r == Err(pending[0].error)
  {
    if pending == [] then Ok(None)
    else match pending[0]
      case Record(e) => Ok(Some(e))
      case NoEvent => Ok(None)
      case PollError(e) => Err(e)
  }

  function PropertyAt(properties: map<(Xid, Xid), Property>, window: Xid, property: Xid): Property
  {
    if (window, property) in properties then properties[(window, property)] else Property(NONE, [])
  }

  /**
   * A `GetProperty` reply at offset 0 asking for `longLength` 32-bit units: at most
   * `4 * longLength` bytes of the value, and how many bytes remain after them. A
   * missing property reads as type `NONE` with nothing in it.
   */
  function FetchProperty(properties: map<(Xid, Xid), Property>, window: Xid, property: Xid, longLength: nat): (r: PropertyReply)
    ensures r.kind == PropertyAt(properties, window, property).kind
    ensures r.value <= PropertyAt(properties, window, property).value
    ensures |r.value| <= 4 * longLength
    ensures r.bytesAfter == |PropertyAt(properties, window, property).value| - |r.value|
    ensures r.bytesAfter > 0 ==> |r.value| == 4 * longLength
  {
    var p := PropertyAt(properties, window, property);
    var n := if |p.value| <= 4 * longLength then |p.value| else 4 * longLength;
    PropertyReply(p.kind, |p.value| - n, p.value[..n])
  }

  /** Asking for as many 32-bit units as a zero-length probe reported bytes remaining fetches the whole value. */
  lemma ProbeThenFetchIsWhole(properties: map<(Xid, Xid), Property>, window: Xid, property: Xid)
    ensures var probe := FetchProperty(properties, window, property, 0);
            var full := FetchProperty(properties, window, property, probe.bytesAfter);
            probe.value == [] && full.value == PropertyAt(properties, window, property).value && full.bytesAfter == 0
  {
    var probe := FetchProperty(properties, window, property, 0);
    var full := FetchProperty(properties, window, property, probe.bytesAfter);
    var v := PropertyAt(properties, window, property).value;
    assert probe.bytesAfter == |v|;
  }

  /** The id the counter hands out after `x`. */
  function NextXid(x: Xid): Xid
  {
    (x + 1) % U32_LIMIT
  }

  /**
   * From log `before` to log `after`, the calls of `plan` were made in order, each
   * one only when every earlier one succeeded: they stop at the first call that
   * fails, or at the end of the plan.
   */
  ghost predicate RanUntilFailure(before: seq<Call>, after: seq<Call>, plan: seq<Call>, faults: map<nat, XError>)
  {
    && |before| < |after| <= |before| + |plan|
    && after == before + plan[..|after| - |before|]
    && (forall i :: |before| <= i < |after| - 1 ==> i !in faults)
    && (|after| < |before| + |plan| ==> |after| - 1 in faults)
  }

  /** Running `p` to its end with success, then `q`, is running `p + q`. */
  lemma RanThen(a: seq<Call>, b: seq<Call>, c: seq<Call>, p: seq<Call>, q: seq<Call>, faults: map<nat, XError>)
    requires RanUntilFailure(a, b, p, faults) && |b| == |a| + |p| && |b| - 1 !in faults
    requires RanUntilFailure(b, c, q, faults)
    ensures RanUntilFailure(a, c, p + q, faults)
  {
    assert (p + q)[..|c| - |a|] == p + q[..|c| - |b|];
  }

  /** A run of `p` stopped by a failure is also a run of `p` followed by anything. */
  lemma RanStopped(a: seq<Call>, b: seq<Call>, p: seq<Call>, q: seq<Call>, faults: map<nat, XError>)
    requires RanUntilFailure(a, b, p, faults) && |b| - 1 in faults
    ensures RanUntilFailure(a, b, p + q, faults)
  {
    assert (p + q)[..|b| - |a|] == p[..|b| - |a|];
  }

  class XConnection {
    /** Every call made so far, in order. */
    var calls: seq<Call>
    /** The call made at this position of the log fails with this error. */
    const faults: map<nat, XError>
    /** The `mmap` made at this position of the log returns `MAP_FAILED`. */
    const mmapFailures: set<nat>
    /** What the coming `poll_for_event`s return. */
    var pending: seq<NativePoll>
    var owners: map<Xid, Xid>
    var properties: map<(Xid, Xid), Property>
    /** The id the next `generate_id` hands out. */
    var nextId: Xid

    constructor (faults: map<nat, XError>, mmapFailures: set<nat>, pending: seq<NativePoll>,
                 owners: map<Xid, Xid>, properties: map<(Xid, Xid), Property>)
      ensures this.faults == faults && this.mmapFailures == mmapFailures && this.pending == pending
      ensures this.owners == owners && this.properties == properties
      ensures calls == [] && nextId == 1
    {
      this.faults := faults;
      this.mmapFailures := mmapFailures;
      this.pending := pending;
      this.owners := owners;
      this.properties := properties;
      calls := [];
      nextId := 1;
    }

    /** The error, if any, that the next call gets. */
    function NextFault(): (r: Option<XError>)
      reads this
      ensures r.Some? <==> |calls| in faults
      ensures r.Some? ==> r.value == faults[|calls|]
    {
      if |calls| in faults then Some(faults[|calls|]) else None
    }

    /** A request whose only outcome is success or an error. */
    method Send(c: Call) returns (res: Result<(), XError>)
      modifies this`calls
      ensures calls == old(calls) + [c]
      ensures res.Err? <==> old(NextFault()).Some?
      ensures res.Err? ==> res.error == old(NextFault()).value
    {
      var fault := NextFault();
      calls := calls + [c];
      if fault.Some? {
        return Err(fault.value);
      }
      return Ok(());
    }

    /** A call of code not part of this model (its effects are not modelled), recorded in the log. */
    method Note(c: Call)
      modifies this`calls
      ensures calls == old(calls) + [c]
    {
      calls := calls + [c];
    }

    /**
     * `generate_id`: the next id of the counter. Running out of ids is one of the
     * errors a fault can carry (`IdsExhausted`), like the failure of any other call.
     */
    method GenerateId() returns (res: Result<Xid, XError>)
      modifies this`calls, this`nextId
      ensures calls == old(calls) + [Call.GenerateId]
      ensures old(NextFault()).Some? ==> res == Err(old(NextFault()).value) && nextId == old(nextId)
      ensures old(NextFault()).None? ==> res == Ok(old(nextId)) && nextId == NextXid(old(nextId))
    {
      var fault := NextFault();
      calls := calls + [Call.GenerateId];
      if fault.Some? {
        return Err(fault.value);
      }
      res := Ok(nextId);
      nextId := NextXid(nextId);
    }

    /** `poll_for_event`: takes the next pending result. */
    method PollForEvent() returns (res: Result<Option<XEvent>, ConnectionError>)
      modifies this`pending
      ensures res == NextPoll(old(pending))
      ensures pending == if old(pending) == [] then [] else old(pending)[1..]
    {
      res := NextPoll(pending);
      if pending != [] {
        pending := pending[1..];
      }
    }

    method GetSelectionOwner(selection: Xid) returns (res: Result<Xid, XError>)
      modifies this`calls
      ensures calls == old(calls) + [Call.GetSelectionOwner(selection)]
      ensures old(NextFault()).Some? ==> res == Err(old(NextFault()).value)
      ensures old(NextFault()).None? ==> res == Ok(if selection in owners then owners[selection] else NONE)
    {
      var fault := NextFault();
      calls := calls + [Call.GetSelectionOwner(selection)];
      if fault.Some? {
        return Err(fault.value);
      }
      res := Ok(if selection in owners then owners[selection] else NONE);
    }

    method GetProperty(window: Xid, property: Xid, longLength: nat) returns (res: Result<PropertyReply, XError>)
      modifies this`calls
      ensures calls == old(calls) + [Call.GetProperty(window, property, longLength)]
      ensures old(NextFault()).Some? ==> res == Err(old(NextFault()).value)
      ensures old(NextFault()).None? ==> res == Ok(FetchProperty(properties, window, property, longLength))
    {
      var fault := NextFault();
      calls := calls + [Call.GetProperty(window, property, longLength)];
      if fault.Some? {
        return Err(fault.value);
      }
      res := Ok(FetchProperty(properties, window, property, longLength));
    }

    method DeleteProperty(window: Xid, property: Xid) returns (res: Result<(), XError>)
      modifies this`calls, this`properties
      ensures calls == old(calls) + [Call.DeleteProperty(window, property)]
      ensures old(NextFault()).Some? ==> res == Err(old(NextFault()).value) && properties == old(properties)
      ensures old(NextFault()).None? ==> res == Ok(()) && properties == old(properties) - {(window, property)}
    {
      var fault := NextFault();
      calls := calls + [Call.DeleteProperty(window, property)];
      if fault.Some? {
        return Err(fault.value);
      }
      properties := properties - {(window, property)};
      res := Ok(());
    }

    /** `mmap` of `length` bytes: a fresh zero-filled buffer, or `MAP_FAILED`. */
    method Mmap(length: nat, shared: bool) returns (addr: Option<array<bv8>>)
      modifies this`calls
      ensures calls == old(calls) + [Call.Mmap(length, shared)]
      ensures addr.None? <==> |old(calls)| in mmapFailures
      ensures addr.Some? ==> fresh(addr.value) && addr.value.Length == length
      ensures addr.Some? ==> forall i :: 0 <= i < length ==> addr.value[i] == 0
    {
      var failed := |calls| in mmapFailures;
      calls := calls + [Call.Mmap(length, shared)];
      if failed {
        return None;
      }
      var buffer := new bv8[length](_ => 0);
      addr := Some(buffer);
    }
  }
}
