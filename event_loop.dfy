/**
 * The application event loop: the `Wait`/`Poll`/`Exit` control-flow machine,
 * the edge-triggered `MainEventsCleared` tick, and teardown of a tracked window
 * before the handler sees its `Destroy`.
 *
 * `Run` below is the loop as a function of a finite script of poll results; the
 * class `EventLoop` runs the same loop imperatively and is proved to agree.
 */
module EventLoops {
  import opened Wrappers
  import opened Events
  import opened Errors

  /** What one call of the platform's `poll_event` gives back; `Failed` is an error, which `unwrap` turns into a panic. */
  datatype Polled = Ready(event: Event) | Empty | Failed

  /**
   * The application's handler: it is given every event handed to it so far (the last one
   * being the current event), the windows the loop still tracks at that moment, and the
   * control flow in force, and returns the control flow it leaves behind.
   */
  type Handler = (seq<Event>, set<WindowId>, ControlFlow) -> ControlFlow

  /** What one iteration carries to the next. */
  datatype LoopState = LoopState(cf: ControlFlow, hadEvent: bool, live: set<WindowId>, delivered: seq<Event>)

  /** One loop iteration as observed: the state at its top, what was polled and what the handler got. */
  datatype Iteration = Iteration(
    cf: ControlFlow,
    hadEvent: bool,
    live: set<WindowId>,
    prior: seq<Event>,
    polled: Polled,
    toreDown: Option<WindowId>,
    handled: Option<Event>,
    nextCf: ControlFlow,
    nextLive: set<WindowId>)

  /**
   * Why a run ended: the handler chose `Exit`, the script of polls ran out, or a poll
   * failed or the platform failed to destroy a tracked window (both `unwrap`ped, so a panic).
   */
  datatype Outcome = Exited | OutOfPolls | Panicked

  datatype RunResult = RunResult(trace: seq<Iteration>, final: LoopState, outcome: Outcome)

  predicate IsDestroy(e: Event)
  {
    e.WindowEvent? && e.event.Destroy?
  }

  function OptSeq(o: Option<Event>): seq<Event>
  {
    if o.Some? then [o.value] else []
  }

  /** One iteration of the loop body from state `st`. */
  function Step(st: LoopState, p: Polled, h: Handler): Iteration
    requires !p.Failed?
  {
    match p
    case Ready(e) =>
      var tear := IsDestroy(e) && e.window in st.live;
      var live' := if tear then st.live - {e.window} else st.live;
      Iteration(st.cf, st.hadEvent, st.live, st.delivered, p, if tear then Some(e.window) else None, Some(e),
                h(st.delivered + [e], live', st.cf), live')
    case Empty =>
      if IdleTick(st.cf, st.hadEvent) then
        Iteration(st.cf, st.hadEvent, st.live, st.delivered, p, None, Some(MainEventsCleared),
                  h(st.delivered + [MainEventsCleared], st.live, st.cf), st.live)
      else
        Iteration(st.cf, st.hadEvent, st.live, st.delivered, p, None, None, st.cf, st.live)
  }

  /** The state at the bottom of an iteration: the flag records whether an event was polled. */
  function Next(it: Iteration): LoopState
  {
    LoopState(it.nextCf, it.polled.Ready?, it.nextLive, it.prior + OptSeq(it.handled))
  }

  /**
   * A polled `Destroy` of a tracked window whose platform teardown fails: `fails` names the
   * windows whose `destroy_window` returns an error, which the loop `unwrap`s.
   */
  predicate TeardownFails(st: LoopState, p: Polled, fails: set<WindowId>)
  {
    p.Ready? && IsDestroy(p.event) && p.event.window in st.live && p.event.window in fails
  }

  /** The loop `while cf != Exit { ... }` over a finite script of poll results. */
  function RunLoop(polls: seq<Polled>, h: Handler, fails: set<WindowId>, st: LoopState): RunResult
    decreases |polls|
  {
    if st.cf == Exit then RunResult([], st, Exited)
    else if polls == [] then RunResult([], st, OutOfPolls)
    else if polls[0].Failed? || TeardownFails(st, polls[0], fails) then RunResult([], st, Panicked)
    else
      var it := Step(st, polls[0], h);
      var rest := RunLoop(polls[1..], h, fails, Next(it));
      RunResult([it] + rest.trace, rest.final, rest.outcome)
  }

  /** The windows torn down during a trace, in order. */
  function TornDown(trace: seq<Iteration>): seq<WindowId>
  {
    if trace == [] then []
    else OptSeqId(trace[0].toreDown) + TornDown(trace[1..])
  }

  function OptSeqId(o: Option<WindowId>): seq<WindowId>
  {
    if o.Some? then [o.value] else []
  }

  /** What holds of every single iteration. */
  ghost predicate StepFacts(it: Iteration, h: Handler)
  {
    && it.cf != Exit
    && !it.polled.Failed?
    && (it.polled.Ready? ==> it.handled == Some(it.polled.event))
    && (it.polled.Empty? ==> (it.handled.Some? <==> IdleTick(it.cf, it.hadEvent)))
    && (it.polled.Empty? && it.handled.Some? ==> it.handled.value == MainEventsCleared)
    && (it.toreDown.Some? <==> it.polled.Ready? && IsDestroy(it.polled.event) && it.polled.event.window in it.live)
    && (it.toreDown.Some? ==> it.toreDown.value == it.polled.event.window)
    && it.nextLive == (if it.toreDown.Some? then it.live - {it.toreDown.value} else it.live)
    && (it.handled.Some? ==> it.nextCf == h(it.prior + [it.handled.value], it.nextLive, it.cf))
    && (it.handled.None? ==> it.nextCf == it.cf)
  }

  /** How consecutive iterations hang together. */
  ghost predicate Linked(a: Iteration, b: Iteration)
  {
    && b.cf == a.nextCf
    && b.hadEvent == a.polled.Ready?
    && b.live == a.nextLive
    && b.prior == a.prior + OptSeq(a.handled)
  }

  ghost predicate StartsFrom(st: LoopState, it: Iteration)
  {
    it.cf == st.cf && it.hadEvent == st.hadEvent && it.live == st.live && it.prior == st.delivered
  }

  /** Everything a run promises about its trace, stated without recursion. */
  ghost predicate TraceFacts(polls: seq<Polled>, h: Handler, fails: set<WindowId>, st: LoopState, r: RunResult)
  {
    && |r.trace| <= |polls|
    && (forall k :: 0 <= k < |r.trace| ==> r.trace[k].polled == polls[k] && StepFacts(r.trace[k], h))
    && (forall k :: 0 <= k < |r.trace| - 1 ==> Linked(r.trace[k], r.trace[k + 1]))
    && (|r.trace| > 0 ==> StartsFrom(st, r.trace[0]))
    && r.final == (if |r.trace| == 0 then st else Next(r.trace[|r.trace| - 1]))
    && (r.outcome == Exited <==> r.final.cf == Exit)
    && (r.outcome == OutOfPolls ==> |r.trace| == |polls|)
    && (r.outcome == Panicked ==>
          |r.trace| < |polls| && (polls[|r.trace|].Failed? || TeardownFails(r.final, polls[|r.trace|], fails)))
    && (forall k :: 0 <= k < |r.trace| && r.trace[k].toreDown.Some? ==> r.trace[k].toreDown.value !in fails)
  }

  lemma StepFactsHold(st: LoopState, p: Polled, h: Handler)
    requires st.cf != Exit && !p.Failed?
    ensures StepFacts(Step(st, p, h), h) && StartsFrom(st, Step(st, p, h))
  {
  }

  lemma {:induction false} RunFacts(polls: seq<Polled>, h: Handler, fails: set<WindowId>, st: LoopState)
    ensures TraceFacts(polls, h, fails, st, RunLoop(polls, h, fails, st))
    decreases |polls|
  {
    if st.cf != Exit && polls != [] && !polls[0].Failed? && !TeardownFails(st, polls[0], fails) {
      var it := Step(st, polls[0], h);
      RunFacts(polls[1..], h, fails, Next(it));
      StepFactsHold(st, polls[0], h);
      ConsFacts(polls, h, fails, st, it, RunLoop(polls[1..], h, fails, Next(it)), RunLoop(polls, h, fails, st));
    }
  }

  /** The facts of a run whose first iteration is `it` and whose remainder is `rest`. */
  lemma ConsFacts(polls: seq<Polled>, h: Handler, fails: set<WindowId>, st: LoopState, it: Iteration, rest: RunResult, r: RunResult)
    requires polls != [] && it.polled == polls[0] && StepFacts(it, h) && StartsFrom(st, it)
    requires !TeardownFails(st, polls[0], fails)
    requires TraceFacts(polls[1..], h, fails, Next(it), rest)
    requires r == RunResult([it] + rest.trace, rest.final, rest.outcome)
    ensures TraceFacts(polls, h, fails, st, r)
  {
    forall k | 0 <= k < |r.trace|
      ensures r.trace[k].polled == polls[k] && StepFacts(r.trace[k], h)
    {
      if k > 0 {
        assert r.trace[k] == rest.trace[k - 1];
        assert polls[k] == polls[1..][k - 1];
      }
    }
    forall k | 0 <= k < |r.trace| - 1
      ensures Linked(r.trace[k], r.trace[k + 1])
    {
      if k > 0 {
        assert r.trace[k] == rest.trace[k - 1];
        assert r.trace[k + 1] == rest.trace[k];
      }
    }
    if |rest.trace| > 0 {
      assert r.trace[|r.trace| - 1] == rest.trace[|rest.trace| - 1];
    }
    if r.outcome == Panicked {
      assert polls[|r.trace|] == polls[1..][|rest.trace|];
    }
    forall k | 0 <= k < |r.trace| && r.trace[k].toreDown.Some?
      ensures r.trace[k].toreDown.value !in fails
    {
      if k > 0 {
        assert r.trace[k] == rest.trace[k - 1];
      }
    }
  }

  /** Every iteration that runs starts with a control flow other than `Exit`: once the handler sets `Exit`, it is not called again. */
  lemma NoHandlerCallAfterExit(polls: seq<Polled>, h: Handler, fails: set<WindowId>, st: LoopState, k: nat)
    requires k < |RunLoop(polls, h, fails, st).trace|
    ensures RunLoop(polls, h, fails, st).trace[k].cf != Exit
    ensures k + 1 < |RunLoop(polls, h, fails, st).trace| ==> RunLoop(polls, h, fails, st).trace[k].nextCf != Exit
  {
    RunFacts(polls, h, fails, st);
    var t := RunLoop(polls, h, fails, st).trace;
    if k + 1 < |t| {
      assert Linked(t[k], t[k + 1]);
    }
  }

  /** A run that ends by `Exit` ends right after a handler call that returned `Exit`. */
  lemma ExitEndsTheRun(polls: seq<Polled>, h: Handler, fails: set<WindowId>, st: LoopState)
    requires st.cf != Exit
    requires RunLoop(polls, h, fails, st).outcome == Exited
    ensures |RunLoop(polls, h, fails, st).trace| > 0
    ensures var t := RunLoop(polls, h, fails, st).trace;
            t[|t| - 1].handled.Some? && t[|t| - 1].nextCf == Exit
  {
    RunFacts(polls, h, fails, st);
  }

  /** Iteration `k` runs the `k`-th poll, and every polled event is handed to the handler, once, in poll order. */
  lemma PolledEventsDelivered(polls: seq<Polled>, h: Handler, fails: set<WindowId>, st: LoopState, k: nat)
    requires k < |RunLoop(polls, h, fails, st).trace|
    ensures k < |polls| && RunLoop(polls, h, fails, st).trace[k].polled == polls[k]
    ensures polls[k].Ready? ==> RunLoop(polls, h, fails, st).trace[k].handled == Some(polls[k].event)
  {
    RunFacts(polls, h, fails, st);
  }

  /** Under `Poll`, every empty poll delivers `MainEventsCleared`. */
  lemma PollTicksOnEveryEmptyPoll(polls: seq<Polled>, h: Handler, fails: set<WindowId>, st: LoopState, k: nat)
    requires k < |RunLoop(polls, h, fails, st).trace|
    requires RunLoop(polls, h, fails, st).trace[k].polled.Empty?
    requires RunLoop(polls, h, fails, st).trace[k].cf == Poll
    ensures RunLoop(polls, h, fails, st).trace[k].handled == Some(MainEventsCleared)
  {
    RunFacts(polls, h, fails, st);
  }

  /**
   * Under `Wait`, an empty poll delivers `MainEventsCleared` exactly when the previous
   * iteration polled an event; so of two consecutive empty polls under `Wait`, the
   * second delivers nothing.
   */
  lemma WaitTickIsEdgeTriggered(polls: seq<Polled>, h: Handler, fails: set<WindowId>, st: LoopState, k: nat)
    requires 0 < k < |RunLoop(polls, h, fails, st).trace|
    requires RunLoop(polls, h, fails, st).trace[k].polled.Empty?
    requires RunLoop(polls, h, fails, st).trace[k].cf == Wait
    ensures RunLoop(polls, h, fails, st).trace[k].handled.Some? <==> RunLoop(polls, h, fails, st).trace[k - 1].polled.Ready?
    ensures RunLoop(polls, h, fails, st).trace[k].handled.Some? ==> RunLoop(polls, h, fails, st).trace[k].handled.value == MainEventsCleared
  {
    RunFacts(polls, h, fails, st);
    var t := RunLoop(polls, h, fails, st).trace;
    assert Linked(t[k - 1], t[k]);
  }

  /**
   * A tracked window's teardown comes first: when the handler receives its `Destroy`,
   * the window is no longer among the tracked ones it is shown; an untracked window's
   * `Destroy` is passed on without teardown.
   */
  lemma TeardownPrecedesHandler(polls: seq<Polled>, h: Handler, fails: set<WindowId>, st: LoopState, k: nat)
    requires k < |RunLoop(polls, h, fails, st).trace|
    requires RunLoop(polls, h, fails, st).trace[k].polled.Ready?
    requires IsDestroy(RunLoop(polls, h, fails, st).trace[k].polled.event)
    ensures var it := RunLoop(polls, h, fails, st).trace[k];
            var w := it.polled.event.window;
            && (it.toreDown == if w in it.live then Some(w) else None)
            && w !in it.nextLive
            && it.nextCf == h(it.prior + [it.polled.event], it.nextLive, it.cf)
  {
    RunFacts(polls, h, fails, st);
  }

  /**
   * A run stops at a failed teardown: it is the next poll after the trace, a `Destroy` of a
   * window still tracked whose teardown fails, and the handler never receives it. Every
   * teardown the trace records succeeded.
   */
  lemma FailedTeardownEndsTheRun(polls: seq<Polled>, h: Handler, fails: set<WindowId>, st: LoopState)
    requires RunLoop(polls, h, fails, st).outcome == Panicked
    ensures var r := RunLoop(polls, h, fails, st);
            && |r.trace| < |polls|
            && (polls[|r.trace|].Failed? ||
                (polls[|r.trace|].Ready? && IsDestroy(polls[|r.trace|].event)
                 && polls[|r.trace|].event.window in r.final.live && polls[|r.trace|].event.window in fails))
    ensures var r := RunLoop(polls, h, fails, st);
            forall k :: 0 <= k < |r.trace| && r.trace[k].toreDown.Some? ==> r.trace[k].toreDown.value !in fails
  {
    RunFacts(polls, h, fails, st);
  }

  /** The tracked set only shrinks along a trace. */
  lemma {:induction false} LiveShrinks(t: seq<Iteration>, h: Handler, j: nat, k: nat)
    requires forall i :: 0 <= i < |t| ==> StepFacts(t[i], h)
    requires forall i :: 0 <= i < |t| - 1 ==> Linked(t[i], t[i + 1])
    requires j < k < |t|
    ensures t[k].live <= t[j].nextLive
    decreases k - j
  {
    assert Linked(t[k - 1], t[k]);
    if j < k - 1 {
      LiveShrinks(t, h, j, k - 1);
      assert StepFacts(t[k - 1], h);
    }
  }

  /** Destroy is idempotent: no window is torn down twice, however many `Destroy`s arrive for it. */
  lemma DestroyIsIdempotent(polls: seq<Polled>, h: Handler, fails: set<WindowId>, st: LoopState, j: nat, k: nat)
    requires j < k < |RunLoop(polls, h, fails, st).trace|
    requires RunLoop(polls, h, fails, st).trace[j].toreDown.Some? && RunLoop(polls, h, fails, st).trace[k].toreDown.Some?
    ensures RunLoop(polls, h, fails, st).trace[j].toreDown != RunLoop(polls, h, fails, st).trace[k].toreDown
  {
    RunFacts(polls, h, fails, st);
    var t := RunLoop(polls, h, fails, st).trace;
    LiveShrinks(t, h, j, k);
  }

  /** Advancing the loop by one iteration keeps the observed prefix and the remaining run together. */
  lemma RunLoopAdvance(polls: seq<Polled>, i: nat, h: Handler, fails: set<WindowId>, st: LoopState, trace: seq<Iteration>, whole: RunResult)
    requires i < |polls| && st.cf != Exit && !polls[i].Failed? && !TeardownFails(st, polls[i], fails)
    requires var rest := RunLoop(polls[i..], h, fails, st);
             whole == RunResult(trace + rest.trace, rest.final, rest.outcome)
    ensures var it := Step(st, polls[i], h);
            var rest := RunLoop(polls[i + 1..], h, fails, Next(it));
            whole == RunResult(trace + [it] + rest.trace, rest.final, rest.outcome)
  {
    var it := Step(st, polls[i], h);
    var rest := RunLoop(polls[i + 1..], h, fails, Next(it));
    assert polls[i..][1..] == polls[i + 1..];
    assert RunLoop(polls[i..], h, fails, st).trace == [it] + rest.trace;
    assert trace + [it] + rest.trace == trace + ([it] + rest.trace);
  }

  /** Where the remaining polls stop at once: the handler asked to exit, or no poll is left. */
  lemma RunLoopStops(polls: seq<Polled>, i: nat, h: Handler, fails: set<WindowId>, st: LoopState, trace: seq<Iteration>, whole: RunResult)
    requires i <= |polls|
    requires var rest := RunLoop(polls[i..], h, fails, st);
             whole == RunResult(trace + rest.trace, rest.final, rest.outcome)
    ensures st.cf == Exit ==> whole == RunResult(trace, st, Exited)
    ensures st.cf != Exit && i == |polls| ==> whole == RunResult(trace, st, OutOfPolls)
  {
    assert trace + [] == trace;
    if i == |polls| {
      assert polls[i..] == [];
    }
  }

  /** The window whose failed teardown ended the run, when that is how it ended. */
  function Aborted(polls: seq<Polled>, r: RunResult): (a: Option<WindowId>)
    ensures a.Some? ==> r.outcome == Panicked && |r.trace| < |polls| && polls[|r.trace|].Ready?
                        && IsDestroy(polls[|r.trace|].event) && a.value == polls[|r.trace|].event.window
  {
    if r.outcome == Panicked && |r.trace| < |polls| && polls[|r.trace|].Ready? && IsDestroy(polls[|r.trace|].event) then Some(polls[|r.trace|].event.window)
    else None
  }

  /**
   * The event loop: a map of live windows keyed by id, and a log of the platform
   * `destroy_window` calls it made.
   */
  class EventLoop<P> {
    var windows: map<WindowId, P>
    var destroyed: seq<WindowId>

    constructor ()
      ensures windows == map[] && destroyed == []
    {
      windows := map[];
      destroyed := [];
    }

    /** Registers a window the platform created; a platform failure is returned unchanged. */
    method CreateWindow(created: Result<(WindowId, P), OSError>) returns (r: Result<WindowId, OSError>)
      modifies this
      ensures created.Err? ==> r == Err(created.error) && windows == old(windows)
      ensures created.Ok? ==> r == Ok(created.value.0) && windows == old(windows)[created.value.0 := created.value.1]
      ensures created.Ok? ==> r.value in windows
      ensures destroyed == old(destroyed)
    {
      if created.Err? {
        return Err(created.error);
      }
      var (id, platform) := created.value;
      windows := windows[id := platform];
      r := Ok(id);
    }

    /** `run`: starts under `Poll` and loops until the handler sets `Exit`. */
    method Run(polls: seq<Polled>, h: Handler, fails: set<WindowId>) returns (trace: seq<Iteration>, outcome: Outcome)
      modifies this
      ensures var r := RunLoop(polls, h, fails, LoopState(Poll, false, old(windows).Keys, []));
              trace == r.trace && outcome == r.outcome
      ensures var r := RunLoop(polls, h, fails, LoopState(Poll, false, old(windows).Keys, []));
              var a := Aborted(polls, r);
              && windows.Keys == (if a.Some? then r.final.live - {a.value} else r.final.live)
              && destroyed == old(destroyed) + TornDown(trace) + OptSeqId(a)
      ensures forall w :: w in windows ==> w in old(windows) && windows[w] == old(windows)[w]
    {
      var cf := Poll;
      var thereWasAnEventBefore := false;
      var delivered: seq<Event> := [];
      var i := 0;
      trace := [];
      ghost var whole := RunLoop(polls, h, fails, LoopState(Poll, false, windows.Keys, []));
      ghost var rest := whole;
      while cf != Exit
        invariant 0 <= i <= |polls| && |trace| == i
        invariant rest == RunLoop(polls[i..], h, fails, LoopState(cf, thereWasAnEventBefore, windows.Keys, delivered))
        invariant whole == RunResult(trace + rest.trace, rest.final, rest.outcome)
        invariant forall w :: w in windows ==> w in old(windows) && windows[w] == old(windows)[w]
        invariant destroyed == old(destroyed) + TornDown(trace)
        decreases |polls| - i
      {
        ghost var cur := LoopState(cf, thereWasAnEventBefore, windows.Keys, delivered);
        if i == |polls| {
          assert polls[i..] == [];
          outcome := OutOfPolls;
          return;
        }
        if polls[i].Failed? {
          assert polls[i..][0] == polls[i];
          outcome := Panicked;
          return;
        }
        var record, panicked;
        ghost var rest';
        record, cf, thereWasAnEventBefore, delivered, panicked, rest' :=
          Advance(polls, i, h, fails, cf, thereWasAnEventBefore, delivered, trace, whole, old(windows), old(destroyed));
        if panicked {
          outcome := Panicked;
          return;
        }
        trace := trace + [record];
        rest := rest';
        i := i + 1;
      }
      outcome := Exited;
    }

    /**
     * One pass of the loop body: tear down a destroyed window, then call the handler.
     * A teardown that fails panics (`panicked`) after the window has left the map.
     */
    method Iterate(polled: Polled, h: Handler, fails: set<WindowId>, cf: ControlFlow, hadEvent: bool, prior: seq<Event>)
      returns (record: Iteration, cf': ControlFlow, hadEvent': bool, delivered: seq<Event>, panicked: bool)
      requires cf != Exit && !polled.Failed?
      modifies this
      ensures panicked <==> TeardownFails(LoopState(cf, hadEvent, old(windows).Keys, prior), polled, fails)
      ensures panicked ==> windows == old(windows) - {polled.event.window}
                           && destroyed == old(destroyed) + [polled.event.window]
      ensures !panicked ==> record == Step(LoopState(cf, hadEvent, old(windows).Keys, prior), polled, h)
      ensures !panicked ==> LoopState(cf', hadEvent', windows.Keys, delivered) == Next(record)
      ensures !panicked ==> destroyed == old(destroyed) + OptSeqId(record.toreDown)
      ensures forall w :: w in windows ==> w in old(windows) && windows[w] == old(windows)[w]
    {
      panicked := false;
      var before := windows.Keys;
      var toreDown: Option<WindowId> := None;
      var handled: Option<Event> := None;
      cf' := cf;
      delivered := prior;
      if polled.Ready? {
        var event := polled.event;
        if event.WindowEvent? && event.event.Destroy? && event.window in windows {
          windows := windows - {event.window};
          destroyed := destroyed + [event.window];
          if event.window in fails {
            // the `unwrap` panics: the handler is not called and the iteration is not completed
            panicked := true;
            record := Iteration(cf, hadEvent, before, prior, polled, None, None, cf, windows.Keys);
            hadEvent' := hadEvent;
            return;
          }
          toreDown := Some(event.window);
        }
        delivered := delivered + [event];
        handled := Some(event);
        cf' := h(delivered, windows.Keys, cf);
        hadEvent' := true;
      } else {
        if cf == Poll || hadEvent {
          delivered := delivered + [MainEventsCleared];
          handled := Some(MainEventsCleared);
          cf' := h(delivered, windows.Keys, cf);
        }
        hadEvent' := false;
      }
      record := Iteration(cf, hadEvent, before, prior, polled, toreDown, handled, cf', windows.Keys);
    }

    /**
     * One pass of `run`'s loop over poll `i` of `polls`, matched against `RunLoop`: a failed
     * teardown ends the run as `RunLoop` panics, with that window gone and destroyed;
     * otherwise the functional loop advances by exactly this iteration.
     */
    method Advance(polls: seq<Polled>, i: nat, h: Handler, fails: set<WindowId>, cf: ControlFlow, hadEvent: bool,
                   prior: seq<Event>, ghost trace: seq<Iteration>, ghost whole: RunResult,
                   ghost w0: map<WindowId, P>, ghost d0: seq<WindowId>)
      returns (record: Iteration, cf': ControlFlow, hadEvent': bool, delivered: seq<Event>, panicked: bool,
               ghost rest: RunResult)
      requires i < |polls| && |trace| == i && cf != Exit && !polls[i].Failed?
      requires var rest := RunLoop(polls[i..], h, fails, LoopState(cf, hadEvent, windows.Keys, prior));
               whole == RunResult(trace + rest.trace, rest.final, rest.outcome)
      requires forall w :: w in windows ==> w in w0 && windows[w] == w0[w]
      requires destroyed == d0 + TornDown(trace)
      modifies this
      ensures forall w :: w in windows ==> w in w0 && windows[w] == w0[w]
      ensures panicked ==> && whole.trace == trace && whole.outcome == Panicked
                           && var a := Aborted(polls, whole);
                              && a.Some? && windows.Keys == whole.final.live - {a.value}
                              && destroyed == d0 + TornDown(trace) + OptSeqId(a)
      ensures !panicked ==> && rest == RunLoop(polls[i + 1..], h, fails, LoopState(cf', hadEvent', windows.Keys, delivered))
                            && whole == RunResult(trace + [record] + rest.trace, rest.final, rest.outcome)
                            && destroyed == d0 + TornDown(trace + [record])
    {
      ghost var cur := LoopState(cf, hadEvent, windows.Keys, prior);
      record, cf', hadEvent', delivered, panicked := Iterate(polls[i], h, fails, cf, hadEvent, prior);
      rest := RunLoop(polls[i + 1..], h, fails, LoopState(cf', hadEvent', windows.Keys, delivered));
      if panicked {
        assert polls[i..][0] == polls[i];
        assert trace + [] == trace;
      } else {
        RunLoopAdvance(polls, i, h, fails, cur, trace, whole);
        TornDownAppend(trace, [record]);
      }
    }
  }


  lemma {:induction false} TornDownAppend(a: seq<Iteration>, b: seq<Iteration>)
    ensures TornDown(a + b) == TornDown(a) + TornDown(b)
  {
    if a != [] {
      assert (a + b)[1..] == a[1..] + b;
      TornDownAppend(a[1..], b);
    } else {
      assert a + b == b;
    }
  }
}
