/**
 * The restart handler of rerun's `run`: each value received on `runch` stops
 * the current child process (interrupt, kill if the interrupt cannot be
 * sent, then wait for it) and, when the value is `true`, starts a new one.
 *
 * Process control is not performed: the handler's effects are an abstract
 * trace of actions, and whether the interrupt could be sent and what `Start`
 * produced are inputs of each request.
 */
module Supervisor {
  import opened Base

  /** An OS process (`*os.Process`); nil is None. */
  type Handle = nat

  /** What the handler does to the operating system. */
  datatype Action =
    | Signal(h: Handle)             // proc.Signal(os.Interrupt)
    | Kill(h: Handle)               // proc.Kill()
    | Wait(h: Handle)               // proc.Wait()
    | Start(started: Option<Handle>) // cmd.Start(); None when it failed

  /** One value received on runch, with what the OS answers while it is handled. */
  datatype Request = Request(relaunch: bool, signalFails: bool, started: Option<Handle>)

  /**
   * The actions taken for one request by a handler holding `proc`.  A held
   * process is interrupted, killed if the interrupt fails, and waited on;
   * a start follows, last, only when the request asks for a relaunch.
   */
  function HandlerActions(proc: Option<Handle>, req: Request): (r: seq<Action>)
    ensures proc.None? ==> r == (if req.relaunch then [Start(req.started)] else [])
    ensures proc.Some? ==> |r| >= 2 && r[0] == Signal(proc.value)
    ensures proc.Some? && req.signalFails ==> r[1] == Kill(proc.value)
    ensures forall k :: 0 <= k < |r| && r[k].Kill? ==> k == 1 && proc.Some? && req.signalFails && r[k].h == proc.value
    ensures forall k :: 0 <= k < |r| && r[k].Start? ==>
              k == |r| - 1 && req.relaunch && (proc.Some? ==> r[k - 1] == Wait(proc.value))
    ensures req.relaunch ==> |r| > 0 && r[|r| - 1] == Start(req.started)
    ensures !req.relaunch && proc.Some? ==> r[|r| - 1] == Wait(proc.value)
  {
    StopActions(proc, req) + (if req.relaunch then [Start(req.started)] else [])
  }

  /** Stopping the held process: interrupt, kill when the interrupt cannot be sent, wait. */
  function StopActions(proc: Option<Handle>, req: Request): seq<Action>
  {
    if proc.None? then []
    else [Signal(proc.value)] + (if req.signalFails then [Kill(proc.value)] else []) + [Wait(proc.value)]
  }

  /** The process held after the request: the new one (nil if it failed), or the old one when not relaunching. */
  function NextProc(proc: Option<Handle>, req: Request): Option<Handle>
  {
    if req.relaunch then req.started else proc
  }

  // ---------------------------------------------------------------------
  // At most one child, and stop before start
  // ---------------------------------------------------------------------

  /** The live processes after one action: a started one is live until it is waited on. */
  ghost function LiveStep(live: set<Handle>, a: Action): set<Handle>
  {
    match a
    case Start(Some(h)) => live + {h}
    case Wait(h) => live - {h}
    case _ => live
  }

  /** The processes started and not yet waited on, after `trace` from `live`. */
  ghost function LiveAfter(live: set<Handle>, trace: seq<Action>): set<Handle>
    decreases |trace|
  {
    if trace == [] then live else LiveAfter(LiveStep(live, trace[0]), trace[1..])
  }

  ghost function Live(trace: seq<Action>): set<Handle>
  {
    LiveAfter({}, trace)
  }

  ghost function Held(proc: Option<Handle>): set<Handle>
  {
    if proc.Some? then {proc.value} else {}
  }

  /** No process is started while another one is still live. */
  ghost predicate StopBeforeStart(trace: seq<Action>)
  {
    forall k :: 0 <= k < |trace| && trace[k].Start? ==> Live(trace[..k]) == {}
  }

  lemma {:induction false} LiveAfterConcat(live: set<Handle>, a: seq<Action>, b: seq<Action>)
    ensures LiveAfter(live, a + b) == LiveAfter(LiveAfter(live, a), b)
    decreases |a|
  {
    if a != [] {
      assert (a + b)[0] == a[0] && (a + b)[1..] == a[1..] + b;
      LiveAfterConcat(LiveStep(live, a[0]), a[1..], b);
    } else {
      assert a + b == b;
    }
  }

  /** Stopping leaves no live process when only the held one was live. */
  lemma StopClearsLive(live: set<Handle>, proc: Option<Handle>, req: Request)
    requires live <= Held(proc)
    ensures LiveAfter(live, StopActions(proc, req)) == {}
    ensures forall a :: a in StopActions(proc, req) ==> !a.Start?
  {
    var stop := StopActions(proc, req);
    if proc.Some? {
      var h := proc.value;
      var l1 := LiveStep(live, Signal(h));
      if req.signalFails {
        assert stop == [Signal(h), Kill(h), Wait(h)];
        assert stop[1..] == [Kill(h), Wait(h)] && stop[1..][1..] == [Wait(h)];
        assert LiveAfter(l1, [Kill(h), Wait(h)]) == LiveAfter(LiveStep(l1, Kill(h)), [Wait(h)]);
      } else {
        assert stop == [Signal(h), Wait(h)];
        assert stop[1..] == [Wait(h)];
      }
      assert LiveAfter(l1, [Wait(h)]) == LiveAfter(LiveStep(l1, Wait(h)), []);
    }
  }

  /**
   * Handling one request keeps the handler's safety invariant: the only live
   * process is the held one (so there is at most one), and every start in the
   * trace happened when no process was live.
   */
  lemma HandlerKeepsOneLive(trace: seq<Action>, proc: Option<Handle>, req: Request)
    requires Live(trace) <= Held(proc) && StopBeforeStart(trace)
    ensures Live(trace + HandlerActions(proc, req)) <= Held(NextProc(proc, req))
    ensures StopBeforeStart(trace + HandlerActions(proc, req))
  {
    var stop := StopActions(proc, req);
    var start := if req.relaunch then [Start(req.started)] else [];
    LiveAfterConcat({}, trace, stop);
    StopClearsLive(Live(trace), proc, req);
    LiveAfterConcat({}, trace + stop, start);
    StartAfterStop(trace, stop, start);
    assert trace + HandlerActions(proc, req) == (trace + stop) + start;
  }

  /** A start appended after a stop that leaves nothing live keeps starts exclusive. */
  lemma StartAfterStop(trace: seq<Action>, stop: seq<Action>, start: seq<Action>)
    requires StopBeforeStart(trace) && Live(trace + stop) == {}
    requires forall a :: a in stop ==> !a.Start?
    requires |start| <= 1
    ensures StopBeforeStart((trace + stop) + start)
  {
    var t := (trace + stop) + start;
    forall k | 0 <= k < |t| && t[k].Start?
      ensures Live(t[..k]) == {}
    {
      if k < |trace| {
        assert t[..k] == trace[..k];
      } else if k < |trace + stop| {
        assert false;
      } else {
        assert t[..k] == trace + stop;
      }
    }
  }

  // ---------------------------------------------------------------------
  // The handler as it runs
  // ---------------------------------------------------------------------

  /** The actions of a sequence of requests and the process held at the end. */
  function Replay(proc: Option<Handle>, reqs: seq<Request>): (seq<Action>, Option<Handle>)
    decreases |reqs|
  {
    if reqs == [] then ([], proc)
    else
      var (acts, held) := Replay(proc, reqs[..|reqs| - 1]);
      var req := reqs[|reqs| - 1];
      (acts + HandlerActions(held, req), NextProc(held, req))
  }

  /** Regrouping an append, stated apart so that `Run`'s loop does not search for it. */
  lemma AppendAssoc(a: seq<Action>, b: seq<Action>, c: seq<Action>)
    ensures (a + b) + c == a + (b + c)
  {
  }

  lemma ReplayStep(proc: Option<Handle>, reqs: seq<Request>, i: nat)
    requires i < |reqs|
    ensures Replay(proc, reqs[..i + 1]).0
         == Replay(proc, reqs[..i]).0 + HandlerActions(Replay(proc, reqs[..i]).1, reqs[i])
    ensures Replay(proc, reqs[..i + 1]).1 == NextProc(Replay(proc, reqs[..i]).1, reqs[i])
  {
    assert reqs[..i + 1][..i] == reqs[..i];
  }

  /**
   * The state of `run`: the process handle and the `restarting` flag that
   * the handler and the watchdog share, and the actions taken so far.
   */
  class Runner {
    var proc: Option<Handle>
    var restarting: bool
    var trace: seq<Action>

    /** At most one live process, the held one; none was started while another was live. */
    ghost predicate Valid()
      reads this
    {
      Live(trace) <= Held(proc) && StopBeforeStart(trace)
    }

    constructor ()
      ensures Valid()
      ensures proc == None && !restarting && trace == []
    {
      proc := None;
      restarting := false;
      trace := [];
    }

    /**
     * One iteration of `for relaunch := range runch`.  `restarting` is set
     * and never cleared here: the deferred reset runs only when `run` returns.
     */
    method Handle(req: Request)
      requires Valid()
      modifies this
      ensures Valid()
      ensures trace == old(trace) + HandlerActions(old(proc), req)
      ensures proc == NextProc(old(proc), req)
      ensures restarting
    {
      HandlerKeepsOneLive(trace, proc, req);
      restarting := true;
      if proc.Some? {
        var h := proc.value;
        trace := trace + [Signal(h)];
        if req.signalFails {
          trace := trace + [Kill(h)];
        }
        trace := trace + [Wait(h)];
      }
      assert trace == old(trace) + StopActions(old(proc), req);
      if !req.relaunch {
        assert trace == old(trace) + HandlerActions(old(proc), req);
        return;
      }
      trace := trace + [Start(req.started)];
      proc := req.started;
      assert trace == old(trace) + HandlerActions(old(proc), req);
    }

    /** `for relaunch := range runch`, over the requests received so far. */
    method Run(reqs: seq<Request>)
      requires Valid()
      modifies this
      ensures Valid()
      ensures trace == old(trace) + Replay(old(proc), reqs).0
      ensures proc == Replay(old(proc), reqs).1
      ensures restarting == (old(restarting) || reqs != [])
    {
      ghost var trace0, proc0 := trace, proc;
      var i := 0;
      assert reqs[..0] == [];
      assert trace == trace0 + [];
      while i < |reqs|
        invariant 0 <= i <= |reqs|
        invariant Valid()
        invariant trace == trace0 + Replay(proc0, reqs[..i]).0
        invariant proc == Replay(proc0, reqs[..i]).1
        invariant restarting == (old(restarting) || i > 0)
      {
        ReplayStep(proc0, reqs, i);
        Handle(reqs[i]);
        AppendAssoc(trace0, Replay(proc0, reqs[..i]).0, HandlerActions(Replay(proc0, reqs[..i]).1, reqs[i]));
        i := i + 1;
      }
      assert reqs[..i] == reqs;
    }
  }
}
