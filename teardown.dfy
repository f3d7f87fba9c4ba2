/**
 * The process teardown in the `finally` block of `handle_sse`: terminate a
 * still-running process, give it a grace period to exit, and kill it when
 * the grace period runs out.
 */
module Teardown {
  import opened Wrappers

  /** A call the cleanup makes on the process handle. */
  datatype Action = Terminate | Wait(timeout: nat) | Kill

  /** How a call to `terminate()` or `kill()` ends. */
  datatype Effect = Returns | RaisesProcessLookup | RaisesOther

  /** How `asyncio.wait_for(process.wait(), timeout=5.0)` ends. */
  datatype WaitOutcome = ExitsWithinGrace | TimesOut | WaitRaisesProcessLookup | WaitRaisesOther

  /** The grace period, in seconds, between `terminate()` and `kill()`. */
  const GracePeriod: nat := 5

  /** What the cleanup sees of a process: its return code, and how it will answer each call. */
  datatype ProcessView = ProcessView(returnCode: Option<int>, onTerminate: Effect, onWait: WaitOutcome, onKill: Effect)

  /** The calls the cleanup makes, and whether an exception leaves the `finally` block. */
  datatype Cleanup = Cleanup(actions: seq<Action>, escapes: bool)

  /**
   * The teardown decision. `process` is None when `streams` was never
   * assigned or carries no process. `terminate()` is called outside the
   * `try`, and `kill()` inside the timeout handler, so errors from those two
   * calls leave the block; errors from the wait are caught and logged.
   */
  function TeardownPlan(process: Option<ProcessView>): (c: Cleanup)
    ensures c.actions == [] <==> process.None? || process.value.returnCode.Some?
    ensures c.actions != [] ==> c.actions[0] == Terminate && multiset(c.actions)[Terminate] == 1
    ensures forall a :: a in c.actions ==> a == Terminate || a == Wait(GracePeriod) || a == Kill
    ensures Wait(GracePeriod) in c.actions <==> c.actions != [] && process.value.onTerminate == Returns
    ensures Kill in c.actions <==>
      process.Some? && process.value.returnCode.None? &&
      process.value.onTerminate == Returns && process.value.onWait == TimesOut
    ensures Kill in c.actions ==> c.actions == [Terminate, Wait(GracePeriod), Kill]
    ensures c.actions != [] && process.value.onTerminate == Returns && process.value.onWait != TimesOut ==>
      c.actions == [Terminate, Wait(GracePeriod)]
    ensures c.escapes <==>
      process.Some? && process.value.returnCode.None? &&
      (process.value.onTerminate != Returns || (process.value.onWait == TimesOut && process.value.onKill != Returns))
  {
    match process
    case None => Cleanup([], false)
    case Some(p) =>
      if p.returnCode.Some? then Cleanup([], false)
      else if p.onTerminate != Returns then Cleanup([Terminate], true)
      else if p.onWait == TimesOut then Cleanup([Terminate, Wait(GracePeriod), Kill], p.onKill != Returns)
      else Cleanup([Terminate, Wait(GracePeriod)], false)
  }

  /**
   * A subprocess handle. `received` records the calls made on it, in order;
   * the `on…` constants say how it answers them.
   */
  class Process {
    var returnCode: Option<int>
    var received: seq<Action>
    const onTerminate: Effect
    const onWait: WaitOutcome
    const onKill: Effect
    const exitCode: int

    constructor (returnCode: Option<int>, onTerminate: Effect, onWait: WaitOutcome, onKill: Effect, exitCode: int)
      ensures this.returnCode == returnCode && received == []
      ensures this.onTerminate == onTerminate && this.onWait == onWait && this.onKill == onKill && this.exitCode == exitCode
    {
      this.returnCode := returnCode;
      this.received := [];
      this.onTerminate := onTerminate;
      this.onWait := onWait;
      this.onKill := onKill;
      this.exitCode := exitCode;
    }

    function View(): ProcessView
      reads this
    {
      ProcessView(returnCode, onTerminate, onWait, onKill)
    }

    /** `process.terminate()`. */
    method Terminate() returns (e: Effect)
      modifies this
      ensures e == onTerminate && returnCode == old(returnCode)
      ensures received == old(received) + [Action.Terminate]
    {
      received := received + [Action.Terminate];
      e := onTerminate;
    }

    /** `asyncio.wait_for(process.wait(), timeout)`: a process that exits gets its return code. */
    method WaitFor(timeout: nat) returns (w: WaitOutcome)
      modifies this
      ensures w == onWait
      ensures returnCode == if w == ExitsWithinGrace then Some(exitCode) else old(returnCode)
      ensures received == old(received) + [Wait(timeout)]
    {
      received := received + [Wait(timeout)];
      w := onWait;
      if w == ExitsWithinGrace {
        returnCode := Some(exitCode);
      }
    }

    /** `process.kill()`. */
    method Kill() returns (e: Effect)
      modifies this
      ensures e == onKill && returnCode == old(returnCode)
      ensures received == old(received) + [Action.Kill]
    {
      received := received + [Action.Kill];
      e := onKill;
    }
  }

  /** The cleanup itself, acting on the handle; `escapes` says whether an exception leaves the block. */
  method TeardownProcess(process: Process?) returns (escapes: bool)
    modifies process
    ensures process != null ==>
      process.received == old(process.received) + TeardownPlan(Some(old(process.View()))).actions
    ensures process != null ==>
      process.returnCode ==
        if old(process.returnCode).None? && process.onTerminate == Returns && process.onWait == ExitsWithinGrace
        then Some(process.exitCode) else old(process.returnCode)
    ensures escapes == TeardownPlan(if process == null then None else Some(old(process.View()))).escapes
  {
    if process == null || process.returnCode.Some? {
      return false;
    }
    var t := process.Terminate();
    if t != Returns {
      // raised outside the try statement
      return true;
    }
    var w := process.WaitFor(GracePeriod);
    if w == TimesOut {
      var k := process.Kill();
      // raised inside the timeout handler, which the sibling handlers do not cover
      escapes := k != Returns;
    } else {
      // a process that exited, or an error of the wait, which is logged
      escapes := false;
    }
  }

  /** A process that ignores `terminate()` gets exactly one kill after the grace period, and the kill's success keeps the block quiet. */
  method KillAfterTimeoutExample() returns (actions: seq<Action>, escapes: bool)
    ensures actions == [Terminate, Wait(5), Kill] && !escapes
  {
    var p := new Process(None, Returns, TimesOut, Returns, -9);
    escapes := TeardownProcess(p);
    actions := p.received;
  }
}
