/**
 * The debugger engine as the controller sees it: a debugger that creates
 * targets, attaches to and launches processes and runs interpreter
 * commands; processes that are continued, stepped, detached and destroyed;
 * and listeners that queue a process's state changes.
 *
 * The engine itself is not modelled. What it answers is given by oracle
 * functions of everything it has been asked so far, and what a process
 * broadcasts is given by an event script fixed when the process is made.
 */
module Lldb {
  import opened Wrappers
  import opened States
  import opened Events

  /** A target: the executable it was made for and whether the engine
      created it (`SBTarget.IsValid`, which is also its truth value). */
  datatype Target = Target(executable: string, valid: bool)

  /** What the engine answers to an attach or a launch: whether the
      process it returns is valid, its id, the error it reports (None when
      `error.Success()`), the state it reports after any sequence of calls
      made on it, and the events it will broadcast to its listener. The
      validity of the process and the error are independent answers. */
  datatype Spawn = Spawn(valid: bool, pid: int, error: Option<string>,
                         states: seq<ProcessCall> -> StateType, events: EventScript)

  /** What the command interpreter answers: its verdict, its output and its error text. */
  datatype Reply = Reply(succeeded: bool, output: string, error: string)

  /** The calls the controller makes into the debugger. */
  datatype EngineCall =
    | HandleCommand(line: string)
    | CreateTarget(path: string)
    | AttachById(pid: int)
    | AttachByName(name: string)
    | Launch(executable: string, argv: seq<string>)

  /** The calls the controller makes on a process and its selected thread. */
  datatype ProcessCall = Continue | Detach | Destroy | Thread(call: ThreadCall)

  /** `n` Continue calls. */
  function ContinueCalls(n: nat): (r: seq<ProcessCall>)
    ensures |r| == n && forall i :: 0 <= i < n ==> r[i] == Continue
  {
    if n == 0 then [] else ContinueCalls(n - 1) + [Continue]
  }

  /** An `SBProcess`. Its state belongs to the engine, which reports it as
      a function of the calls made on the process so far. */
  class Process {
    const valid: bool
    const pid: int
    const events: EventScript
    const stateAfter: seq<ProcessCall> -> StateType
    var calls: seq<ProcessCall>

    /** `GetState()` after the calls `cs`: an invalid `SBProcess` reports
        the Invalid state. */
    function StateWith(cs: seq<ProcessCall>): StateType
    {
      if valid then stateAfter(cs) else Invalid
    }

    /** `GetState()` now. */
    function State(): StateType
      reads this
    {
      StateWith(calls)
    }

    /** The process the engine made for `s`. */
    ghost predicate MadeFrom(s: Spawn)
      reads this
    {
      valid == s.valid && pid == s.pid && events == s.events && stateAfter == s.states
    }

    constructor (s: Spawn)
      ensures MadeFrom(s) && calls == []
    {
      valid, pid, events, stateAfter := s.valid, s.pid, s.events, s.states;
      calls := [];
    }

    method Continue()
      modifies this`calls
      ensures calls == old(calls) + [ProcessCall.Continue]
    {
      calls := calls + [ProcessCall.Continue];
    }

    method Detach()
      modifies this`calls
      ensures calls == old(calls) + [ProcessCall.Detach]
    {
      calls := calls + [ProcessCall.Detach];
    }

    method Destroy()
      modifies this`calls
      ensures calls == old(calls) + [ProcessCall.Destroy]
    {
      calls := calls + [ProcessCall.Destroy];
    }

    /** A stepping primitive on the process's selected thread. */
    method StepThread(call: ThreadCall)
      modifies this`calls
      ensures calls == old(calls) + [Thread(call)]
    {
      calls := calls + [Thread(call)];
    }

    /** `GetBroadcaster().AddListener(listener, eBroadcastBitStateChanged)`:
        from now on the listener yields this process's events. The
        broadcaster of an invalid process has nothing to add it to. */
    method AddListener(listener: Listener)
      modifies listener
      ensures listener.Script() == (if valid then events else old(listener.Script()))
    {
      if valid {
        listener.Bind(events);
      }
    }
  }

  /** An `SBListener`: a FIFO queue of process states with peek, consume
      and a bounded wait. */
  class Listener {
    var queue: seq<StateType>
    var arrivals: seq<Arrival>
    var timeoutReport: StateType

    function Script(): EventScript
      reads this
    {
      EventScript(queue, arrivals, timeoutReport)
    }

    constructor ()
      ensures Script() == EventScript([], [], Invalid)
    {
      queue, arrivals, timeoutReport := [], [], Invalid;
    }

    method Bind(script: EventScript)
      modifies this
      ensures Script() == script
    {
      queue, arrivals, timeoutReport := script.queue, script.arrivals, script.timeoutReport;
    }

    /** `PeekAtNextEvent`: is an event queued? Nothing is consumed. */
    method PeekAtNextEvent() returns (pending: bool)
      ensures pending <==> queue != []
    {
      pending := queue != [];
    }

    /** `GetNextEvent`: consume the first queued event, if any. */
    method GetNextEvent() returns (state: Option<StateType>)
      modifies this`queue
      ensures old(queue) == [] ==> state == None && queue == []
      ensures old(queue) != [] ==> state == Some(old(queue)[0]) && queue == old(queue)[1..]
    {
      if queue == [] {
        state := None;
      } else {
        state := Some(queue[0]);
        queue := queue[1..];
      }
    }

    /** `WaitForEvent(seconds, event)` followed by `GetStateFromEvent`: a
        queued event is taken at once; otherwise the next arrival is taken,
        and when none comes the reported state is the engine's
        `timeoutReport`. How long the wait blocks is not modelled. */
    method WaitForEvent(seconds: int) returns (state: StateType)
      modifies this`queue, this`arrivals
      ensures old(queue) != [] ==> state == old(queue)[0] && queue == old(queue)[1..] && arrivals == old(arrivals)
      ensures old(queue) == [] && old(arrivals) == [] ==> state == timeoutReport && queue == [] && arrivals == []
      ensures old(queue) == [] && old(arrivals) != [] && old(arrivals)[0].TimedOut? ==>
        state == timeoutReport && queue == [] && arrivals == old(arrivals)[1..]
      ensures old(queue) == [] && old(arrivals) != [] && old(arrivals)[0].Delivered? ==>
        state == old(arrivals)[0].state && queue == old(arrivals)[0].burst && arrivals == old(arrivals)[1..]
    {
      if queue != [] {
        state := queue[0];
        queue := queue[1..];
      } else if arrivals == [] {
        state := timeoutReport;
      } else if arrivals[0].TimedOut? {
        state := timeoutReport;
        arrivals := arrivals[1..];
      } else {
        state := arrivals[0].state;
        queue := arrivals[0].burst;
        arrivals := arrivals[1..];
      }
    }
  }

  /** An `SBDebugger` with its command interpreter. */
  class Debugger {
    /** Every call made into the debugger, in order. */
    var calls: seq<EngineCall>
    /** The engine's answers, each a function of the calls so far (the last
        one being the call answered). */
    const targetOk: seq<EngineCall> -> bool
    const targetError: seq<EngineCall> -> string
    const spawn: seq<EngineCall> -> Spawn
    const reply: seq<EngineCall> -> Reply
    /** `HandleCompletion(line, cursor, ...)`: the candidate strings. */
    const complete: (string, int) -> seq<string>

    constructor (targetOk: seq<EngineCall> -> bool, targetError: seq<EngineCall> -> string,
                 spawn: seq<EngineCall> -> Spawn, reply: seq<EngineCall> -> Reply,
                 complete: (string, int) -> seq<string>)
      ensures calls == []
      ensures this.targetOk == targetOk && this.targetError == targetError
      ensures this.spawn == spawn && this.reply == reply && this.complete == complete
    {
      calls := [];
      this.targetOk, this.targetError := targetOk, targetError;
      this.spawn, this.reply, this.complete := spawn, reply, complete;
    }

    /** The interpreter runs one command line. */
    method HandleCommand(line: string) returns (r: Reply)
      modifies this
      ensures calls == old(calls) + [EngineCall.HandleCommand(line)]
      ensures r == reply(calls)
    {
      calls := calls + [EngineCall.HandleCommand(line)];
      r := reply(calls);
    }

    /** `CreateTarget(path, ...)`: a target that is valid or not, and the
        engine's error text. */
    method CreateTarget(path: string) returns (t: Target, error: string)
      modifies this
      ensures calls == old(calls) + [EngineCall.CreateTarget(path)]
      ensures t == Target(path, targetOk(calls)) && error == targetError(calls)
    {
      calls := calls + [EngineCall.CreateTarget(path)];
      t := Target(path, targetOk(calls));
      error := targetError(calls);
    }

    /** `AttachToProcessWithID(listener, pid, error)`: a process is returned
        even on failure, and once the process is valid the listener yields
        its events. */
    method AttachToProcessWithID(listener: Listener, pid: int) returns (p: Process, error: Option<string>)
      modifies this, listener
      ensures calls == old(calls) + [AttachById(pid)]
      ensures fresh(p) && p.MadeFrom(spawn(calls)) && p.calls == [] && error == spawn(calls).error
      ensures listener.Script() == (if spawn(calls).valid then spawn(calls).events else old(listener.Script()))
    {
      calls := calls + [AttachById(pid)];
      p := Attached(listener);
      error := spawn(calls).error;
    }

    /** `AttachToProcessWithName(listener, name, False, error)`. */
    method AttachToProcessWithName(listener: Listener, name: string) returns (p: Process, error: Option<string>)
      modifies this, listener
      ensures calls == old(calls) + [AttachByName(name)]
      ensures fresh(p) && p.MadeFrom(spawn(calls)) && p.calls == [] && error == spawn(calls).error
      ensures listener.Script() == (if spawn(calls).valid then spawn(calls).events else old(listener.Script()))
    {
      calls := calls + [AttachByName(name)];
      p := Attached(listener);
      error := spawn(calls).error;
    }

    method Attached(listener: Listener) returns (p: Process)
      modifies listener
      ensures fresh(p) && p.MadeFrom(spawn(calls)) && p.calls == []
      ensures listener.Script() == (if spawn(calls).valid then spawn(calls).events else old(listener.Script()))
    {
      p := new Process(spawn(calls));
      if p.valid {
        listener.Bind(p.events);
      }
    }

    /** `target.Launch(SBLaunchInfo(argv), error)`. */
    method Launch(t: Target, argv: seq<string>) returns (p: Process, error: Option<string>)
      modifies this
      ensures calls == old(calls) + [EngineCall.Launch(t.executable, argv)]
      ensures fresh(p) && p.MadeFrom(spawn(calls)) && p.calls == [] && error == spawn(calls).error
    {
      calls := calls + [EngineCall.Launch(t.executable, argv)];
      p := new Process(spawn(calls));
      error := spawn(calls).error;
    }
  }
}
