/**
 * The controller of a Vim debugging session: it turns the user's commands
 * into calls on the debugger engine, keeps the session's target, process
 * and process listener, reconciles the process's queued state changes
 * with the UI, and reports to the user on standard output and standard
 * error (modelled as the lists of lines written to each).
 *
 * Python exceptions that escape a command are modelled as an `Outcome`.
 */
module LldbController {
  import opened Wrappers
  import opened Strings
  import opened States
  import opened Events
  import opened Commands
  import opened Lldb
  import opened VimUI

  /** Seconds the UI is blocked waiting for events after each kind of command. */
  const EventDelayStep := 2
  const EventDelayLaunch := 1
  const EventDelayContinue := 1

  /** What a fresh listener yields before it is bound to a process. */
  const NoScript := EventScript([], [], Invalid)

  /** The interpreter command the controller runs when it starts. */
  const StartupCommand := "settings set target.load-script-from-symbol-file false"

  datatype Outcome = Completed | Raised(reason: string)

  /** `"Attached to %s (pid=%d)"`. */
  function AttachMessage(shown: string, pid: int): string
  {
    "Attached to " + shown + " (pid=" + IntToString(pid) + ")"
  }

  /** `"Launched %s %s (pid=%d)"`. */
  function LaunchMessage(exe: string, args: string, pid: int): string
  {
    "Launched " + exe + " " + args + " (pid=" + IntToString(pid) + ")"
  }

  /** The process calls doStep makes for a step type code. */
  function StepThreadCalls(stepType: int): (r: seq<ProcessCall>)
    ensures |r| == |StepCalls(stepType)|
    ensures forall i :: 0 <= i < |r| ==> r[i] == Thread(StepCalls(stepType)[i])
  {
    if |StepCalls(stepType)| == 0 then [] else [Thread(StepCalls(stepType)[0])]
  }

  class Controller {
    var target: Option<Target>
    var process: Process?
    /** The listener of the session's process. The source never assigns
        it before the first attach or successful launch, so reading it then
        raises AttributeError; the model reads that missing attribute as
        null. */
    var processListener: Listener?
    var pid: Option<int>
    var stdout: seq<string>
    var stderr: seq<string>
    const loadDependentModules: bool
    const dbg: Debugger
    const ui: UI

    constructor (dbg: Debugger, ui: UI)
      modifies dbg
      ensures this.dbg == dbg && this.ui == ui && loadDependentModules
      ensures target == None && process == null && processListener == null && pid == None
      ensures stdout == [] && stderr == []
      ensures dbg.calls == old(dbg.calls) + [HandleCommand(StartupCommand)]
    {
      this.dbg, this.ui := dbg, ui;
      target, process, processListener, pid := None, null, null, None;
      stdout, stderr := [], [];
      loadDependentModules := true;
      new;
      var ignored := dbg.HandleCommand(StartupCommand);
    }

    /** The engine objects the session holds. */
    function Handles(): set<object>
      reads this
    {
      (if process == null then {} else {process as object})
      + (if processListener == null then {} else {processListener as object})
    }

    /** The truth value of the session's process: present and valid. */
    predicate Live()
      reads this
    {
      process != null && process.valid
    }

    /** The state the process reports once `steps` are made on it. */
    function StateAfter(steps: seq<ProcessCall>): Option<StateType>
      reads this, process
    {
      if process == null then None else Some(process.StateWith(process.calls + steps))
    }

    function ListenerScript(): EventScript
      reads this, processListener
    {
      if processListener == null then NoScript else processListener.Script()
    }

    /** What processPendingEvents(wait) would do once `steps` are made on
        the process. */
    function Pending(wait: int, steps: seq<ProcessCall>): Drained
      reads this, process, processListener
    {
      Reconcile(StateAfter(steps), processListener != null, wait, ListenerScript())
    }

    /** The UI update a notice asks for. */
    function Refreshes(n: Notice, gotoFile: bool): seq<UICall>
      reads this
    {
      match n
      case Silent => []
      case Refresh(status) => [Update(target, status, Some(gotoFile))]
    }

    /** `steps` was made on the process, then processPendingEvents(wait,
        gotoFile) ran: measured from the state before both. */
    twostate predicate PendingHandled(wait: int, gotoFile: bool, steps: seq<ProcessCall>)
      reads this, ui, process, processListener
    {
      var d := old(Pending(wait, steps));
      && process == old(process) && processListener == old(processListener)
      && ui.calls == old(ui.calls) + Refreshes(NoticeOf(old(StateAfter(steps)), d), gotoFile)
      && (processListener != null ==> processListener.Script() == d.rest)
      && (process != null ==> process.calls == old(process.calls) + steps + ContinueCalls(d.continues))
    }

    /** Neither the process nor the listener given was touched. */
    twostate predicate Untouched(p: Process?, l: Listener?)
      reads p, l
    {
      && (p != null ==> p.calls == old(p.calls))
      && (l != null ==> l.Script() == old(l.Script()))
    }

    /** The session's own fields are as they were. */
    twostate predicate Kept()
      reads this
    {
      target == old(target) && process == old(process) && processListener == old(processListener)
      && pid == old(pid) && stdout == old(stdout) && stderr == old(stderr)
    }

    /** doCommand(command, args, printOnSuccess, gotoFile), after the UI
        calls `first` made before it. */
    twostate predicate CommandRan(command: string, args: string, printOnSuccess: bool, gotoFile: bool,
                                  first: seq<UICall>)
      reads this, ui, dbg
    {
      var calls := old(dbg.calls) + [HandleCommand(CommandLine(command, args))];
      var r := dbg.reply(calls);
      && dbg.calls == calls
      && (r.succeeded ==>
            && ui.calls == old(ui.calls) + first + [Update(target, Some(""), Some(gotoFile))]
            && stdout == old(stdout) + (if printOnSuccess && r.output != "" then [r.output] else [])
            && stderr == old(stderr))
      && (!r.succeeded ==>
            && ui.calls == old(ui.calls) + first
            && stdout == old(stdout)
            && stderr == old(stderr) + [r.error])
    }

    /** doLaunch(stopAtEntry, args) ran; `prior` and `priorListener` are the
        process and listener the session held before it. */
    twostate predicate Launched(stopAtEntry: bool, args: string, o: Outcome, prior: Process?, priorListener: Listener?)
      reads this, ui, dbg, process, processListener, prior, priorListener
    {
      if old(target).None? then
        // `self.target.GetExecutable()` on None
        o == Raised("AttributeError") && Kept() && Untouched(prior, priorListener)
        && ui.calls == old(ui.calls) && dbg.calls == old(dbg.calls)
      else if old(Live() && StateTypeToStr(process.State()).Failure?) then
        o == Raised("Unknown StateType enum") && Kept() && Untouched(prior, priorListener)
        && ui.calls == old(ui.calls) && dbg.calls == old(dbg.calls)
      else
        var exe := old(target).value.executable;
        var calls := old(dbg.calls) + [EngineCall.Launch(exe, Split(args, ' '))];
        var sp := dbg.spawn(calls);
        && o == Completed && target == old(target) && dbg.calls == calls
        && (prior != null ==>
              prior.calls == old(prior.calls) + (if prior.valid then [Destroy] else []))
        && (priorListener != null ==> priorListener.Script() == old(priorListener.Script()))
        && process != null && fresh(process) && process.MadeFrom(sp)
        && (sp.error.Some? ==>
              && processListener == old(processListener) && pid == old(pid)
              && stdout == old(stdout) && stderr == old(stderr) + ["Error during launch: " + sp.error.value]
              && ui.calls == old(ui.calls) && process.calls == [])
        && (sp.error.None? ==>
              // doContinue continues only a valid process; an invalid one reports Invalid
              var steps := if stopAtEntry || !sp.valid then [] else [Continue];
              var state := process.StateWith(steps);
              var d := Reconcile(Some(state), true, EventDelayLaunch, if sp.valid then sp.events else NoScript);
              && processListener != null && fresh(processListener) && processListener.Script() == d.rest
              && pid == Some(sp.pid)
              && stdout == old(stdout) + [LaunchMessage(exe, args, sp.pid)]
              && stderr == old(stderr) + (if !stopAtEntry && !sp.valid then ["No process to continue"] else [])
              && process.calls == steps + ContinueCalls(d.continues)
              && ui.calls == old(ui.calls) + Refreshes(NoticeOf(Some(state), d), true))
    }

    /** doAttachById or doAttach ran with the attach call `request`, whose
        argument prints as `shown`. */
    twostate predicate AttachedBy(request: EngineCall, shown: string)
      reads this, ui, dbg, process, processListener
    {
      var created := old(dbg.calls) + [CreateTarget("")];
      var calls := created + [request];
      var sp := dbg.spawn(calls);
      && dbg.calls == calls
      && target == Some(Target("", dbg.targetOk(created)))
      && process != null && fresh(process) && process.MadeFrom(sp) && process.calls == []
      && processListener != null && fresh(processListener)
      && processListener.Script() == (if sp.valid then sp.events else NoScript)
      && (sp.error.Some? ==>
            && stderr == old(stderr) + ["Error during attach: " + sp.error.value]
            && pid == old(pid) && stdout == old(stdout) && ui.calls == old(ui.calls))
      && (sp.error.None? ==>
            && stderr == old(stderr) && pid == Some(sp.pid)
            && stdout == old(stdout) + [AttachMessage(shown, sp.pid)]
            && ui.calls == old(ui.calls) + [Activate])
    }

    /** `processPendingEvents(wait_seconds, goto_file)`: handle the events
        queued by the process (waiting up to `waitSeconds` when none is
        queued), continue a process that stops while attaching, and update
        the UI once if anything was handled. */
    method ProcessPendingEvents(waitSeconds: int, gotoFile: bool)
      modifies ui`calls, Handles()
      ensures PendingHandled(waitSeconds, gotoFile, [])
    {
      assert process != null ==> process.calls + [] == process.calls;
      var oldState := Invalid;
      var newState: Option<StateType> := None;
      var handled: nat := 0;
      ghost var continues: nat := 0;
      if process != null {
        oldState := process.State();
        if oldState == Invalid || oldState == Exited {
          // nothing of interest can be queued
        } else {
          var done := false;
          while !done && processListener != null
            invariant process.calls == old(process.calls) + ContinueCalls(continues)
            invariant ui.calls == old(ui.calls)
            invariant processListener == null ==> handled == 0 && newState == None && continues == 0
            invariant processListener != null && !done ==>
              DrainFrom(oldState, waitSeconds, processListener.Script(), handled, newState, continues)
                == old(Pending(waitSeconds, []))
            invariant done ==>
              processListener != null && Drained(handled, newState, continues, processListener.Script()) == old(Pending(waitSeconds, []))
            decreases if done then 0 else 1,
              if processListener == null then 0 else |processListener.arrivals|,
              if processListener == null then 0 else |processListener.queue|
          {
            var pending := processListener.PeekAtNextEvent();
            if !pending {
              if waitSeconds > 0 {
                var s := processListener.WaitForEvent(waitSeconds);
                newState := Some(s);
                handled := handled + 1;
              }
              var more := processListener.PeekAtNextEvent();
              done := !more;
            } else {
              var event := processListener.GetNextEvent();
              var s := event.value;
              newState := Some(s);
              if oldState == Attaching && s == Stopped {
                process.Continue();
                continues := continues + 1;
              }
              handled := handled + 1;
            }
          }
        }
      }
      if handled != 0 {
        var status := if Some(oldState) == newState then Some("") else None;
        ui.Update(target, status, Some(gotoFile));
      }
    }
  

    /** `doStep(stepType)`: with a live process, make the thread's stepping
        call for the step type (none for an unknown code) and handle events
        for up to EventDelayStep seconds. */
    method DoStep(stepType: int)
      modifies this`stderr, ui`calls, Handles()
      ensures !old(Live()) ==>
        stderr == old(stderr) + ["No process to step"] && ui.calls == old(ui.calls)
        && Untouched(process, processListener)
      ensures old(Live()) ==>
        stderr == old(stderr) && PendingHandled(EventDelayStep, true, StepThreadCalls(stepType))
    {
      if !Live() {
        stderr := stderr + ["No process to step"];
        return;
      }
      if stepType == 1 {
        process.StepThread(StepInstruction(false));
      }
      if stepType == 2 {
        process.StepThread(StepInstruction(true));
      } else if stepType == 3 {
        process.StepThread(StepInto);
      } else if stepType == 4 {
        process.StepThread(StepOver);
      } else if stepType == 5 {
        process.StepThread(StepOut);
      }
      assert process.calls + [] == old(process.calls) + StepThreadCalls(stepType);
      assert Pending(EventDelayStep, []) == old(Pending(EventDelayStep, StepThreadCalls(stepType)));
      ProcessPendingEvents(EventDelayStep, true);
    }

    /** `doContinue()`: resume a live process and handle events for up to
        EventDelayContinue seconds. */
    method DoContinue()
      modifies this`stderr, ui`calls, Handles()
      ensures !old(Live()) ==>
        stderr == old(stderr) + ["No process to continue"] && ui.calls == old(ui.calls)
        && Untouched(process, processListener)
      ensures old(Live()) ==>
        stderr == old(stderr) && PendingHandled(EventDelayContinue, true, [Continue])
    {
      if !Live() {
        stderr := stderr + ["No process to continue"];
        return;
      }
      process.Continue();
      assert process.calls + [] == old(process.calls) + [Continue];
      assert Pending(EventDelayContinue, []) == old(Pending(EventDelayContinue, [Continue]));
      ProcessPendingEvents(EventDelayContinue, true);
    }

    /** `doDetach()`: detach from a live process (naming its state first,
        which raises for a code outside the enumeration) and handle events. */
    method DoDetach() returns (o: Outcome)
      modifies ui`calls, Handles()
      ensures !old(Live()) ==> o == Completed && ui.calls == old(ui.calls) && Untouched(process, processListener)
      ensures old(Live() && StateTypeToStr(process.State()).Failure?) ==>
        o == Raised("Unknown StateType enum") && ui.calls == old(ui.calls) && Untouched(process, processListener)
      ensures old(Live() && StateTypeToStr(process.State()).Success?) ==>
        o == Completed && PendingHandled(EventDelayLaunch, true, [Detach])
    {
      o := Completed;
      if process != null && process.valid {
        var state := StateTypeToStr(process.State());
        if state.Failure? {
          return Raised(state.error);
        }
        process.Detach();
        assert process.calls + [] == old(process.calls) + [Detach];
        assert Pending(EventDelayLaunch, []) == old(Pending(EventDelayLaunch, [Detach]));
        ProcessPendingEvents(EventDelayLaunch, true);
      }
    }

    /** `doLaunch(stop_at_entry, args)`: destroy a live process, launch the
        target's executable with the space-separated arguments, and on
        success listen to the new process and continue it (unless stopping
        at entry) or handle its first events. */
    method DoLaunch(stopAtEntry: bool, args: string) returns (o: Outcome)
      modifies this`process, this`processListener, this`pid, this`stdout, this`stderr, ui`calls, dbg, Handles()
      ensures Launched(stopAtEntry, args, o, old(process), old(processListener))
    {
      if target.None? {
        return Raised("AttributeError");
      }
      var exe := target.value.executable;
      if process != null && process.valid {
        var state := StateTypeToStr(process.State());
        if state.Failure? {
          return Raised(state.error);
        }
        process.Destroy();
      }
      var p, error := dbg.Launch(target.value, Split(args, ' '));
      process := p;
      if error.Some? {
        stderr := stderr + ["Error during launch: " + error.value];
        return Completed;
      }
      Follow(stopAtEntry, exe, args);
      assert [] + (if stopAtEntry || !p.valid then [] else [Continue]) == (if stopAtEntry || !p.valid then [] else [Continue]);
      o := Completed;
    }

    /** The end of doLaunch once the launch reported no error: record the
        pid, listen to the new process, report it, then continue it or
        handle its first events. */
    method Follow(stopAtEntry: bool, exe: string, args: string)
      requires process != null
      modifies this`processListener, this`pid, this`stdout, this`stderr, ui`calls, process
      ensures process == old(process) && processListener != null && fresh(processListener)
      ensures var steps := if stopAtEntry || !process.valid then [] else [Continue];
        var state := process.StateWith(old(process.calls) + steps);
        var d := Reconcile(Some(state), true, EventDelayLaunch, if process.valid then process.events else NoScript);
        && processListener.Script() == d.rest
        && pid == Some(process.pid)
        && stdout == old(stdout) + [LaunchMessage(exe, args, process.pid)]
        && stderr == old(stderr) + (if !stopAtEntry && !process.valid then ["No process to continue"] else [])
        && process.calls == old(process.calls) + steps + ContinueCalls(d.continues)
        && ui.calls == old(ui.calls) + Refreshes(NoticeOf(Some(state), d), true)
    {
      pid := Some(process.pid);
      var listener := new Listener();
      processListener := listener;
      process.AddListener(listener);
      stdout := stdout + [LaunchMessage(exe, args, process.pid)];
      if !stopAtEntry {
        DoContinue();
      } else {
        ProcessPendingEvents(EventDelayLaunch, true);
      }
    }

    /** `doAttachById(process_id)`: make a fresh listener and an empty
        target, attach to the process with that id, and on success activate
        the UI and report the pid. */
    method DoAttachById(processId: int)
      modifies this`target, this`process, this`processListener, this`pid, this`stdout, this`stderr, ui`calls, dbg
      ensures AttachedBy(AttachById(processId), IntToString(processId))
    {
      var listener := new Listener();
      processListener := listener;
      var t, ignored := dbg.CreateTarget("");
      target := Some(t);
      var p, error := dbg.AttachToProcessWithID(listener, processId);
      process := p;
      if error.Some? {
        stderr := stderr + ["Error during attach: " + error.value];
        return;
      }
      ui.Activate();
      pid := Some(p.pid);
      stdout := stdout + [AttachMessage(IntToString(processId), p.pid)];
    }

    /** `doAttach(process_name)`: as doAttachById, attaching by name. */
    method DoAttach(processName: string)
      modifies this`target, this`process, this`processListener, this`pid, this`stdout, this`stderr, ui`calls, dbg
      ensures AttachedBy(AttachByName(processName), processName)
    {
      var listener := new Listener();
      processListener := listener;
      var t, ignored := dbg.CreateTarget("");
      target := Some(t);
      var p, error := dbg.AttachToProcessWithName(listener, processName);
      process := p;
      if error.Some? {
        stderr := stderr + ["Error during attach: " + error.value];
        return;
      }
      ui.Activate();
      pid := Some(p.pid);
      stdout := stdout + [AttachMessage(processName, p.pid)];
    }

    /** `doTarget(args)`: interpreter subcommands go to the interpreter;
        `create <exe>` or a lone executable name creates the target, and
        any other two-word line leaves `exe` unbound. */
    method DoTarget(args: string) returns (o: Outcome)
      modifies this`target, this`stdout, this`stderr, ui`calls, dbg
      ensures ParseTarget(args).Interpret? ==>
        o == Completed && target == old(target) && CommandRan("target", args, true, false, [])
      ensures ParseTarget(args).Unbound? ==>
        o == Raised("UnboundLocalError") && target == old(target) && dbg.calls == old(dbg.calls)
        && ui.calls == old(ui.calls) && stdout == old(stdout) && stderr == old(stderr)
      ensures ParseTarget(args).Create? ==>
        var exe := ParseTarget(args).executable;
        var calls := old(dbg.calls) + [CreateTarget(exe)];
        && o == Completed && dbg.calls == calls && stdout == old(stdout)
        && target == Some(Target(exe, dbg.targetOk(calls)))
        && (dbg.targetOk(calls) ==>
              stderr == old(stderr)
              && ui.calls == old(ui.calls) + [Activate, Update(target, Some("created target " + exe), None)])
        && (!dbg.targetOk(calls) ==>
              stderr == old(stderr) + ["Error creating target " + exe + ". " + dbg.targetError(calls)]
              && ui.calls == old(ui.calls))
    {
      match ParseTarget(args)
      case Interpret =>
        DoCommand("target", args, true, false);
        return Completed;
      case Unbound =>
        return Raised("UnboundLocalError");
      case Create(exe) =>
        var t, err := dbg.CreateTarget(exe);
        target := Some(t);
        if !t.valid {
          stderr := stderr + ["Error creating target " + exe + ". " + err];
          return Completed;
        }
        ui.Activate();
        ui.Update(target, Some("created target " + exe), None);
        return Completed;
    }

    /** `doProcess(args)`: `launch` starts the process through doLaunch,
        everything else goes to the interpreter. */
    method DoProcess(args: string) returns (o: Outcome)
      modifies this`process, this`processListener, this`pid, this`stdout, this`stderr, ui`calls, dbg, Handles()
      ensures ParseProcess(args).InterpretProcess? ==>
        o == Completed && process == old(process) && processListener == old(processListener)
        && pid == old(pid) && Untouched(process, processListener)
        && CommandRan("process", args, true, false, [])
      ensures ParseProcess(args).Launch? ==>
        Launched(ParseProcess(args).stopAtEntry, "", o, old(process), old(processListener))
    {
      match ParseProcess(args)
      case InterpretProcess =>
        DoCommand("process", args, true, false);
        return Completed;
      case Launch(stopAtEntry) =>
        o := DoLaunch(stopAtEntry, "");
    }

    /** `doSelect(command, args)`: doCommand, printing the output unless the
        first argument is `select`. */
    method DoSelect(command: string, args: string)
      modifies this`stdout, this`stderr, ui`calls, dbg
      ensures CommandRan(command, args, SelectPrintsOutput(args), true, [])
    {
      DoCommand(command, args, SelectPrintsOutput(args), true);
    }

    /** `doBreakpoint(args)`, with the file and line under Vim's cursor as
        parameters: with no arguments it toggles the breakpoint there,
        deleting the breakpoints the UI shows or setting a new one. */
    method DoBreakpoint(args: string, file: string, line: int)
      modifies this`stdout, this`stderr, ui, dbg
      ensures var ids := old(ui.GetBreakpoints(file, line));
        var toggleOff := args == "" && ids != [];
        && ui.breakpoints == (if toggleOff then old(ui.breakpoints) - {(file, line)} else old(ui.breakpoints))
        && (toggleOff ==> !ui.HaveBreakpoint(file, line))
        && CommandRan("breakpoint", BreakpointArgs(args, file, line, ids), args != "", false,
                      if toggleOff then [DeleteBreakpoints(file, line)] else [])
    {
      var showOutput := true;
      var sent := args;
      if |args| == 0 {
        showOutput := false;
        if ui.HaveBreakpoint(file, line) {
          var ids := ui.GetBreakpoints(file, line);
          sent := DeleteArgs(ids);
          ui.DeleteBreakpoints(file, line);
        } else {
          sent := SetArgs(file, line);
        }
      }
      DoCommand("breakpoint", sent, showOutput, false);
    }

    /** `doRefresh()`: handle the events already queued. */
    method DoRefresh()
      modifies ui`calls, Handles()
      ensures PendingHandled(0, true, [])
    {
      ProcessPendingEvents(0, true);
    }

    /** `doShow(name)`: no name activates the UI; otherwise a pane that
        reports a change is followed by a UI update. */
    method DoShow(name: string)
      modifies ui`calls
      ensures name == "" ==> ui.calls == old(ui.calls) + [Activate]
      ensures name != "" ==>
        ui.calls == old(ui.calls) + [ShowWindow(name)]
                    + (if ui.showResult(name) then [Update(target, Some(""), None)] else [])
    {
      if name == "" {
        ui.Activate();
        return;
      }
      var changed := ui.ShowWindow(name);
      if changed {
        ui.Update(target, Some(""), None);
      }
    }

    /** `doHide(name)`. */
    method DoHide(name: string)
      modifies ui`calls
      ensures ui.calls == old(ui.calls) + [HideWindow(name)]
                          + (if ui.hideResult(name) then [Update(target, Some(""), None)] else [])
    {
      var changed := ui.HideWindow(name);
      if changed {
        ui.Update(target, Some(""), None);
      }
    }

    /** `getCommandResult(command, args)`: run `command args` and return the
        verdict with the output on success and the error text on failure. */
    method GetCommandResult(command: string, args: string) returns (success: bool, output: string)
      modifies dbg
      ensures dbg.calls == old(dbg.calls) + [HandleCommand(CommandLine(command, args))]
      ensures success == dbg.reply(dbg.calls).succeeded
      ensures output == (if success then dbg.reply(dbg.calls).output else dbg.reply(dbg.calls).error)
    {
      var r := dbg.HandleCommand(CommandLine(command, args));
      success := r.succeeded;
      output := if r.succeeded then r.output else r.error;
    }

    /** `getCommandOutput(command, args)`: the same as getCommandResult. */
    method GetCommandOutput(command: string, args: string) returns (success: bool, output: string)
      modifies dbg
      ensures dbg.calls == old(dbg.calls) + [HandleCommand(CommandLine(command, args))]
      ensures success == dbg.reply(dbg.calls).succeeded
      ensures output == (if success then dbg.reply(dbg.calls).output else dbg.reply(dbg.calls).error)
    {
      success, output := GetCommandResult(command, args);
    }

    /** `doCommand(command, args, print_on_success, goto_file)`: run the
        command; on success update the UI and print non-empty output when
        asked, on failure write the error. */
    method DoCommand(command: string, args: string, printOnSuccess: bool, gotoFile: bool)
      modifies this`stdout, this`stderr, ui`calls, dbg
      ensures CommandRan(command, args, printOnSuccess, gotoFile, [])
    {
      var success, output := GetCommandResult(command, args);
      if success {
        ui.Update(target, Some(""), Some(gotoFile));
        if |output| > 0 && printOnSuccess {
          stdout := stdout + [output];
        }
      } else {
        stderr := stderr + [output];
      }
    }

    /** `completeCommand(a, l, p)`: the engine's completions of the line
        after its leading `L`, with the cursor moved back by one, keeping
        the non-empty ones in the engine's order. */
    method CompleteCommand(line: string, cursor: int) returns (r: Result<seq<string>, string>)
      ensures line == "" ==> r == Failure("IndexError")
      ensures line != "" && line[0] != 'L' ==> r == Failure("AssertionError")
      ensures line != "" && line[0] == 'L' ==>
        && r == Success(NonEmpty(dbg.complete(line[1..], cursor - 1)))
        && (forall c :: c in r.value <==> c in dbg.complete(line[1..], cursor - 1) && c != "")
        && (forall c :: c != "" ==> multiset(r.value)[c] == multiset(dbg.complete(line[1..], cursor - 1))[c])
    {
      var request := CompletionRequest(line, cursor);
      if request.Failure? {
        return Failure(request.error);
      }
      var candidates := dbg.complete(request.value.0, request.value.1);
      if |candidates| > 0 {
        NonEmptyKeeps(candidates);
        r := Success(NonEmpty(candidates));
      } else {
        r := Success([]);
      }
    }

    /** `returnCompleteCommand(a, l, p)`: the completions as the Vim command
        that returns them one per line. */
    method ReturnCompleteCommand(line: string, cursor: int) returns (r: Result<string, string>)
      ensures line == "" ==> r == Failure("IndexError")
      ensures line != "" && line[0] != 'L' ==> r == Failure("AssertionError")
      ensures line != "" && line[0] == 'L' ==>
        r == Success(VimReturn(NonEmpty(dbg.complete(line[1..], cursor - 1))))
    {
      var results := CompleteCommand(line, cursor);
      if results.Failure? {
        return Failure(results.error);
      }
      r := Success(VimReturn(results.value));
    }
  }
}
