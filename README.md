# vim-lldb debugger-session controller, modelled in Dafny

This project models `LLDBController` of vim-lldb. The controller sits between the Vim editor
and the LLDB debugger engine. It turns editor commands (`:Lstep`, `:Lcontinue`, `:Lbreakpoint`,
`:Ltarget`, …) into engine calls. It keeps the session's target, process, process listener
and pid. After `doStep`, `doContinue`, `doDetach`, a successful `doLaunch` (also reached
through `doProcess launch`) and `doRefresh` it drains the process's queued state changes.
The drain auto-continues a process that stops while attaching, and it asks the UI for
exactly one refresh when anything was handled. The other commands (`doSelect`, `doAttach`,
`doTarget`, `doBreakpoint`, `doShow`, `doHide`, `doCommand`, …) never drain.

The project has these files:

- `strings.dfy`: the Python string behaviour the controller relies on (`str.split`,
  `sep.join`, `%d`, `in`).
- `states.dfy`: `state_type_to_str` over the engine's integer state codes, and `StepType`.
- `events.dfy`: the event-drain loop as a function of what the listener yields, with
  closed forms and the properties of `processPendingEvents`.
- `commands.dfy`: argument dispatch and the command strings of `doTarget`, `doProcess`,
  `doSelect`, `doBreakpoint` and `getCommandResult`, and the completion strings.
- `engine.dfy`: the engine the controller calls, as classes (`Debugger`, `Process`,
  `Listener`). Their answers come from oracle functions of the calls made so far, except
  completions, which depend on the line and cursor only.
- `ui.dfy`: the Vim UI as an observer class that records every call.
- `controller.dfy`: the `Controller` class. Each command is a method that updates the
  session's fields, and `ProcessPendingEvents` is a loop proved against `Events.Reconcile`.

Python exceptions that escape a command are results (`Outcome.Raised`):

- the `AttributeError` of `doLaunch` without a target;
- the `UnboundLocalError` of `doTarget`;
- the exception `state_type_to_str` raises for an unknown code, which reaches `doDetach`
  and `doLaunch`.

Whatever a command writes to standard output or standard error is appended to the lists
`stdout` and `stderr`.

`not self.process` and `not self.target` are read as LLDB's Python bindings define them.
An `SB*` handle is false when it is `None` or not valid. `doTarget` (lines 270-274) depends
on this reading: `CreateTarget` never returns `None`, and its failure is detected by
`not self.target`. Under the same reading the guard of `doStep` (line 127) rejects a present
but invalid process, just like the guard of `doContinue`. `DoStep` is modelled that way and
does not treat the guard as a check for `None` only.

A process's state is the engine's report after the calls made on that process so far
(its Continue, Detach, Destroy and thread steps). The drain after `doStep`, `doContinue`
and `doDetach` therefore reads the state that follows the step, the Continue or the
detach (line 394). An invalid process reports the Invalid state, as `SBProcess.GetState`
does, so the drain never handles its events. Whether a launch or attach reports an error
and whether the process it returns is valid are two independent engine answers; a
listener is bound only to a valid process.

## Model

| member | source | states |
|---|---|---|
| States.StateTypeToStr | python-vim-lldb/lldb_controller.py:18-46 | A name is returned exactly for the twelve LLDB state codes. Any other code fails with "Unknown StateType enum". Each name reads back as its code, so no default name exists. |
| States.StateNamesDistinct | python-vim-lldb/lldb_controller.py:18-46 | Two different states get two different names. |
| States.StateNamesLowercase | python-vim-lldb/lldb_controller.py:18-46 | Every state name is a non-empty lower-case word. |
| States.StateNameIsCanonical | python-vim-lldb/lldb_controller.py:18-46 | Any string that reads back as a state is exactly that state's name. |
| States.StepCalls | python-vim-lldb/lldb_controller.py:130-141 | Step codes 1..5 give exactly one thread primitive, and every other code gives none. Each StepType kind gives its own primitive: INSTRUCTION gives StepInstruction(False) and INSTRUCTION_OVER gives StepInstruction(True). |
| States.PrimitivesDistinct | python-vim-lldb/lldb_controller.py:49-54 | The five step kinds have distinct codes and select distinct primitives. |
| Strings.Split | python-vim-lldb/lldb_controller.py:148 | `str.split(" ")` returns at least one piece, and no piece contains the separator. |
| Strings.JoinSplit | python-vim-lldb/lldb_controller.py:148 | Joining the pieces of a split gives back the original string. |
| Strings.SplitJoin | python-vim-lldb/lldb_controller.py:312 | Splitting a join of separator-free pieces gives back the pieces. |
| Strings.SplitAround | python-vim-lldb/lldb_controller.py:352 | A split of `x + sep + y` is the split of x followed by the split of y. |
| Strings.IntToStringRoundTrip | python-vim-lldb/lldb_controller.py:315 | `%d` / `str(int)` text reads back as the same integer. |
| Strings.ContainsOccurs | python-vim-lldb/lldb_controller.py:161 | `pat in s` holds exactly when pat occurs at some index of s. |
| Events.QueueFirst | python-vim-lldb/lldb_controller.py:398-422 | Events already queued are consumed first and in order, whatever the wait budget. Each is counted, the last one is remembered, and each Stopped event counts one Continue when the drain began in Attaching. |
| Events.NoWaitDrain | python-vim-lldb/lldb_controller.py:398-422 | With no wait budget, the drain handles exactly the queued events and nothing else. |
| Events.WaitingDrainFrom | python-vim-lldb/lldb_controller.py:400-422 | With a wait budget and an empty queue, every wait counts as handled, even one that times out. The drain keeps waiting while arrivals bring more events, and only events consumed from the queue, never waited-for ones, cause a Continue. |
| Events.WaitingDrain | python-vim-lldb/lldb_controller.py:398-422 | The closed form of a drain that may wait: how many events it handles, how many Continues it issues, and what is left on the listener. |
| Events.DrainIdle | python-vim-lldb/lldb_controller.py:400-409 | A drain handles nothing exactly when it may not wait and nothing is queued. A drain that may wait always handles at least one event. |
| Events.DrainContinuesOnlyAfterAttach | python-vim-lldb/lldb_controller.py:394-420 | Only a drain whose old state is Attaching continues the process, and it never continues more often than it handles events. |
| Events.DrainFrom | python-vim-lldb/lldb_controller.py:398-422 | The loop from any point: the count of handled events never drops, each handled event adds at most one Continue, and whenever an event was handled a new state was read. A loop that handles nothing leaves the listener and the last state as they were. |
| Events.Drain | python-vim-lldb/lldb_controller.py:394-422 | A whole drain continues the process at most once per handled event. It has read a state exactly when it handled an event, and it leaves the listener untouched when it handled nothing. `Events.QueueFirst` and `Events.WaitingDrain` give its closed form. |
| Events.Reconcile | python-vim-lldb/lldb_controller.py:389-422 | The same bounds as `Drain`, for the whole of `processPendingEvents`' bookkeeping, including the early exits. `Events.ReconcileSilent` states when it handles nothing. |
| Events.NoticeOf | python-vim-lldb/lldb_controller.py:424-432 | No contract of its own: `Events.ReconcileSilent` states when it is silent and `Events.ReconcileStatus` states its status. |
| Events.ReconcileSilent | python-vim-lldb/lldb_controller.py:389-428 | No UI update happens exactly when one of these holds: there is no process; the old state is Invalid or Exited; there is no listener; or no wait is allowed and nothing is queued. |
| Events.ReconcileStatus | python-vim-lldb/lldb_controller.py:427-432 | When the UI is updated, the status is "" exactly when the last state read equals the old state, and None otherwise. |
| Commands.FirstTokenIs | python-vim-lldb/lldb_controller.py:148-149 | The first token of `args.split(" ")` is w exactly when args is w, or starts with w followed by a space. |
| Commands.ParseTarget | python-vim-lldb/lldb_controller.py:249-268 | The executable doTarget creates never contains a space. |
| Commands.TargetInterpreted | python-vim-lldb/lldb_controller.py:259-262 | Empty arguments, and a first token in the seven-word list, go to the interpreter. |
| Commands.TargetCreateNamed | python-vim-lldb/lldb_controller.py:263-264 | `create X ...` creates X, and whatever follows X is ignored. |
| Commands.TargetCreateBare | python-vim-lldb/lldb_controller.py:265-266 | A single word outside the list is itself the executable. This includes a lone `create`. |
| Commands.TargetUnbound | python-vim-lldb/lldb_controller.py:259-268 | `exe` is left unbound exactly for several words whose first word is neither in the list nor `create`. |
| Commands.ParseProcess | python-vim-lldb/lldb_controller.py:156-161 | No contract of its own: `Commands.ProcessDispatch` states its dispatch. |
| Commands.SelectPrintsOutput | python-vim-lldb/lldb_controller.py:148-149 | No contract of its own: `Commands.SelectSuppresses` states when it is false. |
| Commands.CommandLine | python-vim-lldb/lldb_controller.py:352 | No contract of its own: `Commands.CommandLineWords` states its words. |
| Commands.IdStrings | python-vim-lldb/lldb_controller.py:312 | One decimal string per breakpoint id, in the ids' order. |
| Commands.DeleteArgs | python-vim-lldb/lldb_controller.py:310-312 | No contract of its own: `Commands.DeleteArgsNameIds` and `Commands.DeleteArgsWords` state its words. |
| Commands.SetArgs | python-vim-lldb/lldb_controller.py:315 | No contract of its own: `Commands.SetArgsWords` states its words. |
| Commands.BreakpointArgs | python-vim-lldb/lldb_controller.py:298-315 | No contract of its own: `Commands.BreakpointToggle` states which command a toggle sends. |
| Commands.VimReturn | python-vim-lldb/lldb_controller.py:435-442 | No contract of its own: `Commands.VimReturnLines` states its lines. |
| Commands.ProcessDispatch | python-vim-lldb/lldb_controller.py:156-161 | `process` launches exactly when the first token is `launch`. It then stops at entry exactly when `-s` occurs nowhere in the arguments. |
| Commands.SelectSuppresses | python-vim-lldb/lldb_controller.py:148-149 | Success output is suppressed exactly when the first token is `select`. |
| Commands.CommandLineWords | python-vim-lldb/lldb_controller.py:352 | The interpreter's line holds the command's words followed by the arguments' words, and the arguments appear verbatim after the command and one space. |
| Commands.DeleteArgsNameIds | python-vim-lldb/lldb_controller.py:310-312 | The delete command is `delete` followed by the given breakpoint ids, in order, one word each, and each word reads back as its id. |
| Commands.SetArgsWords | python-vim-lldb/lldb_controller.py:315 | The set command is the five words `set -f <file> -l <line>`, and the line reads back as the given line. |
| Commands.BreakpointToggle | python-vim-lldb/lldb_controller.py:298-315 | A toggle deletes exactly the breakpoints shown at the line, and sets one at that file and line when none is shown. |
| Commands.CompletionRequest | python-vim-lldb/lldb_controller.py:93-100 | The request succeeds exactly when the line starts with `L`. The engine then gets the line without exactly that `L`, and the cursor minus one. Otherwise the request fails with IndexError (empty line) or AssertionError. |
| Commands.NonEmpty | python-vim-lldb/lldb_controller.py:110-114 | `filter(None, ...)` keeps exactly the non-empty candidates. |
| Commands.NonEmptyAppend | python-vim-lldb/lldb_controller.py:110-114 | Filtering works piece by piece, so the engine's order is kept. |
| Commands.NonEmptyKeeps | python-vim-lldb/lldb_controller.py:110-116 | Non-empty candidates are kept as often as the engine offers them. A list with no empty candidate comes back unchanged. |
| Commands.VimReturnLines | python-vim-lldb/lldb_controller.py:435-442 | The Vim command returns the results one per line, each followed by a newline. No results give a lone newline. |
| Commands.WindowReplyLists | python-vim-lldb/lldb_controller.py:445-460 | returnCompleteWindow returns the six window names, one per line. |
| Lldb.Listener.PeekAtNextEvent | python-vim-lldb/lldb_controller.py:400 | Reports whether an event is queued, and consumes nothing. |
| Lldb.Listener.GetNextEvent | python-vim-lldb/lldb_controller.py:412-414 | Consumes the first queued event and yields its state. |
| Lldb.Listener.WaitForEvent | python-vim-lldb/lldb_controller.py:404-407 | Takes a queued event, else the next arrival, else times out. After a timeout it yields the engine-defined state. |
| Lldb.Process.AddListener | python-vim-lldb/lldb_controller.py:230-232 | From then on, the listener yields the process's state changes. |
| VimUI.UI.DeleteBreakpoints | python-vim-lldb/lldb_controller.py:313 | After the call, the UI shows no breakpoint at that file and line, and nothing else changes. |
| LldbController.AttachMessage | python-vim-lldb/lldb_controller.py:180 | No contract of its own: the contracts of `DoAttachById` and `DoAttach` state when it is printed. |
| LldbController.LaunchMessage | python-vim-lldb/lldb_controller.py:234 | No contract of its own: the contract of `DoLaunch` states when it is printed. |
| LldbController.StepThreadCalls | python-vim-lldb/lldb_controller.py:130-141 | The thread calls of a step are exactly the primitives `States.StepCalls` selects, in order: one for codes 1..5 and none otherwise. |
| LldbController.Controller.constructor | python-vim-lldb/lldb_controller.py:73-86 | Starts with no target, no process and no listener. Loading dependent modules is on, and exactly one interpreter command turns off scripts loaded from symbol files. |
| LldbController.Controller.ProcessPendingEvents | python-vim-lldb/lldb_controller.py:382-432 | The effect equals `Events.Reconcile` of the process's current state, listener and wait budget. That covers the listener left over, one Continue per auto-continue, the old state read once, and at most one UI update, with its status and goto_file. |
| LldbController.Controller.DoStep | python-vim-lldb/lldb_controller.py:118-143 | Without a live process it writes "No process to step" and touches nothing else. Otherwise it makes the thread calls of `StepCalls`, then drains for 2 seconds with goto_file set, starting from the state the process reports after the step. |
| LldbController.Controller.DoContinue | python-vim-lldb/lldb_controller.py:279-290 | Without a live process it writes "No process to continue", issues no Continue and does not drain. Otherwise it issues exactly one Continue, then drains for 1 second from the state reported after that Continue. |
| LldbController.Controller.DoDetach | python-vim-lldb/lldb_controller.py:201-207 | It does nothing without a live process. It raises for an unknown state code. Otherwise it detaches once, then drains for 1 second from the state reported after the detach. |
| LldbController.Controller.DoLaunch | python-vim-lldb/lldb_controller.py:209-239 | It raises AttributeError without a target, and raises for a live process in an unknown state. Otherwise it destroys a live old process and launches with the space-split arguments. The process is stored before the error check. On an error it writes the error and keeps the old listener and pid. Otherwise it stores the pid and a new listener, bound only to a valid process, and prints the launch line. Unless stopping at entry it then continues a valid process and drains from the state reported after that Continue, or writes "No process to continue" for an invalid one. At entry it drains from the state reported now. An invalid process reports Invalid, so nothing is handled for it. |
| LldbController.Controller.Follow | python-vim-lldb/lldb_controller.py:227-239 | After a launch without an error, the new listener is bound to a valid process and the message is printed. When not stopping at entry, a valid process gets exactly one Continue before the drain's own Continues, and the drain starts from the state reported after it. An invalid process gets "No process to continue" and no Continue. |
| LldbController.Controller.DoAttachById | python-vim-lldb/lldb_controller.py:163-180 | It assigns a fresh listener, an empty target and the new process before the error check. The listener is bound only when the new process is valid. On an error it writes "Error during attach: …". Otherwise it activates the UI, stores the pid and prints "Attached to N (pid=P)". It does not drain. |
| LldbController.Controller.DoAttach | python-vim-lldb/lldb_controller.py:182-199 | The same as DoAttachById, attaching by process name. |
| LldbController.Controller.DoTarget | python-vim-lldb/lldb_controller.py:241-277 | It follows the dispatch of `ParseTarget`. Creation overwrites the target even when it fails. A failed creation writes the error, with no activate and no update. A successful one activates the UI and updates it with "created target X". An unbound `exe` raises and changes nothing. |
| LldbController.Controller.DoProcess | python-vim-lldb/lldb_controller.py:151-161 | `launch` runs DoLaunch with empty arguments, stopping at entry exactly when there is no `-s`. Anything else runs `process …` in the interpreter, printing on success and without goto_file. |
| LldbController.Controller.DoSelect | python-vim-lldb/lldb_controller.py:145-149 | Runs the command with goto_file set, printing on success exactly when the first argument is not `select`. |
| LldbController.Controller.DoBreakpoint | python-vim-lldb/lldb_controller.py:292-320 | With no arguments it toggles the breakpoint at the cursor's file and line without printing. A shown breakpoint is deleted from the UI and `delete <ids>` is sent; otherwise `set -f … -l …` is sent. Given arguments are sent verbatim and the output is printed. |
| LldbController.Controller.DoRefresh | python-vim-lldb/lldb_controller.py:322-325 | Drains the queued events only, with goto_file set. |
| LldbController.Controller.DoShow | python-vim-lldb/lldb_controller.py:327-335 | With no name it activates the UI. Otherwise it shows the pane, and updates the UI exactly when the pane reports a change. |
| LldbController.Controller.DoHide | python-vim-lldb/lldb_controller.py:337-341 | Hides the pane, and updates the UI exactly when the pane reports a change. |
| LldbController.Controller.GetCommandResult | python-vim-lldb/lldb_controller.py:348-358 | Sends `command + " " + args` once. It returns the verdict, with the output on success and the error text on failure. |
| LldbController.Controller.GetCommandOutput | python-vim-lldb/lldb_controller.py:371-380 | The same as GetCommandResult. |
| LldbController.Controller.DoCommand | python-vim-lldb/lldb_controller.py:360-369 | On success it updates the UI with status "" and the given goto_file, and prints non-empty output when asked. On failure it writes the error text and does not update the UI. |
| LldbController.Controller.CompleteCommand | python-vim-lldb/lldb_controller.py:89-116 | For a line starting with `L` it succeeds, and returns the engine's completions of the rest of the line, with the cursor minus one, in the engine's order and without the empty candidates. Each non-empty candidate is kept as often as offered. The empty line raises IndexError, and any other line raises AssertionError. |
| LldbController.Controller.ReturnCompleteCommand | python-vim-lldb/lldb_controller.py:435-442 | For a line starting with `L` it succeeds with the Vim return command of exactly those completions, in the engine's order. The empty line raises IndexError, and any other line raises AssertionError. |

## Left out

- The LLDB engine is not modelled. Targets, attaches, launches and command replies are answers of oracle functions of all the engine calls made so far. Completions are a function of the line and the cursor only, and a completion request is not recorded among the engine calls. A process's state is an oracle function of the calls made on that process; the events its listener yields are fixed when the process is made and do not depend on those calls.
- LldbController.Controller.ProcessPendingEvents: the source never assigns `processListener` before the first attach or launch without an error, so reading it raises AttributeError. The model reads the missing attribute as no listener, so a drain that reaches the loop condition first (after a failed first launch whose process reports neither Invalid nor Exited) drains nothing instead of raising.
- The timing of `WaitForEvent` is not modelled. A wait takes the next scripted arrival, or times out after all arrivals are used. Events that arrive between two peeks appear only as the burst queued behind an arrival. The state read after a timeout is an abstract engine value.
- The Vim UI's rendering is not modelled. `vim.current.window`/`buffer` are the `file` and `line` parameters of `DoBreakpoint`, and `vim.command` is the string the completion members return.
- `print` ends a line and `sys.stderr.write` does not. Both are modelled as appending one entry to `stdout` or `stderr`. Logging is left out.
- LldbController.Controller.DoLaunch: the executable in the launch message is the path the target was created with. The model does not capture how `os.path.join` rebuilds it from the executable's directory and file name, nor the error when the directory is missing.
- LldbController.Controller.DoAttachById: takes the id as an integer and prints it in decimal. The `int(process_id)` conversion of the Vim argument, and its ValueError, are not modelled.
- LldbController.Controller.CompleteCommand: takes the cursor as an integer, so the `int(p)` conversion is not modelled. The unused command argument `a` is dropped. The no-op branches for completion codes -1 and -2 have no effect and are left out.
- Lldb.Debugger.CreateTarget: the call records only the path. The platform, triple and `load_dependent_modules` arguments do not influence the model.
- `doExit` is left out because it only terminates the engine. The module-level singleton `ctrl` and `plugin.py` are left out because they hold no logic.
