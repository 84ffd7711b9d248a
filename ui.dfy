/**
 * The Vim UI as an observer: the controller activates it, asks it to
 * update, asks it about the breakpoint signs it shows, and asks it to show
 * or hide panes. Its rendering is not modelled; each call is recorded.
 */
module VimUI {
  import opened Wrappers
  import opened Lldb

  datatype UICall =
    | Activate
      /** `update(target, status, controller[, goto_file])`; `gotoFile` is
          None when the argument is left to the UI's default. */
    | Update(target: Option<Target>, status: Option<string>, gotoFile: Option<bool>)
    | DeleteBreakpoints(file: string, line: int)
    | ShowWindow(name: string)
    | HideWindow(name: string)

  class UI {
    /** Every call the controller made on the UI, in order. */
    var calls: seq<UICall>
    /** The ids of the breakpoints whose signs the UI shows at (file, line). */
    var breakpoints: map<(string, int), seq<int>>
    /** Whether `showWindow(name)` / `hideWindow(name)` report a change. */
    const showResult: string -> bool
    const hideResult: string -> bool

    constructor (breakpoints: map<(string, int), seq<int>>, showResult: string -> bool, hideResult: string -> bool)
      ensures calls == [] && this.breakpoints == breakpoints
      ensures this.showResult == showResult && this.hideResult == hideResult
    {
      calls := [];
      this.breakpoints := breakpoints;
      this.showResult, this.hideResult := showResult, hideResult;
    }

    /** `haveBreakpoint(file, line)`. */
    function HaveBreakpoint(file: string, line: int): bool
      reads this
    {
      (file, line) in breakpoints && breakpoints[(file, line)] != []
    }

    /** `getBreakpoints(file, line)`, as breakpoint ids. */
    function GetBreakpoints(file: string, line: int): (ids: seq<int>)
      reads this
      ensures ids != [] <==> HaveBreakpoint(file, line)
    {
      if (file, line) in breakpoints then breakpoints[(file, line)] else []
    }

    method Activate()
      modifies this`calls
      ensures calls == old(calls) + [UICall.Activate]
    {
      calls := calls + [UICall.Activate];
    }

    method Update(target: Option<Target>, status: Option<string>, gotoFile: Option<bool>)
      modifies this`calls
      ensures calls == old(calls) + [UICall.Update(target, status, gotoFile)]
    {
      calls := calls + [UICall.Update(target, status, gotoFile)];
    }

    method DeleteBreakpoints(file: string, line: int)
      modifies this
      ensures calls == old(calls) + [UICall.DeleteBreakpoints(file, line)]
      ensures breakpoints == old(breakpoints) - {(file, line)}
      ensures !HaveBreakpoint(file, line)
    {
      calls := calls + [UICall.DeleteBreakpoints(file, line)];
      breakpoints := breakpoints - {(file, line)};
    }

    method ShowWindow(name: string) returns (changed: bool)
      modifies this`calls
      ensures calls == old(calls) + [UICall.ShowWindow(name)] && changed == showResult(name)
    {
      calls := calls + [UICall.ShowWindow(name)];
      changed := showResult(name);
    }

    method HideWindow(name: string) returns (changed: bool)
      modifies this`calls
      ensures calls == old(calls) + [UICall.HideWindow(name)] && changed == hideResult(name)
    {
      calls := calls + [UICall.HideWindow(name)];
      changed := hideResult(name);
    }
  }
}
