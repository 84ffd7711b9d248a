/**
 * The pure argument handling of the controller: how `target`, `process`,
 * `select` and `breakpoint` arguments are dispatched, the command lines
 * given to the interpreter, and the completion strings returned to Vim.
 */
module Commands {
  import opened Wrappers
  import opened Strings

  /** A first token `w` (without spaces) heads `args` exactly when `args`
      is `w` or begins with `w` and a space. */
  lemma {:induction false} FirstTokenIs(args: string, w: string)
    requires ' ' !in w
    ensures Split(args, ' ')[0] == w <==> args == w || (|args| > |w| && args[..|w| + 1] == w + " ")
  {
    var toks := Split(args, ' ');
    if args == w {
      FirstPiece(w, ' ', "");
    } else if |args| > |w| && args[..|w| + 1] == w + " " {
      assert args == w + [' '] + args[|w| + 1..];
      FirstPiece(w, ' ', args[|w| + 1..]);
    } else {
      JoinSplit(args, ' ');
      if |toks| > 1 {
        assert args == toks[0] + [' '] + Join(toks[1..], ' ');
      }
    }
  }

  // ---------------------------------------------------------------------
  // target

  /** The `target` subcommands that doTarget leaves to the interpreter
      (`create` is deliberately not one of them). */
  const TargetSubcommands: seq<string> :=
    ["delete", "list", "modules", "select", "stop-hook", "symbols", "variable"]

  /** What doTarget does with its arguments. `Unbound` is the case where
      none of its branches assigns `exe`, so using it raises. */
  datatype TargetAction = Interpret | Create(executable: string) | Unbound

  function ParseTarget(args: string): (r: TargetAction)
    ensures r.Create? ==> ' ' !in r.executable
  {
    var a := Split(args, ' ');
    if |args| == 0 || a[0] in TargetSubcommands then Interpret
    else if |a| > 1 && a[0] == "create" then Create(a[1])
    else if |a| == 1 && a[0] !in TargetSubcommands then Create(a[0])
    else Unbound
  }

  /** Empty arguments and the seven subcommands go to the interpreter. */
  lemma TargetInterpreted(args: string)
    ensures ParseTarget(args) == Interpret <==> args == "" || Split(args, ' ')[0] in TargetSubcommands
  {
  }

  /** `create X ...` creates X; anything after X is ignored. */
  lemma TargetCreateNamed(exe: string, rest: string)
    requires ' ' !in exe
    ensures ParseTarget("create " + exe) == Create(exe)
    ensures ParseTarget("create " + exe + " " + rest) == Create(exe)
  {
    SplitWithoutSep(exe, ' ');
    SplitWithoutSep("create", ' ');
    assert "create " + exe == "create" + [' '] + exe;
    SplitAround("create", ' ', exe);
    assert "create " + exe + " " + rest == "create" + [' '] + (exe + [' '] + rest);
    SplitAround("create", ' ', exe + [' '] + rest);
    SplitAround(exe, ' ', rest);
  }

  /** A single word that is not a subcommand is itself the executable,
      and that includes a lone `create`. */
  lemma TargetCreateBare(word: string)
    requires word != "" && ' ' !in word && word !in TargetSubcommands
    ensures ParseTarget(word) == Create(word)
  {
    SplitWithoutSep(word, ' ');
  }

  /** Several words whose first is neither a subcommand nor `create` leave
      `exe` unassigned. */
  lemma TargetUnbound(args: string)
    ensures ParseTarget(args) == Unbound
        <==> var a := Split(args, ' '); |a| > 1 && a[0] != "create" && a[0] !in TargetSubcommands
  {
    var a := Split(args, ' ');
    if args == "" {
      assert a == [""];
    }
  }

  // ---------------------------------------------------------------------
  // process

  /** What doProcess does: anything but `launch` goes to the interpreter;
      `launch` starts the process itself, stopping at entry exactly when
      the text `-s` occurs nowhere in the arguments. */
  datatype ProcessAction = InterpretProcess | Launch(stopAtEntry: bool)

  function ParseProcess(args: string): ProcessAction
  {
    var a := Split(args, ' ');
    if |args| == 0 || (|a| > 0 && a[0] != "launch") then InterpretProcess
    else Launch(!Contains(args, "-s"))
  }

  lemma ProcessDispatch(args: string)
    ensures ParseProcess(args).Launch? <==> args == "launch" || (|args| > 6 && args[..7] == "launch ")
    ensures ParseProcess(args).Launch? ==>
      (ParseProcess(args).stopAtEntry <==> !exists i :: OccursAt(args, "-s", i))
  {
    FirstTokenIs(args, "launch");
    ContainsOccurs(args, "-s");
  }

  // ---------------------------------------------------------------------
  // select

  /** doSelect prints a successful result unless the first word is `select`. */
  function SelectPrintsOutput(args: string): bool
  {
    "select" != Split(args, ' ')[0]
  }

  lemma SelectSuppresses(args: string)
    ensures !SelectPrintsOutput(args) <==> args == "select" || (|args| > 6 && args[..7] == "select ")
  {
    FirstTokenIs(args, "select");
  }

  // ---------------------------------------------------------------------
  // command lines and breakpoints

  /** The line given to the interpreter: `"%s %s" % (command, args)`. */
  function CommandLine(command: string, args: string): string
  {
    command + " " + args
  }

  /** The interpreter sees the command's words followed by the arguments'
      words, the arguments exactly as given. */
  lemma CommandLineWords(command: string, args: string)
    ensures Split(CommandLine(command, args), ' ') == Split(command, ' ') + Split(args, ' ')
    ensures ' ' !in command ==> CommandLine(command, args)[|command| + 1..] == args
  {
    assert CommandLine(command, args) == command + [' '] + args;
    SplitAround(command, ' ', args);
  }

  function IdStrings(ids: seq<int>): (r: seq<string>)
    ensures |r| == |ids|
    ensures forall i :: 0 <= i < |r| ==> r[i] == IntToString(ids[i])
  {
    if ids == [] then [] else [IntToString(ids[0])] + IdStrings(ids[1..])
  }

  /** `"delete %s" % " ".join(str(id) ...)`: remove every breakpoint listed. */
  function DeleteArgs(ids: seq<int>): string
  {
    "delete " + Join(IdStrings(ids), ' ')
  }

  /** `"set -f %s -l %d" % (file, line)`: a breakpoint at file and line. */
  function SetArgs(file: string, line: int): string
  {
    "set -f " + file + " -l " + IntToString(line)
  }

  /** The delete command names exactly the given breakpoint ids, in order. */
  lemma DeleteArgsNameIds(ids: seq<int>)
    requires ids != []
    ensures var words := Split(DeleteArgs(ids), ' ');
      && words == ["delete"] + IdStrings(ids)
      && forall i :: 0 <= i < |ids| ==> ParseInt(words[i + 1]) == ids[i]
  {
    var strs := IdStrings(ids);
    DeleteArgsWords(ids);
    forall i | 0 <= i < |ids| ensures ParseInt(strs[i]) == ids[i] {
      IntToStringRoundTrip(ids[i]);
    }
  }

  lemma DeleteArgsWords(ids: seq<int>)
    requires ids != []
    ensures Split(DeleteArgs(ids), ' ') == ["delete"] + IdStrings(ids)
  {
    var strs := IdStrings(ids);
    assert DeleteArgs(ids) == "delete" + [' '] + Join(strs, ' ');
    SplitAround("delete", ' ', Join(strs, ' '));
    SplitWithoutSep("delete", ' ');
    SplitJoin(strs, ' ');
  }

  /** The set command has the five words `set -f <file> -l <line>`, and the
      line reads back as the given line. */
  lemma SetArgsWords(file: string, line: int)
    requires ' ' !in file
    ensures var words := Split(SetArgs(file, line), ' ');
      && words == ["set", "-f", file, "-l", IntToString(line)]
      && ParseInt(words[4]) == line
  {
    var l := IntToString(line);
    var words := ["set", "-f", file, "-l", l];
    assert Join(words[4..], ' ') == l;
    assert Join(words[3..], ' ') == "-l " + l;
    assert Join(words[2..], ' ') == file + " -l " + l;
    assert Join(words[1..], ' ') == "-f " + file + " -l " + l;
    assert SetArgs(file, line) == Join(words, ' ');
    SplitJoin(["set", "-f", file, "-l", l], ' ');
    IntToStringRoundTrip(line);
  }

  /** The arguments doBreakpoint gives to `breakpoint`: the user's, when
      there are any; otherwise a toggle at the cursor's file and line that
      deletes the breakpoints `existing` there or sets a new one. */
  function BreakpointArgs(args: string, file: string, line: int, existing: seq<int>): string
  {
    if args != "" then args
    else if existing != [] then DeleteArgs(existing)
    else SetArgs(file, line)
  }

  /** A toggle deletes exactly the breakpoints shown at the line, and sets
      one at that file and line when none is shown. */
  lemma BreakpointToggle(file: string, line: int, existing: seq<int>)
    requires ' ' !in file
    ensures var words := Split(BreakpointArgs("", file, line, existing), ' ');
      && (existing != [] ==>
            words == ["delete"] + IdStrings(existing)
            && forall i :: 0 <= i < |existing| ==> ParseInt(words[i + 1]) == existing[i])
      && (existing == [] ==>
            words == ["set", "-f", file, "-l", IntToString(line)] && ParseInt(words[4]) == line)
  {
    if existing != [] {
      DeleteArgsNameIds(existing);
    } else {
      SetArgsWords(file, line);
    }
  }

  // ---------------------------------------------------------------------
  // completion

  /** What completeCommand hands to the engine: the line without its leading
      `L` and the cursor moved back by one. `assert l[0] == "L"` raises
      IndexError on an empty line and AssertionError on any other first
      character. */
  function CompletionRequest(line: string, cursor: int): (r: Result<(string, int), string>)
    ensures r.Success? <==> line != [] && line[0] == 'L'
    ensures r.Success? ==> line == "L" + r.value.0 && cursor == r.value.1 + 1
  {
    if line == [] then Failure("IndexError")
    else if line[0] != 'L' then Failure("AssertionError")
    else Success((line[1..], cursor - 1))
  }

  /** The candidates kept by `filter(None, ...)`: the non-empty ones. */
  function NonEmpty(candidates: seq<string>): (r: seq<string>)
    ensures |r| <= |candidates|
    ensures forall x :: x in r <==> x in candidates && x != ""
  {
    if candidates == [] then []
    else (if candidates[0] == "" then [] else [candidates[0]]) + NonEmpty(candidates[1..])
  }

  /** Filtering keeps the engine's order: it works piece by piece. */
  lemma {:induction false} NonEmptyAppend(a: seq<string>, b: seq<string>)
    ensures NonEmpty(a + b) == NonEmpty(a) + NonEmpty(b)
  {
    if a == [] {
      assert a + b == b;
    } else {
      assert (a + b)[0] == a[0] && (a + b)[1..] == a[1..] + b;
      NonEmptyAppend(a[1..], b);
    }
  }

  /** Candidates that are all non-empty are returned unchanged, and each
      non-empty candidate is kept as often as the engine offers it. */
  lemma {:induction false} NonEmptyKeeps(candidates: seq<string>)
    ensures (forall i :: 0 <= i < |candidates| ==> candidates[i] != "") ==> NonEmpty(candidates) == candidates
    ensures forall x :: x != "" ==> multiset(NonEmpty(candidates))[x] == multiset(candidates)[x]
  {
    if candidates != [] {
      NonEmptyKeeps(candidates[1..]);
      assert candidates == [candidates[0]] + candidates[1..];
    }
  }

  /** The names returnCompleteWindow offers. */
  const WindowNames: seq<string> :=
    ["breakpoints", "backtrace", "disassembly", "locals", "threads", "registers"]

  /** The Vim command the completion functions run:
      `'return "%s%s"' % ("\n".join(results), "\n")`. */
  function VimReturn(results: seq<string>): string
  {
    "return \"" + Join(results, '\n') + "\n" + "\""
  }

  /** The returned text holds the results one per line, each followed by a
      newline; no results give a lone newline. */
  lemma VimReturnLines(results: seq<string>)
    requires forall i :: 0 <= i < |results| ==> '\n' !in results[i]
    ensures var r := VimReturn(results);
      && |r| >= 10 && r[..8] == "return \"" && r[|r| - 1] == '"'
      && var payload := r[8..|r| - 1];
      && (results == [] ==> payload == "\n")
      && (results != [] ==> Split(payload, '\n') == results + [""])
  {
    var r := VimReturn(results);
    var j := Join(results, '\n');
    assert r == "return \"" + (j + "\n") + "\"";
    assert r[8..|r| - 1] == j + "\n";
    if results != [] {
      SplitAround(j, '\n', "");
      SplitJoin(results, '\n');
      assert j + "\n" == j + ['\n'] + "";
    }
  }

  /** returnCompleteWindow's text lists the six window names. */
  lemma WindowReplyLists()
    ensures var r := VimReturn(WindowNames);
      |r| >= 10 && Split(r[8..|r| - 1], '\n') == WindowNames + [""]
  {
    VimReturnLines(WindowNames);
  }
}
