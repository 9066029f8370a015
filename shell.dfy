/** executeCommands: one input line against the session's two variables,
    lastStatus and totalCommands. */
module Shell {
  import opened Text
  import opened Tokenizer
  import opened Conditional
  import opened Command
  import opened Pipeline
  import PathSearch

  /** The operating-system answers one line depends on: the directory
      listings wildcards read, the executability test of the command
      search, whether the redirection files open, whether chdir, getcwd and
      fork succeed, the exit value of a program once execv has started it
      (None when execv itself fails), and the pipeline's side. */
  datatype World = World(
    listDir: String -> Option<seq<String>>,
    isExecutable: String -> bool,
    canOpenInput: String -> bool,
    canOpenOutput: String -> bool,
    chdirOk: String -> bool,
    getcwdOk: bool,
    forkOk: bool,
    run: (String, seq<String>) -> Option<int>,
    pipe: PipeWorld)

  /** The session variables after a line, and the status the shell exits
      with when the line ends it. */
  datatype Outcome = Outcome(lastStatus: int, totalCommands: nat, terminate: Option<int>)

  /** The names `which` reports as built in without searching. */
  predicate IsBuiltinName(name: String)
  {
    name == "cd" || name == "pwd" || name == "which" || name == "exit" || name == "die"
  }

  /** What the child of an external command does: give up with
      EXIT_FAILURE, or execv path with argv. */
  datatype Launch = ChildFails | Exec(path: String, argv: seq<String>)

  /** The child opens the input file, then the output file, then resolves
      a command name without '/' over the search directories and puts the
      resolved path in argv[0]; a name with '/' is run as given. */
  function PlanLaunch(args: seq<String>, input: Option<String>, output: Option<String>, w: World): Launch
    requires |args| >= 1
  {
    if input.Some? && !w.canOpenInput(input.value) then ChildFails
    else if output.Some? && !w.canOpenOutput(output.value) then ChildFails
    else if '/' in args[0] then Exec(args[0], args)
    else match PathSearch.Resolve(args[0], w.isExecutable)
      case None => ChildFails
      case Some(path) => Exec(path, [path] + args[1..])
  }

  /** The status waitpid reports for the child. */
  function ChildStatus(launch: Launch, w: World): int
  {
    match launch
    case ChildFails => 1
    case Exec(path, argv) =>
      match w.run(path, argv)
      case None => 1
      case Some(code) => ExitByte(code)
  }

  function WhichStatus(args: seq<String>, w: World): int
  {
    if |args| != 2 then 1
    else if IsBuiltinName(args[1]) then 0
    else if PathSearch.Resolve(args[1], w.isExecutable).Some? then 0
    else 1
  }

  /** Running the final argument list: the built-ins first, then an
      external command. An empty list runs nothing. */
  function Dispatch(args: seq<String>, input: Option<String>, output: Option<String>,
                    lastStatus: int, totalCommands: nat, w: World): Outcome
  {
    if args == [] then Outcome(lastStatus, totalCommands, None)
    else if args[0] == "exit" then Outcome(lastStatus, totalCommands, Some(0))
    else if args[0] == "die" then Outcome(1, totalCommands, Some(1))
    else if args[0] == "cd" then
      Outcome(if |args| != 2 || !w.chdirOk(args[1]) then 1 else 0, totalCommands + 1, None)
    else if args[0] == "pwd" then Outcome(if w.getcwdOk then 0 else 1, totalCommands + 1, None)
    else if args[0] == "which" then Outcome(WhichStatus(args, w), totalCommands + 1, None)
    else if !w.forkOk then Outcome(1, totalCommands, None)
    else Outcome(ChildStatus(PlanLaunch(args, input, output, w), w), totalCommands + 1, None)
  }

  /** One line: a comment is ignored; a line holding '|' goes to the
      pipeline before anything else and is counted once more afterwards;
      any other line goes through the stages and is dispatched. */
  function Step(line: String, lastStatus: int, totalCommands: nat, w: World): Outcome
  {
    if IsComment(line) then Outcome(lastStatus, totalCommands, None)
    else if '|' in line then
      var r := PipeOutcome(line, w.pipe);
      Outcome(r.status, totalCommands + r.added + 1, None)
    else match Prepare(line, lastStatus, totalCommands, w.listDir)
      case MissingOperand => Outcome(1, totalCommands, None)
      case Ready(args, input, output) => Dispatch(args, input, output, lastStatus, totalCommands, w)
      case _ => Outcome(lastStatus, totalCommands, None)
  }

  /** A comment line changes nothing. */
  lemma StepIgnoresComment(line: String, lastStatus: int, totalCommands: nat, w: World)
    requires IsComment(line)
    ensures Step(line, lastStatus, totalCommands, w) == Outcome(lastStatus, totalCommands, None)
  {
  }

  /** A line without '|' whose tokens are stopped before dispatch (no
      tokens, a rejected or skipped conditional, only redirections) leaves
      both variables as they were; a missing redirection operand sets the
      status to 1 and counts nothing. */
  lemma StepStoppedLine(line: String, lastStatus: int, totalCommands: nat, w: World)
    requires !IsComment(line) && '|' !in line
    ensures var p := Prepare(line, lastStatus, totalCommands, w.listDir);
      (p.NoTokens? || p.Rejected? || p.Skipped? || p.NoArgs?) ==>
        Step(line, lastStatus, totalCommands, w) == Outcome(lastStatus, totalCommands, None)
    ensures Prepare(line, lastStatus, totalCommands, w.listDir).MissingOperand? ==>
      Step(line, lastStatus, totalCommands, w) == Outcome(1, totalCommands, None)
  {
  }

  /** A leading conditional on the first command is rejected with no state
      change; `and` after a failure and `or` after a success drop the line
      with no state change. */
  lemma StepConditional(line: String, lastStatus: int, totalCommands: nat, w: World)
    requires !IsComment(line) && '|' !in line
    requires Tokens(line) != [] && IsConditional(Tokens(line)[0])
    requires totalCommands == 0 ||
      (Tokens(line)[0] == "and" && lastStatus != 0) || (Tokens(line)[0] == "or" && lastStatus == 0)
    ensures Step(line, lastStatus, totalCommands, w) == Outcome(lastStatus, totalCommands, None)
  {
  }

  /** A line holding '|' is a pipeline even when it starts with a
      conditional or holds redirections: it is counted once after
      pipeCommand, and once more inside it exactly when it succeeds. */
  lemma StepPipeline(line: String, lastStatus: int, totalCommands: nat, w: World)
    requires !IsComment(line) && '|' in line
    ensures var o := Step(line, lastStatus, totalCommands, w);
      o.terminate.None? && o.lastStatus in {0, 1, 2} &&
      o.totalCommands == totalCommands + (if o.lastStatus == 0 then 2 else 1)
    ensures Step(line, lastStatus, totalCommands, w).lastStatus == PipeOutcome(line, w.pipe).status
  {
    PipeOutcomeRange(line, w.pipe);
  }

  /** `and ls | wc` as the very first line still runs as a pipeline: it
      takes the pipeline's status and is counted, not rejected. */
  lemma PipelineBeforeConditional(w: World)
    ensures var r := PipeOutcome("and ls | wc", w.pipe);
      Step("and ls | wc", 0, 0, w) == Outcome(r.status, 1 + r.added, None)
  {
    assert "and ls | wc"[7] == '|';
    StepPipeline("and ls | wc", 0, 0, w);
  }

  /** exit ends the shell with 0 and die with 1 (die recording status 1
      first); nothing is counted. */
  lemma DispatchTerminating(args: seq<String>, input: Option<String>, output: Option<String>,
                            lastStatus: int, totalCommands: nat, w: World)
    requires args != [] && (args[0] == "exit" || args[0] == "die")
    ensures var o := Dispatch(args, input, output, lastStatus, totalCommands, w);
      o.totalCommands == totalCommands &&
      (args[0] == "exit" ==> o.lastStatus == lastStatus && o.terminate == Some(0)) &&
      (args[0] == "die" ==> o.lastStatus == 1 && o.terminate == Some(1))
  {
  }

  /** cd, pwd and which each count exactly once, end with status 0 or 1
      and do not end the shell; cd and which with other than one argument
      fail. */
  lemma DispatchBuiltins(args: seq<String>, input: Option<String>, output: Option<String>,
                         lastStatus: int, totalCommands: nat, w: World)
    requires args != [] && (args[0] == "cd" || args[0] == "pwd" || args[0] == "which")
    ensures var o := Dispatch(args, input, output, lastStatus, totalCommands, w);
      o.totalCommands == totalCommands + 1 && o.terminate.None? && o.lastStatus in {0, 1}
    ensures (args[0] == "cd" || args[0] == "which") && |args| != 2 ==>
      Dispatch(args, input, output, lastStatus, totalCommands, w).lastStatus == 1
  {
  }

  /** `which` of a built-in name succeeds without consulting the search;
      of any other name it succeeds exactly when the search finds it. */
  lemma WhichStatusRule(name: String, w: World)
    ensures IsBuiltinName(name) ==>
      forall e :: WhichStatus(["which", name], w.(isExecutable := e)) == 0
    ensures !IsBuiltinName(name) ==>
      (WhichStatus(["which", name], w) == 0 <==>
        exists i :: PathSearch.FirstHitAt(PathSearch.SEARCH_DIRS, name, w.isExecutable, i))
  {
    PathSearch.FirstExecutableIsFirstHit(PathSearch.SEARCH_DIRS, name, w.isExecutable);
  }

  /** An external command: a failed fork records 1 and counts nothing;
      otherwise the child's status is recorded and the line counted once. */
  lemma DispatchExternal(args: seq<String>, input: Option<String>, output: Option<String>,
                         lastStatus: int, totalCommands: nat, w: World)
    requires args != [] && !IsBuiltinName(args[0])
    ensures !w.forkOk ==>
      Dispatch(args, input, output, lastStatus, totalCommands, w) == Outcome(1, totalCommands, None)
    ensures w.forkOk ==>
      Dispatch(args, input, output, lastStatus, totalCommands, w) ==
        Outcome(ChildStatus(PlanLaunch(args, input, output, w), w), totalCommands + 1, None)
  {
  }

  /** Once its redirection files are open, a command name without '/' is
      executed from the first search directory that holds it, with argv[0]
      replaced by that path and the other arguments kept; one that no
      directory holds fails with 1. */
  lemma LaunchResolvesName(args: seq<String>, input: Option<String>, output: Option<String>, w: World)
    requires args != [] && '/' !in args[0]
    requires input.None? || w.canOpenInput(input.value)
    requires output.None? || w.canOpenOutput(output.value)
    ensures PathSearch.Resolve(args[0], w.isExecutable).None? ==>
      ChildStatus(PlanLaunch(args, input, output, w), w) == 1
    ensures PathSearch.Resolve(args[0], w.isExecutable).Some? ==>
      var path := PathSearch.Resolve(args[0], w.isExecutable).value;
      PlanLaunch(args, input, output, w) == Exec(path, [path] + args[1..]) &&
      exists i :: PathSearch.FirstHitAt(PathSearch.SEARCH_DIRS, args[0], w.isExecutable, i) &&
        path == PathSearch.Candidate(PathSearch.SEARCH_DIRS[i], args[0])
  {
    PathSearch.FirstExecutableIsFirstHit(PathSearch.SEARCH_DIRS, args[0], w.isExecutable);
  }

  /** A redirection file that cannot be opened fails the child with 1
      before any lookup. */
  lemma LaunchNeedsFiles(args: seq<String>, input: Option<String>, output: Option<String>, w: World)
    requires args != []
    requires (input.Some? && !w.canOpenInput(input.value)) || (output.Some? && !w.canOpenOutput(output.value))
    ensures ChildStatus(PlanLaunch(args, input, output, w), w) == 1
  {
  }

  /** A line adds at most two to totalCommands and never lowers it; from a
      status in 0..255 the status stays in 0..255. */
  lemma StepBounds(line: String, lastStatus: int, totalCommands: nat, w: World)
    requires 0 <= lastStatus < 256
    ensures var o := Step(line, lastStatus, totalCommands, w);
      totalCommands <= o.totalCommands <= totalCommands + 2 && 0 <= o.lastStatus < 256
  {
    if !IsComment(line) && '|' in line {
      PipeOutcomeRange(line, w.pipe);
    } else if !IsComment(line) {
      match Prepare(line, lastStatus, totalCommands, w.listDir)
      case Ready(args, input, output) => DispatchBounds(args, input, output, lastStatus, totalCommands, w);
      case _ =>
    }
  }

  lemma DispatchBounds(args: seq<String>, input: Option<String>, output: Option<String>,
                       lastStatus: int, totalCommands: nat, w: World)
    requires 0 <= lastStatus < 256
    ensures var o := Dispatch(args, input, output, lastStatus, totalCommands, w);
      totalCommands <= o.totalCommands <= totalCommands + 1 && 0 <= o.lastStatus < 256
  {
  }

  /** The child side of an external command, up to the status its parent
      reads. */
  method RunChild(args: seq<String>, input: Option<String>, output: Option<String>, w: World)
    returns (status: int)
    requires |args| >= 1
    ensures status == ChildStatus(PlanLaunch(args, input, output, w), w)
  {
    if input.Some? && !w.canOpenInput(input.value) {
      return 1;
    }
    if output.Some? && !w.canOpenOutput(output.value) {
      return 1;
    }
    var argv := args;
    if '/' !in args[0] {
      var rc, path := PathSearch.FindPath(args[0], w.isExecutable);
      if rc != 0 {
        return 1;
      }
      argv := argv[0 := path];
      assert argv == [path] + args[1..];
    }
    match w.run(argv[0], argv)
    case None =>
      status := 1;
    case Some(code) =>
      status := ExitByte(code);
  }

  /** The shell's session state. */
  class Session {
    var lastStatus: int
    var totalCommands: nat

    constructor ()
      ensures lastStatus == 0 && totalCommands == 0
    {
      lastStatus := 0;
      totalCommands := 0;
    }

    /** executeCommands on one line; a Some result is the status the
        shell exits with. */
    method ExecuteCommands(line: String, w: World) returns (terminate: Option<int>)
      modifies this
      ensures Outcome(lastStatus, totalCommands, terminate) == Step(line, old(lastStatus), old(totalCommands), w)
    {
      terminate := None;
      if |line| > 0 && line[0] == '#' {
        return;
      }
      if '|' in line {
        PipeCommand(line, w.pipe);
        totalCommands := totalCommands + 1;
        return;
      }
      var prepared := PrepareArgs(line, lastStatus, totalCommands, w.listDir);
      match prepared
      case MissingOperand =>
        lastStatus := 1;
      case Ready(args, input, output) =>
        terminate := RunCommand(args, input, output, w);
      case _ =>
    }

    /** The built-in and external-command part of executeCommands. */
    method RunCommand(args: seq<String>, input: Option<String>, output: Option<String>, w: World)
      returns (terminate: Option<int>)
      modifies this
      ensures Outcome(lastStatus, totalCommands, terminate) ==
        Dispatch(args, input, output, old(lastStatus), old(totalCommands), w)
    {
      terminate := None;
      if |args| == 0 {
        return;
      }
      if args[0] == "exit" {
        return Some(0);
      }
      if args[0] == "die" {
        lastStatus := 1;
        return Some(1);
      }
      if args[0] == "cd" {
        if |args| != 2 {
          lastStatus := 1;
        } else if !w.chdirOk(args[1]) {
          lastStatus := 1;
        } else {
          lastStatus := 0;
        }
        totalCommands := totalCommands + 1;
        return;
      }
      if args[0] == "pwd" {
        lastStatus := if w.getcwdOk then 0 else 1;
        totalCommands := totalCommands + 1;
        return;
      }
      if args[0] == "which" {
        if |args| != 2 {
          lastStatus := 1;
        } else if IsBuiltinName(args[1]) {
          lastStatus := 0;
        } else {
          var rc, path := PathSearch.FindPath(args[1], w.isExecutable);
          lastStatus := if rc == 0 then 0 else 1;
        }
        totalCommands := totalCommands + 1;
        return;
      }
      if !w.forkOk {
        lastStatus := 1;
        return;
      }
      lastStatus := RunChild(args, input, output, w);
      totalCommands := totalCommands + 1;
    }

    /** pipeCommand, with the missing-side check made before trimming. */
    method PipeCommand(line: String, pw: PipeWorld)
      modifies this
      ensures lastStatus == PipeOutcome(line, pw).status
      ensures totalCommands == old(totalCommands) + PipeOutcome(line, pw).added
    {
      var first, next := NextField(line, '|', 0);
      var second, _ := NextField(line, '|', next);
      assert line[0..] == line;
      if first.None? || second.None? {
        lastStatus := 1;
        return;
      }
      assert Segment(line, 0) == first && Segment(line, 1) == second;
      var cmd1 := Trim(first.value);
      var cmd2 := Trim(second.value);
      assert Stages(line) == Some((cmd1, cmd2));
      if !pw.pipeOk || !pw.firstForkOk {
        lastStatus := 1;
        return;
      }
      if !pw.secondForkOk {
        lastStatus := 2;
        return;
      }
      if ExitByte(pw.firstExit) != 0 {
        lastStatus := 1;
        return;
      }
      if ExitByte(pw.secondExit) != 0 {
        lastStatus := 2;
        return;
      }
      lastStatus := 0;
      totalCommands := totalCommands + 1;
    }
  }
}
