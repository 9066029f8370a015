/** The stages every command line goes through before it is run:
    tokenize, resolve a leading conditional, pull out redirections and
    expand wildcards. executeCommands runs them on a whole line, getArgs
    on each side of a pipeline. */
module Command {
  import opened Text
  import opened Tokenizer
  import opened Conditional
  import opened Redirection
  import opened Wildcard

  /** Where a line stops, or what it leaves to run. */
  datatype Prepared =
    | NoTokens                  // the line holds only spaces
    | Rejected                  // a conditional before any command has run
    | Skipped                   // the conditional does not hold
    | MissingOperand            // `<` or `>` ends the line
    | NoArgs                    // only redirections were given
    | Ready(args: seq<String>, input: Option<String>, output: Option<String>)

  function Prepare(line: String, lastStatus: int, totalCommands: nat,
                   listDir: String -> Option<seq<String>>): Prepared
  {
    var tokens := Tokens(line);
    if tokens == [] then NoTokens
    else match Resolve(tokens, lastStatus, totalCommands)
      case Reject => Rejected
      case Skip => Skipped
      case Pass(rest) => Finish(rest, listDir)
  }

  /** The stages after the conditional: redirections, then wildcards. */
  function Finish(rest: seq<String>, listDir: String -> Option<seq<String>>): Prepared
  {
    match Extract(rest)
    case None => MissingOperand
    case Some(r) =>
      if r.clean == [] then NoArgs
      else Ready(Take(Expansions(r.clean, listDir), MAX_ARGS - 1), r.input, r.output)
  }

  /** The stages in the order the source runs them, on a token buffer of
      MAX_ARGS slots. */
  method PrepareArgs(line: String, lastStatus: int, totalCommands: nat,
                     listDir: String -> Option<seq<String>>) returns (r: Prepared)
    ensures r == Prepare(line, lastStatus, totalCommands, listDir)
  {
    var tokens := new String[MAX_ARGS];
    var count := Tokenize(line, tokens);
    if count == 0 {
      return NoTokens;
    }
    ghost var toks := tokens[..count];
    assert tokens[0] == toks[0];
    if IsConditional(tokens[0]) && totalCommands == 0 {
      return Rejected;
    }
    if tokens[0] == "and" || tokens[0] == "or" {
      if (tokens[0] == "and" && lastStatus != 0) || (tokens[0] == "or" && lastStatus == 0) {
        return Skipped;
      }
      ShiftOutFirst(tokens, count);
      count := count - 1;
    }
    assert Resolve(toks, lastStatus, totalCommands) == Pass(tokens[..count]);
    r := FinishArgs(tokens, count, listDir);
  }

  /** Redirections and wildcards on the first count slots. */
  method FinishArgs(tokens: array<String>, count: nat, listDir: String -> Option<seq<String>>)
    returns (r: Prepared)
    requires count <= tokens.Length
    ensures r == Finish(tokens[..count], listDir)
  {
    var red := ExtractRedirections(tokens, count);
    if red.None? {
      return MissingOperand;
    }
    if red.value.clean == [] {
      return NoArgs;
    }
    var finalArgs := ExpandArgs(red.value.clean, listDir);
    r := Ready(finalArgs, red.value.input, red.value.output);
  }

  /** What reaches the command: between 1 and MAX_ARGS - 1 arguments, so
      the source's check for an empty argument list never fires. */
  lemma {:induction false} ReadyArgsBounded(line: String, lastStatus: int, totalCommands: nat,
                                            listDir: String -> Option<seq<String>>)
    requires Prepare(line, lastStatus, totalCommands, listDir).Ready?
    ensures 1 <= |Prepare(line, lastStatus, totalCommands, listDir).args| <= MAX_ARGS - 1
  {
    var tokens := Tokens(line);
    var rest := Resolve(tokens, lastStatus, totalCommands).args;
    var clean := Extract(rest).value.clean;
    assert Prepare(line, lastStatus, totalCommands, listDir).args == Take(Expansions(clean, listDir), MAX_ARGS - 1);
    ExpansionsNotShorter(clean, listDir);
  }

  /** The redirection files and the arguments reaching the command: with no
      operator and no '*' among the tokens, a line that is not a
      conditional runs its tokens as given. */
  lemma PlainLineRunsItsTokens(line: String, lastStatus: int, totalCommands: nat,
                               listDir: String -> Option<seq<String>>)
    requires Tokens(line) != [] && !IsConditional(Tokens(line)[0])
    requires forall i :: 0 <= i < |Tokens(line)| ==> !IsOperator(Tokens(line)[i]) && '*' !in Tokens(line)[i]
    ensures Prepare(line, lastStatus, totalCommands, listDir) == Ready(Tokens(line), None, None)
  {
    var tokens := Tokens(line);
    ExtractWithoutOperators(tokens);
    TokensWellFormed(line);
    PrepareOfPlainTokens(line, tokens, Redirect(tokens, None, None), lastStatus, totalCommands, listDir);
  }

  /** How Prepare reads a line whose tokens are known, start with no
      conditional and extract to a clean list without '*'. */
  lemma {:induction false} PrepareOfPlainTokens(line: String, ws: seq<String>, r: Redirect, lastStatus: int,
                                                totalCommands: nat, listDir: String -> Option<seq<String>>)
    requires Tokens(line) == ws && ws != [] && !IsConditional(ws[0])
    requires Extract(ws) == Some(r) && r.clean != []
    requires |r.clean| <= MAX_ARGS - 1
    requires forall i :: 0 <= i < |r.clean| ==> '*' !in r.clean[i]
    ensures Prepare(line, lastStatus, totalCommands, listDir) == Ready(r.clean, r.input, r.output)
  {
    assert Resolve(ws, lastStatus, totalCommands) == Pass(ws);
    FinishOfPlain(ws, r, listDir);
  }

  lemma FinishOfPlain(ws: seq<String>, r: Redirect, listDir: String -> Option<seq<String>>)
    requires Extract(ws) == Some(r) && r.clean != []
    requires |r.clean| <= MAX_ARGS - 1
    requires forall i :: 0 <= i < |r.clean| ==> '*' !in r.clean[i]
    ensures Finish(ws, listDir) == Ready(r.clean, r.input, r.output)
  {
    ExpansionsIdentity(r.clean, listDir);
  }

  /** The argument list getArgs hands to a pipeline stage: the same stages
      as a whole line, with the redirections dropped; None when it returns
      before filling the list. */
  function StageArgs(command: String, lastStatus: int, totalCommands: nat,
                     listDir: String -> Option<seq<String>>): Option<seq<String>>
  {
    match Prepare(command, lastStatus, totalCommands, listDir)
    case Ready(args, _, _) => Some(args)
    case _ => None
  }

  /** getArgs: run the stages and copy the argument list out. */
  method GetArgs(command: String, lastStatus: int, totalCommands: nat,
                 listDir: String -> Option<seq<String>>) returns (fArgs: Option<seq<String>>)
    ensures fArgs == StageArgs(command, lastStatus, totalCommands, listDir)
    ensures fArgs.Some? ==> 1 <= |fArgs.value| <= MAX_ARGS - 1
  {
    var r := PrepareArgs(command, lastStatus, totalCommands, listDir);
    if r.Ready? {
      ReadyArgsBounded(command, lastStatus, totalCommands, listDir);
      fArgs := Some(r.args);
    } else {
      fArgs := None;
    }
  }

  /** A command of plain words followed by one redirection, such as
      `ls -l > out`: the operator and its file leave the argument list and
      the file is recorded for that operator; a pipeline stage gets the
      same words with the file dropped. */
  lemma RedirectedPlainCommand(line: String, clean: seq<String>, op: String, f: String, lastStatus: int,
                               totalCommands: nat, listDir: String -> Option<seq<String>>)
    requires Tokens(line) == clean + [op, f] && IsOperator(op)
    requires clean != [] && !IsConditional(clean[0])
    requires forall i :: 0 <= i < |clean| ==> !IsOperator(clean[i]) && '*' !in clean[i]
    ensures Prepare(line, lastStatus, totalCommands, listDir) ==
      Ready(clean, if op == "<" then Some(f) else None, if op == ">" then Some(f) else None)
    ensures StageArgs(line, lastStatus, totalCommands, listDir) == Some(clean)
  {
    TokensWellFormed(line);
    ExtractWithoutOperators(clean);
    ExtractAppendRedirect(clean, op, f);
    var r := Redirect(clean, if op == "<" then Some(f) else None, if op == ">" then Some(f) else None);
    assert (clean + [op, f])[0] == clean[0];
    PrepareOfPlainTokens(line, clean + [op, f], r, lastStatus, totalCommands, listDir);
  }
}
