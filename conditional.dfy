/** The leading `and` / `or` of a line, resolved against the previous
    command's exit status. */
module Conditional {
  import opened Text

  datatype Gate =
    | Reject                    // a conditional before any command has run
    | Skip                      // the condition does not hold: the line is dropped
    | Pass(args: seq<String>)   // run these tokens

  predicate IsConditional(t: String)
  {
    t == "and" || t == "or"
  }

  /** What the shell does with a line's tokens given the previous status and
      the number of commands run so far. */
  function Resolve(tokens: seq<String>, lastStatus: int, totalCommands: nat): Gate
  {
    if |tokens| == 0 then Pass(tokens)
    else if IsConditional(tokens[0]) && totalCommands == 0 then Reject
    else if tokens[0] == "and" then (if lastStatus != 0 then Skip else Pass(tokens[1..]))
    else if tokens[0] == "or" then (if lastStatus == 0 then Skip else Pass(tokens[1..]))
    else Pass(tokens)
  }

  /** The in-place left shift that drops tokens[0] from the first count
      slots. The source also stores NULL into the freed last slot; here the
      count alone delimits the live tokens, so that slot keeps its value. */
  method ShiftOutFirst(tokens: array<String>, count: nat)
    requires 1 <= count <= tokens.Length
    modifies tokens
    ensures tokens[..count - 1] == old(tokens[1..count])
    ensures tokens[count - 1..] == old(tokens[count - 1..])
  {
    for j := 0 to count - 1
      invariant forall k :: 0 <= k < j ==> tokens[k] == old(tokens[k + 1])
      invariant forall k :: j <= k < tokens.Length ==> tokens[k] == old(tokens[k])
    {
      tokens[j] := tokens[j + 1];
    }
  }

  /** A leading `and`/`or` on the first command of a session is rejected,
      whatever the previous status. */
  lemma ConditionalFirstRejected(tokens: seq<String>, lastStatus: int)
    requires |tokens| > 0 && IsConditional(tokens[0])
    ensures Resolve(tokens, lastStatus, 0) == Reject
  {
  }

  /** Once a command has been counted, `and` after a failure and `or`
      after a success skip the line, and any other outcome of a conditional
      runs the line minus exactly its first token, the rest in order; a
      line without a conditional passes through whole, first command or
      not. */
  lemma ResolveOutcomes(tokens: seq<String>, lastStatus: int, totalCommands: nat)
    requires |tokens| > 0
    ensures tokens[0] == "and" && totalCommands > 0 ==>
      Resolve(tokens, lastStatus, totalCommands) == (if lastStatus != 0 then Skip else Pass(tokens[1..]))
    ensures tokens[0] == "or" && totalCommands > 0 ==>
      Resolve(tokens, lastStatus, totalCommands) == (if lastStatus == 0 then Skip else Pass(tokens[1..]))
    ensures !IsConditional(tokens[0]) ==> Resolve(tokens, lastStatus, totalCommands) == Pass(tokens)
  {
  }
}
