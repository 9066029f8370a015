/** Splitting one input line into the shell's argument tokens. */
module Tokenizer {
  import opened Text

  /** Capacity of every argument buffer of the shell; one slot is kept for
      the terminating NULL, so a buffer holds at most MAX_ARGS - 1 entries. */
  const MAX_ARGS: nat := 512

  /** A line whose first character is '#' is ignored before anything else. */
  predicate IsComment(line: String)
  {
    |line| > 0 && line[0] == '#'
  }

  /** The tokens the shell keeps for a line: the first MAX_ARGS - 1 runs of
      non-space characters. Only ' ' separates; a tab is an ordinary
      character. */
  function Tokens(line: String): seq<String>
  {
    Take(Fields(line, ' '), MAX_ARGS - 1)
  }

  /** The strtok loop that fills tokens[] index by index until strtok runs
      dry or MAX_ARGS - 1 slots are used. */
  method Tokenize(line: String, tokens: array<String>) returns (count: nat)
    requires tokens.Length == MAX_ARGS
    modifies tokens
    ensures count < MAX_ARGS
    ensures tokens[..count] == Tokens(line)
  {
    count := 0;
    var tok, pos := NextField(line, ' ', 0);
    ghost var rest := Remaining(line, tok, pos);
    assert line[0..] == line;
    while tok.Some? && count < MAX_ARGS - 1
      invariant count <= MAX_ARGS - 1 && pos <= |line|
      invariant rest == Remaining(line, tok, pos)
      invariant Fields(line, ' ') == tokens[..count] + rest
    {
      tokens[count] := tok.value;
      AppendToken(tokens[..count], tokens[..count + 1], tok.value, Fields(line[pos..], ' '));
      count := count + 1;
      tok, pos := NextField(line, ' ', pos);
      rest := Remaining(line, tok, pos);
    }
    if tok.Some? {
      TakeFull(tokens[..count], rest, MAX_ARGS - 1);
    }
  }

  /** The tokens strtok has still to hand out: the one in hand, if any,
      then those after pos. */
  ghost function Remaining(line: String, tok: Option<String>, pos: nat): seq<String>
    requires pos <= |line|
  {
    if tok.Some? then [tok.value] + Fields(line[pos..], ' ') else []
  }

  lemma AppendToken(done: seq<String>, done': seq<String>, t: String, after: seq<String>)
    requires done' == done + [t]
    ensures done + ([t] + after) == done' + after
  {
  }

  /** Every kept token is non-empty and contains no space, and at most
      MAX_ARGS - 1 are kept. */
  lemma TokensWellFormed(line: String)
    ensures |Tokens(line)| <= MAX_ARGS - 1
    ensures forall i :: 0 <= i < |Tokens(line)| ==>
      |Tokens(line)[i]| > 0 && ' ' !in Tokens(line)[i]
  {
    FieldsWellFormed(line, ' ');
  }

  /** Tokens are the maximal space-free runs of the line, in order: joining
      up to MAX_ARGS - 1 non-empty space-free words with single spaces and
      tokenizing gives the words back. */
  lemma TokensOfJoinedWords(ws: seq<String>)
    requires |ws| <= MAX_ARGS - 1
    requires forall i :: 0 <= i < |ws| ==> |ws[i]| > 0 && ' ' !in ws[i]
    ensures Tokens(JoinWith(ws, ' ')) == ws
  {
    FieldsOfJoin(ws, ' ');
  }

  /** Beyond the cap, the kept tokens are the first MAX_ARGS - 1 words. */
  lemma TokensCapped(line: String)
    requires |Fields(line, ' ')| > MAX_ARGS - 1
    ensures Tokens(line) == Fields(line, ' ')[..MAX_ARGS - 1]
  {
  }

  /** A tab does not separate tokens. */
  lemma TabIsNotSeparator()
    ensures Tokens("ls\t-l") == ["ls\t-l"]
  {
    FieldsConsWord("ls\t-l", [], ' ');
    assert "ls\t-l" + [] == "ls\t-l";
  }
}
