/** Pulling `<` / `>` and their file operands out of the token list. */
module Redirection {
  import opened Text

  /** The clean argument list and the recorded input and output files. */
  datatype Redirect = Redirect(clean: seq<String>, input: Option<String>, output: Option<String>)

  predicate IsOperator(t: String)
  {
    t == "<" || t == ">"
  }

  /** Of two recordings of the same operator, the one further right wins. */
  function Latest(earlier: Option<String>, later: Option<String>): Option<String>
  {
    if later.Some? then later else earlier
  }

  /** Combines what a left part of the token list gave with what the rest
      gave; a missing operand anywhere in the rest fails the whole line. */
  function Then(left: Redirect, rest: Option<Redirect>): Option<Redirect>
  {
    match rest
    case None => None
    case Some(r) =>
      Some(Redirect(left.clean + r.clean, Latest(left.input, r.input), Latest(left.output, r.output)))
  }

  /** What one operator with its operand records. */
  function Single(op: String, operand: String): Redirect
  {
    if op == "<" then Redirect([], Some(operand), None) else Redirect([], None, Some(operand))
  }

  /** Reading left to right, an operator consumes the next token verbatim
      (even another operator) as its file; an operator with no token after
      it is an error (None); every other token is an argument. */
  function Extract(tokens: seq<String>): Option<Redirect>
    decreases |tokens|
  {
    if tokens == [] then Some(Redirect([], None, None))
    else if IsOperator(tokens[0]) then
      if |tokens| == 1 then None
      else Then(Single(tokens[0], tokens[1]), Extract(tokens[2..]))
    else Then(Redirect([tokens[0]], None, None), Extract(tokens[1..]))
  }

  lemma ThenEmpty(rest: Option<Redirect>)
    ensures Then(Redirect([], None, None), rest) == rest
  {
    if rest.Some? {
      assert [] + rest.value.clean == rest.value.clean;
    }
  }

  lemma ThenAssoc(a: Redirect, b: Redirect, rest: Option<Redirect>)
    ensures Then(a, Then(b, rest)) == Then(Then(a, Some(b)).value, rest)
  {
    if rest.Some? {
      assert a.clean + (b.clean + rest.value.clean) == (a.clean + b.clean) + rest.value.clean;
    }
  }

  /** The scan of the source: operators at tokens[j] look at tokens[j + 1],
      which is the NULL terminator exactly when j + 1 == count. */
  method ExtractRedirections(tokens: array<String>, count: nat) returns (r: Option<Redirect>)
    requires count <= tokens.Length
    ensures r == Extract(tokens[..count])
  {
    var input: Option<String> := None;
    var output: Option<String> := None;
    var clean: seq<String> := [];
    var j := 0;
    ThenEmpty(Extract(tokens[..count]));
    assert tokens[..count][0..] == tokens[..count];
    while j < count
      invariant j <= count
      invariant Extract(tokens[..count]) == Then(Redirect(clean, input, output), Extract(tokens[..count][j..]))
    {
      ghost var t := tokens[..count][j..];
      assert t[0] == tokens[j];
      if tokens[j] == "<" {
        if j + 1 == count {
          return None;
        }
        assert t[1] == tokens[j + 1] && t[2..] == tokens[..count][j + 2..];
        ThenAssoc(Redirect(clean, input, output), Single("<", tokens[j + 1]), Extract(t[2..]));
        input := Some(tokens[j + 1]);
        assert clean + [] == clean;
        j := j + 2;
      } else if tokens[j] == ">" {
        if j + 1 == count {
          return None;
        }
        assert t[1] == tokens[j + 1] && t[2..] == tokens[..count][j + 2..];
        ThenAssoc(Redirect(clean, input, output), Single(">", tokens[j + 1]), Extract(t[2..]));
        output := Some(tokens[j + 1]);
        assert clean + [] == clean;
        j := j + 2;
      } else {
        assert t[1..] == tokens[..count][j + 1..];
        ThenAssoc(Redirect(clean, input, output), Redirect([tokens[j]], None, None), Extract(t[1..]));
        clean := clean + [tokens[j]];
        j := j + 1;
      }
    }
    assert clean + [] == clean;
    r := Some(Redirect(clean, input, output));
  }

  /** A prefix that extracts cleanly does not affect how the rest is read. */
  lemma {:induction false} ExtractConcat(t: seq<String>, u: seq<String>)
    requires Extract(t).Some?
    ensures Extract(t + u) == Then(Extract(t).value, Extract(u))
    decreases |t|
  {
    if t == [] {
      assert t + u == u;
      ThenEmpty(Extract(u));
    } else if IsOperator(t[0]) {
      assert (t + u)[2..] == t[2..] + u;
      ExtractConcat(t[2..], u);
      ThenAssoc(Single(t[0], t[1]), Extract(t[2..]).value, Extract(u));
    } else {
      assert (t + u)[1..] == t[1..] + u;
      ExtractConcat(t[1..], u);
      ThenAssoc(Redirect([t[0]], None, None), Extract(t[1..]).value, Extract(u));
    }
  }

  /** A token that is not an operator, read after a well-formed list, is
      appended to the clean arguments and changes nothing else. */
  lemma ExtractAppendArgument(t: seq<String>, w: String)
    requires Extract(t).Some? && !IsOperator(w)
    ensures Extract(t + [w]) == Some(Extract(t).value.(clean := Extract(t).value.clean + [w]))
  {
    ExtractConcat(t, [w]);
    assert [w][1..] == [];
    assert Extract([w][1..]) == Some(Redirect([], None, None));
    assert [w] + [] == [w];
  }

  /** `< f` or `> f` read after a well-formed list records f for that
      operator, replacing any earlier file for it, and adds no argument. */
  lemma ExtractAppendRedirect(t: seq<String>, op: String, f: String)
    requires Extract(t).Some? && IsOperator(op)
    ensures var r := Extract(t).value;
      Extract(t + [op, f]) ==
        Some(if op == "<" then r.(input := Some(f)) else r.(output := Some(f)))
  {
    ExtractConcat(t, [op, f]);
    assert [op, f][2..] == [];
    assert Extract([op, f][2..]) == Some(Redirect([], None, None));
    assert [op, f][0] == op && [op, f][1] == f;
    assert Single(op, f).clean + [] == [];
    assert Extract([op, f]) == Some(Single(op, f));
    assert Extract(t).value.clean + [] == Extract(t).value.clean;
  }

  /** A trailing operator with no operand is an error. */
  lemma ExtractDanglingOperator(t: seq<String>, op: String)
    requires Extract(t).Some? && IsOperator(op)
    ensures Extract(t + [op]) == None
  {
    ExtractConcat(t, [op]);
  }

  /** With no operator token, the clean list is the whole token list and no
      file is recorded. */
  lemma {:induction false} ExtractWithoutOperators(t: seq<String>)
    requires forall i :: 0 <= i < |t| ==> !IsOperator(t[i])
    ensures Extract(t) == Some(Redirect(t, None, None))
  {
    if t != [] {
      ExtractWithoutOperators(t[1..]);
      assert [t[0]] + t[1..] == t;
    }
  }

  /** The clean list never holds an operator and is no longer than the
      token list. */
  lemma {:induction false} CleanHasNoOperators(t: seq<String>)
    requires Extract(t).Some?
    ensures |Extract(t).value.clean| <= |t|
    ensures forall i :: 0 <= i < |Extract(t).value.clean| ==> !IsOperator(Extract(t).value.clean[i])
    decreases |t|
  {
    if t != [] {
      if IsOperator(t[0]) {
        CleanHasNoOperators(t[2..]);
      } else {
        CleanHasNoOperators(t[1..]);
      }
    }
  }
}
