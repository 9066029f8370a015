/** A line holding '|': its split into two stages, the trimming of each
    stage, and the status the shell records once the stages have run. */
module Pipeline {
  import opened Text

  /** isspace in the C locale: space, and tab, newline, vertical tab, form
      feed and carriage return, which are the codes 9 to 13. */
  predicate IsSpace(c: char)
  {
    c == ' ' || '\t' <= c <= '\r'
  }

  predicate AllSpace(s: String)
  {
    forall k :: 0 <= k < |s| ==> IsSpace(s[k])
  }

  /** The number of white-space characters at the front of s. */
  function LeadingSpaces(s: String): (n: nat)
    ensures n <= |s|
    ensures forall k :: 0 <= k < n ==> IsSpace(s[k])
    ensures n == |s| || !IsSpace(s[n])
  {
    if s == [] || !IsSpace(s[0]) then 0 else 1 + LeadingSpaces(s[1..])
  }

  /** The length of s once its trailing white space is cut. */
  function TrailingEnd(s: String): (n: nat)
    ensures n <= |s|
    ensures forall k :: n <= k < |s| ==> IsSpace(s[k])
    ensures n == 0 || !IsSpace(s[n - 1])
  {
    if s == [] || !IsSpace(s[|s| - 1]) then |s| else TrailingEnd(s[..|s| - 1])
  }

  lemma LeadingSpacesUnique(s: String, n: nat)
    requires n <= |s|
    requires forall k :: 0 <= k < n ==> IsSpace(s[k])
    requires n == |s| || !IsSpace(s[n])
    ensures LeadingSpaces(s) == n
  {
  }

  lemma TrailingEndUnique(s: String, n: nat)
    requires n <= |s|
    requires forall k :: n <= k < |s| ==> IsSpace(s[k])
    requires n == 0 || !IsSpace(s[n - 1])
    ensures TrailingEnd(s) == n
  {
  }

  /** s without its leading and trailing white space; empty when s is all
      white space. */
  function Trimmed(s: String): String
  {
    var a := LeadingSpaces(s);
    if a == |s| then []
    else
      var b := TrailingEnd(s);
      assert !IsSpace(s[a]);
      s[a..b]
  }

  /** Trimming removes only white space, from the two ends, and leaves no
      white space at either end. */
  lemma TrimmedShape(s: String)
    ensures var r := Trimmed(s);
      r == [] || (!IsSpace(r[0]) && !IsSpace(r[|r| - 1]))
    ensures var r := Trimmed(s);
      exists a :: 0 <= a <= |s| - |r| && s[a..a + |r|] == r && AllSpace(s[..a]) && AllSpace(s[a + |r|..])
  {
    var a := LeadingSpaces(s);
    if a == |s| {
      AllWhite(s);
      assert s[..|s|] == s[..|s| - |Trimmed(s)|];
    } else {
      var b := TrailingEnd(s);
      TrimmedNonEmpty(s, a, b);
      TrimmedCore(s, a, b);
      TrimmedEnds(s, a, b);
      SpacePrefix(s, a);
      SpaceSuffix(s, b);
      assert a + |Trimmed(s)| == b;
    }
  }

  lemma AllWhite(s: String)
    requires LeadingSpaces(s) == |s|
    ensures Trimmed(s) == [] && s[|s|..|s|] == [] && AllSpace(s[..|s|]) && AllSpace(s[|s|..])
  {
  }

  lemma TrimmedNonEmpty(s: String, a: nat, b: nat)
    requires a == LeadingSpaces(s) < |s| && b == TrailingEnd(s)
    ensures a < b
  {
    assert !IsSpace(s[a]);
  }

  lemma TrimmedCore(s: String, a: nat, b: nat)
    requires a == LeadingSpaces(s) < |s| && b == TrailingEnd(s) && a < b
    ensures Trimmed(s) == s[a..b]
  {
  }

  lemma TrimmedEnds(s: String, a: nat, b: nat)
    requires a == LeadingSpaces(s) < |s| && b == TrailingEnd(s) && a < b
    ensures !IsSpace(s[a]) && !IsSpace(s[b - 1])
  {
  }

  lemma SpacePrefix(s: String, a: nat)
    requires a <= |s|
    requires forall k :: 0 <= k < a ==> IsSpace(s[k])
    ensures AllSpace(s[..a])
  {
    assert forall k :: 0 <= k < a ==> s[..a][k] == s[k];
  }

  lemma SpaceSuffix(s: String, b: nat)
    requires b <= |s|
    requires forall k :: b <= k < |s| ==> IsSpace(s[k])
    ensures AllSpace(s[b..])
  {
    assert forall k :: 0 <= k < |s| - b ==> s[b..][k] == s[b + k];
  }

  /** Conversely, a word with no white space at its ends, padded on both
      sides with white space only, trims to exactly that word. */
  lemma TrimmedOfPadded(pre: String, w: String, post: String)
    requires AllSpace(pre) && AllSpace(post)
    requires w == [] || (!IsSpace(w[0]) && !IsSpace(w[|w| - 1]))
    ensures Trimmed(pre + w + post) == w
  {
    var s := pre + w + post;
    if w == [] {
      LeadingSpacesUnique(s, |s|);
    } else {
      LeadingSpacesUnique(s, |pre|);
      TrailingEndUnique(s, |pre| + |w|);
      assert s[|pre|..|pre| + |w|] == w;
    }
  }

  /** Trimming twice is trimming once. */
  lemma TrimmedIdempotent(s: String)
    ensures Trimmed(Trimmed(s)) == Trimmed(s)
  {
    TrimmedShape(s);
    var r := Trimmed(s);
    assert [] + r + [] == r;
    TrimmedOfPadded([], r, []);
  }

  /** The pointer walk of trim: skip white space from the front, stop on an
      all-white string, then step back from the last character over white
      space, never past the first kept character. */
  method Trim(s: String) returns (r: String)
    ensures r == Trimmed(s)
  {
    var start := 0;
    while start < |s| && IsSpace(s[start])
      invariant start <= |s|
      invariant forall k :: 0 <= k < start ==> IsSpace(s[k])
    {
      start := start + 1;
    }
    LeadingSpacesUnique(s, start);
    if start == |s| {
      return [];
    }
    var end := |s| - 1;
    while end > start && IsSpace(s[end])
      invariant start <= end < |s|
      invariant forall k :: end < k < |s| ==> IsSpace(s[k])
    {
      end := end - 1;
    }
    TrailingEndUnique(s, end + 1);
    r := s[start..end + 1];
  }

  /** The n-th segment strtok(input, "|") and then strtok(NULL, "|") hand
      out, or None (NULL) once the segments run out. Empty segments are
      skipped. */
  function Segment(line: String, n: nat): Option<String>
  {
    var segs := Fields(line, '|');
    if n < |segs| then Some(segs[n]) else None
  }

  /** The two stage commands, trimmed; None when either side is missing.
      A third and later segment is never looked at. */
  function Stages(line: String): Option<(String, String)>
  {
    match (Segment(line, 0), Segment(line, 1))
    case (Some(a), Some(b)) => Some((Trimmed(a), Trimmed(b)))
    case _ => None
  }

  /** The stages are the first two non-empty segments: doubled bars are
      read as one, and whatever follows a second bar is dropped. */
  lemma StagesOfSegments(line: String)
    ensures |Fields(line, '|')| >= 2 ==>
      Stages(line) == Some((Trimmed(Fields(line, '|')[0]), Trimmed(Fields(line, '|')[1])))
    ensures |Fields(line, '|')| < 2 ==> Stages(line).None?
  {
  }

  lemma {:induction false} DoubledBarIsOneBar(w: String, rest: String)
    requires |w| > 0 && '|' !in w
    ensures Fields(w + "||" + rest, '|') == Fields(w + "|" + rest, '|')
  {
    var one := ['|'] + rest;
    var two := ['|'] + one;
    assert w + "||" + rest == w + two;
    assert w + "|" + rest == w + one;
    ExtraBar(w, one, two);
  }

  lemma ExtraBar(w: String, one: String, two: String)
    requires |w| > 0 && '|' !in w
    requires one != [] && one[0] == '|' && two == ['|'] + one
    ensures Fields(w + two, '|') == Fields(w + one, '|')
  {
    FieldsConsWord(w, two, '|');
    FieldsConsWord(w, one, '|');
    assert two[1..] == one;
    LeadingBar(two);
  }

  lemma LeadingBar(s: String)
    requires s != [] && s[0] == '|'
    ensures Fields(s, '|') == Fields(s[1..], '|')
  {
  }

  /** The stage exit statuses as waitpid reports them: WEXITSTATUS keeps
      the low eight bits of the value the child passed to exit. */
  function ExitByte(code: int): (b: int)
    ensures 0 <= b < 256
    ensures 0 <= code < 256 ==> b == code
  {
    code % 256
  }

  /** The child's exit(-1) is seen as 255. */
  lemma ExitMinusOne()
    ensures ExitByte(-1) == 255
  {
  }

  /** The operating-system side of one pipeline: whether pipe() and each
      fork() succeed, and the values the two stages pass to exit. */
  datatype PipeWorld = PipeWorld(pipeOk: bool, firstForkOk: bool, secondForkOk: bool,
                                 firstExit: int, secondExit: int)

  /** The new lastStatus and how much pipeCommand itself adds to
      totalCommands. */
  datatype PipeResult = PipeResult(status: int, added: nat)

  /** Status from the two stages: the first stage is waited for first, and
      when it fails the second is killed and never consulted. */
  function StagesResult(first: int, second: int): PipeResult
  {
    if first != 0 then PipeResult(1, 0)
    else if second != 0 then PipeResult(2, 0)
    else PipeResult(0, 1)
  }

  /** What pipeCommand records, with a missing side checked before the
      sides are trimmed. */
  function PipeOutcome(line: String, pw: PipeWorld): PipeResult
  {
    if Stages(line).None? then PipeResult(1, 0)
    else if !pw.pipeOk || !pw.firstForkOk then PipeResult(1, 0)
    else if !pw.secondForkOk then PipeResult(2, 0)
    else StagesResult(ExitByte(pw.firstExit), ExitByte(pw.secondExit))
  }

  /** The status is always 0, 1 or 2, and pipeCommand counts the line
      exactly when the status is 0. */
  lemma PipeOutcomeRange(line: String, pw: PipeWorld)
    ensures PipeOutcome(line, pw).status in {0, 1, 2}
    ensures PipeOutcome(line, pw).added == (if PipeOutcome(line, pw).status == 0 then 1 else 0)
  {
  }

  /** With both stages started: a failing first stage gives 1 whatever the
      second did; a succeeding first and failing second give 2; two
      successes give 0. */
  lemma PipeOutcomeOfStages(line: String, pw: PipeWorld)
    requires Stages(line).Some? && pw.pipeOk && pw.firstForkOk && pw.secondForkOk
    ensures ExitByte(pw.firstExit) != 0 ==> PipeOutcome(line, pw) == PipeResult(1, 0)
    ensures forall e :: ExitByte(pw.firstExit) != 0 ==>
      PipeOutcome(line, pw.(secondExit := e)) == PipeOutcome(line, pw)
    ensures ExitByte(pw.firstExit) == 0 && ExitByte(pw.secondExit) != 0 ==> PipeOutcome(line, pw) == PipeResult(2, 0)
    ensures ExitByte(pw.firstExit) == 0 && ExitByte(pw.secondExit) == 0 ==> PipeOutcome(line, pw) == PipeResult(0, 1)
  {
  }

  /** A stage exiting with a multiple of 256 is read as a success. */
  lemma ExitCodeWrapsToSuccess(line: String, pw: PipeWorld)
    requires Stages(line).Some? && pw.pipeOk && pw.firstForkOk && pw.secondForkOk
    requires pw.firstExit == 256 && pw.secondExit == 0
    ensures PipeOutcome(line, pw) == PipeResult(0, 1)
  {
  }

  /** As the source is written, the two strtok results are handed to trim
      before the NULL check; this is what trim receives. */
  function TrimArgumentsAsWritten(line: String): (Option<String>, Option<String>)
  {
    (Segment(line, 0), Segment(line, 1))
  }

  /** With the missing-side check made before trimming, a line with fewer
      than two segments fails with 1, counts nothing, and no stage runs. */
  lemma MissingStageFails(line: String, pw: PipeWorld)
    requires |Fields(line, '|')| < 2
    ensures PipeOutcome(line, pw) == PipeResult(1, 0)
    ensures forall pw' :: PipeOutcome(line, pw') == PipeOutcome(line, pw)
  {
  }

  /** `ls |` has no second segment, so the source passes NULL to trim, which
      dereferences it; with the check done first the line fails with 1. */
  lemma NullReachesTrim(pw: PipeWorld)
    ensures TrimArgumentsAsWritten("ls |").1 == None
    ensures PipeOutcome("ls |", pw) == PipeResult(1, 0)
  {
    FieldsConsWord("ls ", "|", '|');
    assert "ls " + "|" == "ls |";
    assert Fields("|", '|') == Fields("|"[1..], '|');
    assert "|"[1..] == [];
  }
}
