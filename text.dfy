/** Character sequences as the shell sees them, and strtok over a
    one-character delimiter set, which both the tokenizer (delimiter ' ')
    and the pipeline splitter (delimiter '|') use. */
module Text {

  type String = seq<char>

  datatype Option<T> = None | Some(value: T)

  /** The first n elements of s, or all of s when it is shorter: what a copy
      loop guarded by a capacity check keeps. */
  function Take<T>(s: seq<T>, n: nat): seq<T>
  {
    if |s| <= n then s else s[..n]
  }

  lemma TakeFull<T>(s: seq<T>, t: seq<T>, n: nat)
    requires |Take(s, n)| == n
    ensures Take(s + t, n) == Take(s, n)
  {
    assert (s + t)[..n] == s[..n];
  }

  /** strncmp(s, p, strlen(p)) == 0 */
  predicate IsPrefix(p: String, s: String)
  {
    |p| <= |s| && s[..|p|] == p
  }

  /** s ends with x */
  predicate IsSuffix(x: String, s: String)
  {
    |x| <= |s| && s[|s| - |x|..] == x
  }

  /** Length of the run of non-separator characters at the front of s. */
  function RunEnd(s: String, sep: char): (n: nat)
    ensures n <= |s|
    ensures forall k :: 0 <= k < n ==> s[k] != sep
    ensures n == |s| || s[n] == sep
  {
    if s == [] || s[0] == sep then 0 else 1 + RunEnd(s[1..], sep)
  }

  lemma RunEndUnique(s: String, sep: char, n: nat)
    requires n <= |s|
    requires forall k :: 0 <= k < n ==> s[k] != sep
    requires n == |s| || s[n] == sep
    ensures RunEnd(s, sep) == n
  {
  }

  /** The maximal runs of non-separator characters of s, left to right:
      the tokens that strtok(s, {sep}) followed by strtok(NULL, {sep})
      calls return until it returns NULL. */
  function Fields(s: String, sep: char): seq<String>
    decreases |s|
  {
    if s == [] then []
    else if s[0] == sep then Fields(s[1..], sep)
    else [s[..RunEnd(s, sep)]] + Fields(s[RunEnd(s, sep)..], sep)
  }

  lemma FieldsSkipSeparator(s: String, i: nat, sep: char)
    requires i < |s| && s[i] == sep
    ensures Fields(s[i..], sep) == Fields(s[i + 1..], sep)
  {
    assert s[i..][1..] == s[i + 1..];
  }

  /** Every field is non-empty and free of the separator. */
  lemma {:induction false} FieldsWellFormed(s: String, sep: char)
    ensures forall i :: 0 <= i < |Fields(s, sep)| ==>
      |Fields(s, sep)[i]| > 0 && sep !in Fields(s, sep)[i]
    decreases |s|
  {
    if s == [] {
    } else if s[0] == sep {
      FieldsWellFormed(s[1..], sep);
    } else {
      var n := RunEnd(s, sep);
      FieldsWellFormed(s[n..], sep);
      assert sep !in s[..n] by {
        forall k | 0 <= k < n ensures s[..n][k] != sep { }
      }
    }
  }

  /** A separator-free word followed by nothing or by a separator is the
      first field. */
  lemma FieldsConsWord(w: String, rest: String, sep: char)
    requires |w| > 0 && sep !in w
    requires rest == [] || rest[0] == sep
    ensures Fields(w + rest, sep) == [w] + Fields(rest, sep)
  {
    var s := w + rest;
    forall k | 0 <= k < |w| ensures s[k] != sep {
      assert s[k] == w[k];
    }
    RunEndUnique(s, sep, |w|);
    assert s[..|w|] == w;
    assert s[|w|..] == rest;
  }

  lemma FieldsAt(s: String, i: nat, j: nat, sep: char)
    requires i < j <= |s|
    requires forall k :: i <= k < j ==> s[k] != sep
    requires j == |s| || s[j] == sep
    ensures Fields(s[i..], sep) == [s[i..j]] + Fields(s[j..], sep)
  {
    assert s[i..] == s[i..j] + s[j..];
    assert sep !in s[i..j] by {
      forall k | 0 <= k < j - i ensures s[i..j][k] != sep {
        assert s[i..j][k] == s[i + k];
      }
    }
    FieldsConsWord(s[i..j], s[j..], sep);
  }

  /** The words joined with one separator between each pair. */
  function JoinWith(ws: seq<String>, sep: char): String
  {
    if ws == [] then []
    else if |ws| == 1 then ws[0]
    else ws[0] + [sep] + JoinWith(ws[1..], sep)
  }

  /** Splitting undoes joining, for words that are non-empty and
      separator-free. */
  lemma {:induction false} FieldsOfJoin(ws: seq<String>, sep: char)
    requires forall i :: 0 <= i < |ws| ==> |ws[i]| > 0 && sep !in ws[i]
    ensures Fields(JoinWith(ws, sep), sep) == ws
  {
    if ws == [] {
    } else if |ws| == 1 {
      FieldsConsWord(ws[0], [], sep);
      assert ws[0] + [] == ws[0];
    } else {
      var rest := [sep] + JoinWith(ws[1..], sep);
      assert JoinWith(ws, sep) == ws[0] + rest;
      FieldsConsWord(ws[0], rest, sep);
      assert rest[1..] == JoinWith(ws[1..], sep);
      FieldsOfJoin(ws[1..], sep);
    }
  }

  /** The concatenation of a sequence of strings. */
  function Concat(ws: seq<String>): String
  {
    if ws == [] then [] else ws[0] + Concat(ws[1..])
  }

  /** s with every occurrence of sep deleted. */
  function Without(s: String, sep: char): String
  {
    if s == [] then [] else (if s[0] == sep then [] else [s[0]]) + Without(s[1..], sep)
  }

  lemma {:induction false} WithoutRun(s: String, sep: char, n: nat)
    requires n <= |s|
    requires forall k :: 0 <= k < n ==> s[k] != sep
    ensures Without(s, sep) == s[..n] + Without(s[n..], sep)
  {
    if n > 0 {
      WithoutRun(s[1..], sep, n - 1);
      assert s[1..][n - 1..] == s[n..];
      assert [s[0]] + s[1..][..n - 1] == s[..n];
    }
  }

  /** No character other than a separator is lost or reordered: the fields
      concatenated are s with its separators deleted. */
  lemma {:induction false} FieldsKeepEveryOtherCharacter(s: String, sep: char)
    ensures Concat(Fields(s, sep)) == Without(s, sep)
    decreases |s|
  {
    if s == [] {
    } else if s[0] == sep {
      FieldsKeepEveryOtherCharacter(s[1..], sep);
    } else {
      var n := RunEnd(s, sep);
      FieldsKeepEveryOtherCharacter(s[n..], sep);
      WithoutRun(s, sep, n);
    }
  }

  lemma FieldsOfEnd(s: String, sep: char)
    ensures Fields(s[|s|..], sep) == []
  {
    assert s[|s|..] == [];
  }

  /** A run ended by a separator or by the end of s is the next field, and
      the fields after it start past that separator. */
  lemma FieldsNext(s: String, i: nat, j: nat, sep: char)
    requires i < j <= |s|
    requires forall k :: i <= k < j ==> s[k] != sep
    requires j == |s| || s[j] == sep
    ensures Fields(s[i..], sep) == [s[i..j]] + Fields(s[if j < |s| then j + 1 else j..], sep)
  {
    FieldsAt(s, i, j, sep);
    if j < |s| {
      FieldsSkipSeparator(s, j, sep);
    }
  }

  /** strtok's skip over leading delimiters. */
  method SkipSeparators(s: String, sep: char, from: nat) returns (i: nat)
    requires from <= |s|
    ensures from <= i <= |s| && (i == |s| || s[i] != sep)
    ensures Fields(s[i..], sep) == Fields(s[from..], sep)
  {
    i := from;
    while i < |s| && s[i] == sep
      invariant from <= i <= |s|
      invariant Fields(s[i..], sep) == Fields(s[from..], sep)
    {
      FieldsSkipSeparator(s, i, sep);
      i := i + 1;
    }
  }

  /** strtok's scan to the end of a token. */
  method ScanRun(s: String, sep: char, i: nat) returns (j: nat)
    requires i <= |s|
    ensures i <= j <= |s| && (j == |s| || s[j] == sep)
    ensures forall k :: i <= k < j ==> s[k] != sep
  {
    j := i;
    while j < |s| && s[j] != sep
      invariant i <= j <= |s|
      invariant forall k :: i <= k < j ==> s[k] != sep
    {
      j := j + 1;
    }
  }

  /** One strtok call with the delimiter set {sep}, resuming at index from:
      it skips separators and returns the next run of non-separators, or
      None once only separators remain; next is where the following call
      resumes (just past the separator that ended the run). */
  method NextField(s: String, sep: char, from: nat) returns (tok: Option<String>, next: nat)
    requires from <= |s|
    ensures from <= next <= |s|
    ensures tok.None? ==> Fields(s[from..], sep) == []
    ensures tok.Some? ==> Fields(s[from..], sep) == [tok.value] + Fields(s[next..], sep)
  {
    var i := SkipSeparators(s, sep, from);
    if i == |s| {
      FieldsOfEnd(s, sep);
      return None, i;
    }
    var j := ScanRun(s, sep, i);
    tok := Some(s[i..j]);
    next := if j < |s| then j + 1 else j;
    FieldsNext(s, i, j, sep);
  }
}
