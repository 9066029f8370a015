/** Expansion of an argument holding a `*` against a directory listing.
    The listing is an input: listDir(d) is None when directory d cannot be
    opened, else the entry names in the order the directory yields them. */
module Wildcard {
  import opened Text
  import opened Tokenizer

  /** strchr: the index of the first c in s. */
  function FirstIndex(s: String, c: char): (r: Option<nat>)
    ensures r.None? <==> c !in s
    ensures r.Some? ==> r.value < |s| && s[r.value] == c && c !in s[..r.value]
  {
    if s == [] then None
    else if s[0] == c then Some(0)
    else match FirstIndex(s[1..], c)
      case None => None
      case Some(i) => assert s[..i + 1] == [s[0]] + s[1..][..i]; Some(i + 1)
  }

  /** strrchr: the index of the last c in s. */
  function LastIndex(s: String, c: char): (r: Option<nat>)
    ensures r.None? <==> c !in s
    ensures r.Some? ==> r.value < |s| && s[r.value] == c && c !in s[r.value + 1..]
  {
    if s == [] then None
    else if s[|s| - 1] == c then Some(|s| - 1)
    else
      var init := s[..|s| - 1];
      assert s == init + [s[|s| - 1]];
      match LastIndex(init, c)
      case None => None
      case Some(i) =>
        assert s[i + 1..] == init[i + 1..] + [s[|s| - 1]];
        Some(i)
  }

  /** The directory a token's wildcard is matched in: the text before the
      last '/', or "." when there is none. */
  function DirectoryOf(token: String): String
  {
    match LastIndex(token, '/')
    case None => "."
    case Some(i) => token[..i]
  }

  /** The text after the last '/' (the whole token when there is none). */
  function BaseOf(token: String): String
  {
    match LastIndex(token, '/')
    case None => token
    case Some(i) => token[i + 1..]
  }

  /** A wildcard token taken apart: the directory and whether the token
      named one, and the base split at its first '*'. */
  datatype Pattern = Pattern(hasSlash: bool, directory: String, prefix: String, suffix: String)

  function SplitPattern(token: String): Option<Pattern>
  {
    var base := BaseOf(token);
    match FirstIndex(base, '*')
    case None => None
    case Some(a) => Some(Pattern('/' in token, DirectoryOf(token), base[..a], base[a + 1..]))
  }

  /** The base a pattern was split from. */
  function BaseGlob(p: Pattern): String
  {
    p.prefix + "*" + p.suffix
  }

  /** The token a pattern was split from. */
  function Rebuild(p: Pattern): String
  {
    if p.hasSlash then p.directory + "/" + BaseGlob(p) else BaseGlob(p)
  }

  /** The base is the slash-free tail of the token; when it is not the whole
      token, a '/' precedes it and the directory is everything before that. */
  lemma {:induction false} BaseOfIsTail(token: String)
    ensures IsSuffix(BaseOf(token), token) && '/' !in BaseOf(token)
    ensures '/' !in token ==> BaseOf(token) == token && DirectoryOf(token) == "."
    ensures '/' in token ==>
      |BaseOf(token)| < |token| &&
      token == DirectoryOf(token) + "/" + BaseOf(token)
  {
    match LastIndex(token, '/')
    case None =>
    case Some(i) =>
      assert token == token[..i] + "/" + token[i + 1..];
  }

  lemma NotInSlices(s: String, c: char, a: nat)
    requires c !in s && a <= |s|
    ensures c !in s[..a] && c !in s[a..]
  {
    assert s == s[..a] + s[a..];
  }

  /** Splitting then rebuilding gives the token back; the prefix holds no
      '*' and neither prefix nor suffix holds a '/'. */
  lemma {:induction false} SplitPatternShape(token: String)
    requires SplitPattern(token).Some?
    ensures var p := SplitPattern(token).value;
      Rebuild(p) == token && '/' !in p.prefix && '*' !in p.prefix && '/' !in p.suffix &&
      (!p.hasSlash ==> p.directory == ".")
  {
    var base := BaseOf(token);
    var a := FirstIndex(base, '*').value;
    var p := SplitPattern(token).value;
    assert BaseGlob(p) == base by {
      assert p.prefix == base[..a] && p.suffix == base[a + 1..];
      assert base[..a] + "*" + base[a + 1..] == base;
    }
    BaseOfIsTail(token);
    if '/' in token {
      assert p.directory == DirectoryOf(token);
    }
    NotInSlices(base, '/', a);
    NotInSlices(base, '/', a + 1);
  }

  lemma FirstIndexUnique(s: String, c: char, i: nat)
    requires i < |s| && s[i] == c && c !in s[..i]
    ensures FirstIndex(s, c) == Some(i)
  {
  }

  lemma LastIndexUnique(s: String, c: char, i: nat)
    requires i < |s| && s[i] == c && c !in s[i + 1..]
    ensures LastIndex(s, c) == Some(i)
  {
  }

  /** A well-formed pattern is split back into itself: the split is the only
      one with a slash-free base and a star-free prefix. */
  lemma {:induction false} SplitPatternOfRebuild(p: Pattern)
    requires '/' !in p.prefix && '*' !in p.prefix && '/' !in p.suffix
    requires !p.hasSlash ==> p.directory == "."
    ensures SplitPattern(Rebuild(p)) == Some(p)
  {
    var base := BaseGlob(p);
    var t := Rebuild(p);
    assert '/' !in base;
    if p.hasSlash {
      var i := |p.directory|;
      assert t[i] == '/' && t[i + 1..] == base && t[..i] == p.directory;
      LastIndexUnique(t, '/', i);
      assert '/' in t;
    } else {
      assert '/' !in t;
    }
    assert BaseOf(t) == base;
    var a := |p.prefix|;
    assert base[a] == '*' && base[..a] == p.prefix && base[a + 1..] == p.suffix;
    FirstIndexUnique(base, '*', a);
  }

  /** strncmp and the suffix compare of the source; a name beginning with
      '.' never matches. Prefix and suffix may overlap inside the name. */
  predicate IsHidden(name: String)
  {
    |name| > 0 && name[0] == '.'
  }

  predicate EntryMatches(name: String, prefix: String, suffix: String)
  {
    !IsHidden(name) && IsPrefix(prefix, name) && |name| >= |suffix| && IsSuffix(suffix, name)
  }

  /** Every visible name of the glob form prefix + middle + suffix matches. */
  lemma GlobNamesMatch(prefix: String, middle: String, suffix: String)
    requires !IsHidden(prefix + middle + suffix)
    ensures EntryMatches(prefix + middle + suffix, prefix, suffix)
  {
    var name := prefix + middle + suffix;
    assert name[..|prefix|] == prefix;
    assert name[|name| - |suffix|..] == suffix;
  }

  /** The converse fails: prefix and suffix may share characters, so `ab*ba`
      matches `aba`, which is shorter than prefix and suffix together. */
  lemma OverlapAllowed()
    ensures EntryMatches("aba", "ab", "ba")
    ensures |"aba"| < |"ab"| + |"ba"|
  {
    assert "aba"[..2] == "ab";
    assert "aba"[1..] == "ba";
  }

  /** How a match is written into the argument list. */
  function Render(p: Pattern, name: String): String
  {
    if p.hasSlash then p.directory + "/" + name else name
  }

  /** The rendered matching entries, in listing order. */
  function Selected(entries: seq<String>, p: Pattern): seq<String>
  {
    if entries == [] then []
    else
      var last := entries[|entries| - 1];
      Selected(entries[..|entries| - 1], p) +
        (if EntryMatches(last, p.prefix, p.suffix) then [Render(p, last)] else [])
  }

  /** Listing order is kept: the matches of a listing read in two parts are
      the first part's matches followed by the second part's. */
  lemma {:induction false} SelectedAppend(a: seq<String>, b: seq<String>, p: Pattern)
    ensures Selected(a + b, p) == Selected(a, p) + Selected(b, p)
    decreases |b|
  {
    if b == [] {
      assert a + b == a;
    } else {
      var b' := b[..|b| - 1];
      assert (a + b)[..|a + b| - 1] == a + b';
      SelectedAppend(a, b', p);
    }
  }

  /** name is how some matching entry of the listing is written. */
  ghost predicate RendersMatch(entries: seq<String>, p: Pattern, name: String)
  {
    exists k :: 0 <= k < |entries| && EntryMatches(entries[k], p.prefix, p.suffix) &&
      name == Render(p, entries[k])
  }

  /** Every selected name is the rendering of a matching entry. */
  lemma {:induction false} SelectedSound(entries: seq<String>, p: Pattern)
    ensures forall i :: 0 <= i < |Selected(entries, p)| ==> RendersMatch(entries, p, Selected(entries, p)[i])
  {
    if entries != [] {
      var init := entries[..|entries| - 1];
      var last := entries[|entries| - 1];
      SelectedSound(init, p);
      forall i | 0 <= i < |Selected(entries, p)|
        ensures RendersMatch(entries, p, Selected(entries, p)[i])
      {
        if i < |Selected(init, p)| {
          var k :| 0 <= k < |init| && EntryMatches(init[k], p.prefix, p.suffix) &&
            Selected(init, p)[i] == Render(p, init[k]);
          assert entries[k] == init[k];
          assert Selected(entries, p)[i] == Selected(init, p)[i];
        } else {
          assert EntryMatches(last, p.prefix, p.suffix);
          assert Selected(entries, p)[i] == Render(p, last);
        }
      }
    }
  }

  /** Every matching entry is selected. */
  lemma {:induction false} SelectedComplete(entries: seq<String>, p: Pattern, k: nat)
    requires k < |entries| && EntryMatches(entries[k], p.prefix, p.suffix)
    ensures Render(p, entries[k]) in Selected(entries, p)
  {
    var init := entries[..|entries| - 1];
    if k < |init| {
      SelectedComplete(init, p, k);
      assert entries[k] == init[k];
    }
  }

  /** With no matching entry nothing is selected. */
  lemma {:induction false} SelectedNone(entries: seq<String>, p: Pattern)
    requires forall k :: 0 <= k < |entries| ==> !EntryMatches(entries[k], p.prefix, p.suffix)
    ensures Selected(entries, p) == []
  {
    if entries != [] {
      SelectedNone(entries[..|entries| - 1], p);
    }
  }

  /** When every entry matches, each one is selected; without a directory
      part the selection is the listing itself. */
  lemma {:induction false} SelectedAll(entries: seq<String>, p: Pattern)
    requires forall k :: 0 <= k < |entries| ==> EntryMatches(entries[k], p.prefix, p.suffix)
    ensures |Selected(entries, p)| == |entries|
    ensures !p.hasSlash ==> Selected(entries, p) == entries
  {
    if entries != [] {
      var init := entries[..|entries| - 1];
      SelectedAll(init, p);
      assert entries == init + [entries[|entries| - 1]];
    }
  }

  /** The arguments one token stands for, at most limit of them from the
      listing; the token itself when it has no '*' in its base, when the
      directory cannot be opened, or when nothing matches. */
  function Expand(token: String, listDir: String -> Option<seq<String>>, limit: nat): (r: seq<String>)
    ensures 1 <= |r|
    ensures limit > 0 ==> |r| <= limit
  {
    match SplitPattern(token)
    case None => [token]
    case Some(p) =>
      match listDir(p.directory)
      case None => [token]
      case Some(entries) =>
        var found := Take(Selected(entries, p), limit);
        if found == [] then [token] else found
  }

  /** A token whose base has no '*' (none at all, or only in the directory
      part) stands for itself. */
  lemma LiteralWithoutStarInBase(token: String, listDir: String -> Option<seq<String>>, limit: nat)
    requires '*' !in BaseOf(token)
    ensures Expand(token, listDir, limit) == [token]
  {
  }

  lemma LiteralWithoutStar(token: String, listDir: String -> Option<seq<String>>, limit: nat)
    requires '*' !in token
    ensures Expand(token, listDir, limit) == [token]
  {
    BaseOfIsTail(token);
    assert forall k :: 0 <= k < |BaseOf(token)| ==>
      BaseOf(token)[k] == token[|token| - |BaseOf(token)| + k];
  }

  /** An unopenable directory, or a listing with no match, gives back the
      token unexpanded. */
  lemma LiteralWhenNothingMatches(token: String, listDir: String -> Option<seq<String>>, limit: nat)
    requires SplitPattern(token).Some?
    requires var p := SplitPattern(token).value;
      listDir(p.directory).None? ||
      forall k :: 0 <= k < |listDir(p.directory).value| ==>
        !EntryMatches(listDir(p.directory).value[k], p.prefix, p.suffix)
    ensures Expand(token, listDir, limit) == [token]
  {
    var p := SplitPattern(token).value;
    if listDir(p.directory).Some? {
      SelectedNone(listDir(p.directory).value, p);
    }
  }

  /** The readdir loop: scan the listing in order, keeping the rendering
      of each matching entry until limit of them are held. */
  method ScanListing(entries: seq<String>, p: Pattern, limit: nat) returns (results: seq<String>)
    ensures results == Take(Selected(entries, p), limit)
  {
    results := [];
    var idx := 0;
    while idx < |entries| && |results| < limit
      invariant idx <= |entries|
      invariant results == Selected(entries[..idx], p)
      invariant |results| <= limit
    {
      var name := entries[idx];
      assert entries[..idx + 1][..idx] == entries[..idx];
      if !IsHidden(name) && IsPrefix(p.prefix, name) && |name| >= |p.suffix| &&
         (|p.suffix| == 0 || IsSuffix(p.suffix, name))
      {
        results := results + [if p.hasSlash then p.directory + "/" + name else name];
      }
      idx := idx + 1;
    }
    assert entries == entries[..idx] + entries[idx..];
    SelectedAppend(entries[..idx], entries[idx..], p);
    if idx < |entries| {
      TakeFull(results, Selected(entries[idx..], p), limit);
    } else {
      assert entries[..idx] == entries;
    }
  }

  /** The wildcard routine: split at the last '/', then at the first '*' of
      the base, scan the listing and keep at most totalResults matches. */
  method ExpandToken(common: String, listDir: String -> Option<seq<String>>, totalResults: nat)
    returns (results: seq<String>)
    ensures results == Expand(common, listDir, totalResults)
    ensures 1 <= |results|
    ensures totalResults > 0 ==> |results| <= totalResults
  {
    if '*' !in common {
      LiteralWithoutStar(common, listDir, totalResults);
      return [common];
    }
    var slash := LastIndex(common, '/');
    var directory, basecommon;
    if slash.Some? {
      directory := common[..slash.value];
      basecommon := common[slash.value + 1..];
    } else {
      directory := ".";
      basecommon := common;
    }
    assert directory == DirectoryOf(common) && basecommon == BaseOf(common);
    var ast := FirstIndex(basecommon, '*');
    if ast.None? {
      return [common];
    }
    var p := Pattern(slash.Some?, directory, basecommon[..ast.value], basecommon[ast.value + 1..]);
    assert SplitPattern(common) == Some(p);
    var listing := listDir(directory);
    if listing.None? {
      return [common];
    }
    results := ScanListing(listing.value, p, totalResults);
    if |results| == 0 {
      results := [common];
    }
  }

  /** What one clean argument stands for: the wildcard expansion, up to
      MAX_ARGS matches, when it holds a '*', and itself otherwise. */
  function ArgExpansion(arg: String, listDir: String -> Option<seq<String>>): (r: seq<String>)
    ensures 1 <= |r|
  {
    if '*' in arg then Expand(arg, listDir, MAX_ARGS) else [arg]
  }

  /** The arguments a clean argument list stands for: the per-argument
      expansions concatenated in argument order. */
  function Expansions(args: seq<String>, listDir: String -> Option<seq<String>>): seq<String>
  {
    if args == [] then []
    else Expansions(args[..|args| - 1], listDir) + ArgExpansion(args[|args| - 1], listDir)
  }

  /** With no '*' anywhere, expansion is the identity. */
  lemma {:induction false} ExpansionsIdentity(args: seq<String>, listDir: String -> Option<seq<String>>)
    requires forall i :: 0 <= i < |args| ==> '*' !in args[i]
    ensures Expansions(args, listDir) == args
    decreases |args|
  {
    if args != [] {
      var init := args[..|args| - 1];
      var last := args[|args| - 1];
      ExpansionsIdentity(init, listDir);
      ArgExpansionLiteral(last, listDir);
      assert args == init + [last];
    }
  }

  lemma ArgExpansionLiteral(arg: String, listDir: String -> Option<seq<String>>)
    requires '*' !in arg
    ensures ArgExpansion(arg, listDir) == [arg]
  {
  }

  /** Each argument stands for at least one, so expansion never shortens
      the list. */
  lemma {:induction false} ExpansionsNotShorter(args: seq<String>, listDir: String -> Option<seq<String>>)
    ensures |Expansions(args, listDir)| >= |args|
  {
    if args != [] {
      ExpansionsNotShorter(args[..|args| - 1], listDir);
      assert |ArgExpansion(args[|args| - 1], listDir)| >= 1;
    }
  }

  /** The finalArgs loop with the MAX_ARGS - 1 capacity check applied to
      both kinds of argument (see ExpansionsAsWritten for the loop as the
      source writes it). */
  method ExpandArgs(clean: seq<String>, listDir: String -> Option<seq<String>>)
    returns (finalArgs: seq<String>)
    ensures finalArgs == Take(Expansions(clean, listDir), MAX_ARGS - 1)
    ensures |finalArgs| <= MAX_ARGS - 1
  {
    finalArgs := [];
    for a := 0 to |clean|
      invariant finalArgs == Take(Expansions(clean[..a], listDir), MAX_ARGS - 1)
    {
      ghost var done := Expansions(clean[..a], listDir);
      assert clean[..a + 1][..a] == clean[..a];
      assert Expansions(clean[..a + 1], listDir) == done + ArgExpansion(clean[a], listDir);
      if '*' in clean[a] {
        var matches := ExpandToken(clean[a], listDir, MAX_ARGS);
        finalArgs := AppendCapped(finalArgs, done, matches);
      } else {
        if |finalArgs| < MAX_ARGS - 1 {
          finalArgs := finalArgs + [clean[a]];
        } else {
          TakeFull(done, [clean[a]], MAX_ARGS - 1);
        }
      }
    }
    assert clean[..|clean|] == clean;
  }

  /** The inner copy loop: append matches while fewer than MAX_ARGS - 1
      arguments are held; acc holds the capped form of done. */
  method AppendCapped(acc: seq<String>, ghost done: seq<String>, matches: seq<String>)
    returns (r: seq<String>)
    requires acc == Take(done, MAX_ARGS - 1)
    ensures r == Take(done + matches, MAX_ARGS - 1)
  {
    r := acc;
    var m := 0;
    while m < |matches| && |r| < MAX_ARGS - 1
      invariant m <= |matches|
      invariant r == Take(done + matches[..m], MAX_ARGS - 1)
    {
      assert matches[..m + 1] == matches[..m] + [matches[m]];
      assert done + matches[..m + 1] == (done + matches[..m]) + [matches[m]];
      r := r + [matches[m]];
      m := m + 1;
    }
    if m < |matches| {
      TakeFull(done + matches[..m], matches[m..], MAX_ARGS - 1);
      assert done + matches[..m] + matches[m..] == done + matches;
    } else {
      assert matches[..m] == matches;
    }
  }

  /** The finalArgs loop as the source writes it: a match is appended only
      while fewer than MAX_ARGS - 1 arguments are held, but a plain argument
      is appended unconditionally. */
  function ExpansionsAsWritten(args: seq<String>, listDir: String -> Option<seq<String>>): seq<String>
  {
    if args == [] then []
    else
      var acc := ExpansionsAsWritten(args[..|args| - 1], listDir);
      var last := args[|args| - 1];
      if '*' in last then
        acc + (if |acc| < MAX_ARGS - 1 then Take(Expand(last, listDir, MAX_ARGS), MAX_ARGS - 1 - |acc|) else [])
      else acc + [last]
  }

  /** `*` in a directory whose entries are all visible yields the listing,
      up to MAX_ARGS entries of it; an empty listing leaves `*` as it is. */
  lemma StarSelectsAll(listDir: String -> Option<seq<String>>, entries: seq<String>)
    requires listDir(".") == Some(entries)
    requires forall k :: 0 <= k < |entries| ==> !IsHidden(entries[k])
    ensures entries != [] ==> Expand("*", listDir, MAX_ARGS) == Take(entries, MAX_ARGS)
    ensures entries == [] ==> Expand("*", listDir, MAX_ARGS) == ["*"]
  {
    var p := Pattern(false, ".", "", "");
    SplitPatternOfRebuild(p);
    assert Rebuild(p) == "*";
    forall k | 0 <= k < |entries| ensures EntryMatches(entries[k], "", "") {
      assert entries[k][|entries[k]|..] == "";
    }
    SelectedAll(entries, p);
  }

  lemma AsWrittenEchoStarX(listDir: String -> Option<seq<String>>)
    requires |Expand("*", listDir, MAX_ARGS)| >= MAX_ARGS - 2
    ensures |ExpansionsAsWritten(["echo", "*", "x"], listDir)| == MAX_ARGS
  {
    var args := ["echo", "*", "x"];
    var star := Expand("*", listDir, MAX_ARGS);
    assert args[..1] == ["echo"] && args[..2] == ["echo", "*"] && ["echo"][..0] == [];
    var one := ExpansionsAsWritten(args[..1], listDir);
    assert one == ["echo"];
    var two := ExpansionsAsWritten(args[..2], listDir);
    assert args[..2][1] == "*" && '*' in "*" && args[..2][..1] == args[..1];
    assert two == one + Take(star, MAX_ARGS - 1 - |one|);
    assert |two| == MAX_ARGS - 1;
  }

  lemma CappedEchoStarX(listDir: String -> Option<seq<String>>)
    requires |Expand("*", listDir, MAX_ARGS)| >= MAX_ARGS - 2
    ensures |Take(Expansions(["echo", "*", "x"], listDir), MAX_ARGS - 1)| == MAX_ARGS - 1
  {
    var args := ["echo", "*", "x"];
    assert args[..1] == ["echo"] && args[..2] == ["echo", "*"] && ["echo"][..0] == [];
    assert Expansions(args[..1], listDir) == ["echo"];
    assert |Expansions(args[..2], listDir)| >= MAX_ARGS - 1;
  }

  /** `echo * x` in a directory with at least MAX_ARGS - 2 visible entries:
      the loop as written holds MAX_ARGS arguments, so its terminating NULL
      goes to finalArgs[MAX_ARGS], one past the end of the buffer; with the
      check on both branches the list stops at MAX_ARGS - 1. */
  lemma FinalArgsOverflow(listDir: String -> Option<seq<String>>, entries: seq<String>)
    requires listDir(".") == Some(entries)
    requires |entries| >= MAX_ARGS - 2
    requires forall k :: 0 <= k < |entries| ==> !IsHidden(entries[k])
    ensures |ExpansionsAsWritten(["echo", "*", "x"], listDir)| == MAX_ARGS
    ensures |Take(Expansions(["echo", "*", "x"], listDir), MAX_ARGS - 1)| == MAX_ARGS - 1
  {
    StarSelectsAll(listDir, entries);
    AsWrittenEchoStarX(listDir);
    CappedEchoStarX(listDir);
  }
}
