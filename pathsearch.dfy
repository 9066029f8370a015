/** Command lookup over the shell's fixed search directories. */
module PathSearch {
  import opened Text

  /** The directories searched, in order. */
  const SEARCH_DIRS: seq<String> := ["/usr/local/bin", "/usr/bin", "/bin"]

  /** The path tried for cmd in directory dir. */
  function Candidate(dir: String, cmd: String): String
  {
    dir + "/" + cmd
  }

  /** The first candidate in dirs that the executability test accepts. */
  function FirstExecutable(dirs: seq<String>, cmd: String, isExecutable: String -> bool): Option<String>
  {
    if dirs == [] then None
    else if isExecutable(Candidate(dirs[0], cmd)) then Some(Candidate(dirs[0], cmd))
    else FirstExecutable(dirs[1..], cmd, isExecutable)
  }

  /** Where the shell finds cmd, if anywhere. */
  function Resolve(cmd: String, isExecutable: String -> bool): Option<String>
  {
    FirstExecutable(SEARCH_DIRS, cmd, isExecutable)
  }

  /** dirs[i] is the first directory holding an executable cmd. */
  ghost predicate FirstHitAt(dirs: seq<String>, cmd: String, isExecutable: String -> bool, i: int)
  {
    0 <= i < |dirs| && isExecutable(Candidate(dirs[i], cmd)) &&
    forall j :: 0 <= j < i ==> !isExecutable(Candidate(dirs[j], cmd))
  }

  /** The search fails exactly when no directory holds an executable cmd,
      and otherwise yields the candidate of the first one that does. */
  lemma {:induction false} FirstExecutableIsFirstHit(dirs: seq<String>, cmd: String, isExecutable: String -> bool)
    ensures FirstExecutable(dirs, cmd, isExecutable).None? <==>
      forall i :: 0 <= i < |dirs| ==> !isExecutable(Candidate(dirs[i], cmd))
    ensures FirstExecutable(dirs, cmd, isExecutable).Some? ==>
      exists i :: FirstHitAt(dirs, cmd, isExecutable, i) &&
        FirstExecutable(dirs, cmd, isExecutable).value == Candidate(dirs[i], cmd)
  {
    if dirs != [] && !isExecutable(Candidate(dirs[0], cmd)) {
      var rest := dirs[1..];
      FirstExecutableIsFirstHit(rest, cmd, isExecutable);
      if FirstExecutable(rest, cmd, isExecutable).Some? {
        var i :| FirstHitAt(rest, cmd, isExecutable, i) &&
          FirstExecutable(rest, cmd, isExecutable).value == Candidate(rest[i], cmd);
        assert FirstHitAt(dirs, cmd, isExecutable, i + 1);
      } else {
        forall i | 0 <= i < |dirs| ensures !isExecutable(Candidate(dirs[i], cmd)) {
          if i > 0 {
            assert dirs[i] == rest[i - 1];
          }
        }
      }
    } else if dirs != [] {
      assert FirstHitAt(dirs, cmd, isExecutable, 0);
    }
  }

  /** An executable in an earlier directory shadows one in a later
      directory. */
  lemma EarlierDirectoryWins(cmd: String, isExecutable: String -> bool)
    requires isExecutable(Candidate("/usr/local/bin", cmd)) && isExecutable(Candidate("/bin", cmd))
    ensures Resolve(cmd, isExecutable) == Some("/usr/local/bin/" + cmd)
  {
    assert Candidate("/usr/local/bin", cmd) == "/usr/local/bin/" + cmd;
  }

  /** The lookup loop: build each candidate into path and return 0 at the
      first executable one, else -1 with path left at the last candidate. */
  method FindPath(cmd: String, isExecutable: String -> bool) returns (rc: int, path: String)
    ensures rc == 0 || rc == -1
    ensures rc == 0 <==> Resolve(cmd, isExecutable).Some?
    ensures rc == 0 ==> path == Resolve(cmd, isExecutable).value
    ensures rc == -1 ==> path == Candidate("/bin", cmd)
  {
    var dirs := SEARCH_DIRS;
    path := "";
    for i := 0 to 3
      invariant Resolve(cmd, isExecutable) == FirstExecutable(dirs[i..], cmd, isExecutable)
      invariant i > 0 ==> path == Candidate(dirs[i - 1], cmd)
    {
      path := Candidate(dirs[i], cmd);
      assert dirs[i..][1..] == dirs[i + 1..];
      if isExecutable(path) {
        return 0, path;
      }
    }
    rc := -1;
  }
}
