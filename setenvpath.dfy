/** setenvpath (build-aux/setenvpath.c): a small Windows driver that sets
    PATH to its current value followed by each `-p` directory, separated by
    ';', then runs a command with its remaining arguments quoted and
    joined. It exits with 255 when anything goes wrong, -h included. */
module SetEnvPath {
  import opened CValues

  /** failure_code. */
  const FAILURE_CODE: int := 255
  const PATH_PREFIX: CString := "PATH="

  // ---------------------------------------------------------------- escaped_len

  /** escaped_len's value: the length, plus 2 when there is at least one
      space, however many there are. */
  function EscapedLength(v: CString): nat
  {
    |v| + if ' ' in v then 2 else 0
  }

  method EscapedLen(v: CString) returns (n: nat)
    requires IsCString(v)
    ensures n == EscapedLength(v)
  {
    var i, extra := 0, 0;
    while CharAt(v, i) != '\0'
      invariant i <= |v|
      invariant extra == if ' ' in v[..i] then 2 else 0
      decreases |v| - i
    {
      assert v[..i + 1] == v[..i] + [v[i]];
      i := i + 1;
      if v[i - 1] == ' ' {
        extra := 2;
      }
    }
    assert v[..i] == v;
    n := i + extra;
  }

  /** A string with spaces is counted 2 longer, one without is counted as
      its length; the count does not grow with more spaces. */
  lemma EscapedLengthSpaces(v: CString, w: CString)
    requires ' ' in v && ' ' in w && |v| == |w|
    ensures EscapedLength(v) == EscapedLength(w) == |v| + 2
  {
  }

  // ---------------------------------------------------------------- create_args

  /** One argument in double quotes; the characters are copied verbatim,
      quotes inside are not escaped. */
  function Quoted(a: CString): CString
  {
    ['"'] + a + ['"']
  }

  /** What the fill loop writes: each argument quoted and followed by a
      space. */
  function Listed(xs: seq<CString>): CString
    decreases |xs|
  {
    if xs == [] then [] else Listed(xs[..|xs| - 1]) + Quoted(xs[|xs| - 1]) + [' ']
  }

  /** The size create_args allocates: each argument's length plus 3 (two
      quotes and a space or the terminator). */
  function TotalLength(xs: seq<CString>): nat
    decreases |xs|
  {
    if xs == [] then 0 else TotalLength(xs[..|xs| - 1]) + |xs[|xs| - 1]| + 3
  }

  /** The reference form of the result: quoted arguments separated by
      single spaces, nothing after the last. */
  function SpaceJoined(xs: seq<CString>): CString
    requires xs != []
    decreases |xs|
  {
    if |xs| == 1 then Quoted(xs[0]) else SpaceJoined(xs[..|xs| - 1]) + [' '] + Quoted(xs[|xs| - 1])
  }

  lemma {:induction false} ListedLength(xs: seq<CString>)
    ensures |Listed(xs)| == TotalLength(xs)
    decreases |xs|
  {
    if xs != [] {
      ListedLength(xs[..|xs| - 1]);
    }
  }

  /** The listed form is the space-joined form plus one trailing space. */
  lemma {:induction false} ListedIsSpaceJoined(xs: seq<CString>)
    requires xs != []
    ensures Listed(xs) == SpaceJoined(xs) + [' ']
    decreases |xs|
  {
    if |xs| == 1 {
      assert xs[..0] == [];
    } else {
      ListedIsSpaceJoined(xs[..|xs| - 1]);
    }
  }

  lemma {:induction false} TotalLengthPrefix(xs: seq<CString>, i: nat)
    requires i <= |xs|
    ensures TotalLength(xs[..i]) <= TotalLength(xs)
    decreases |xs| - i
  {
    if i < |xs| {
      var ys := xs[..i + 1];
      assert ys[..|ys| - 1] == xs[..i];
      TotalLengthPrefix(xs, i + 1);
    } else {
      assert xs[..i] == xs;
    }
  }

  /** create_args' first loop: the allocation size. */
  method ComputeTotalLength(args: seq<CString>) returns (totalLen: nat)
    ensures totalLen == TotalLength(args)
  {
    totalLen := 0;
    for i := 0 to |args|
      invariant totalLen == TotalLength(args[..i])
    {
      assert args[..i + 1][..i] == args[..i];
      totalLen := totalLen + |args[i]| + 3;
    }
    assert args[..|args|] == args;
  }

  /** create_args' second loop body: writes one argument, quoted and
      followed by a space, at index k. */
  method AppendArgument(ret: array<char>, k: nat, arg: CString) returns (next: nat)
    requires IsCString(arg) && k + |arg| + 3 <= ret.Length
    modifies ret
    ensures next == k + |arg| + 3
    ensures ret[..next] == old(ret[..k]) + Quoted(arg) + [' ']
  {
    ghost var before := ret[..k];
    next := k;
    ret[next] := '"';
    next := next + 1;
    var j := 0;
    while CharAt(arg, j) != '\0'
      invariant j <= |arg| && next == k + 1 + j
      invariant ret[..next] == before + ['"'] + arg[..j]
      decreases |arg| - j
    {
      ret[next] := arg[j];
      next := next + 1;
      assert arg[..j + 1] == arg[..j] + [arg[j]];
      j := j + 1;
    }
    assert arg[..j] == arg;
    ret[next] := '"';
    ret[next + 1] := ' ';
    next := next + 2;
  }

  /** create_args: fills a buffer of the computed size index by index, then
      overwrites the last space with the terminator. The text is the
      arguments quoted and joined by single spaces, one shorter than the
      allocation. */
  method CreateArgs(args: seq<CString>) returns (ret: array<char>)
    requires |args| > 0
    requires forall i :: 0 <= i < |args| ==> IsCString(args[i])
    ensures fresh(ret) && ret.Length == TotalLength(args) && ret.Length > 0
    ensures ret[..ret.Length - 1] == SpaceJoined(args) && ret[ret.Length - 1] == '\0'
  {
    var totalLen := ComputeTotalLength(args);
    ret := new char[totalLen];
    var k := 0;
    for i := 0 to |args|
      invariant k == TotalLength(args[..i]) && k <= ret.Length && ret[..k] == Listed(args[..i])
    {
      TotalLengthPrefix(args, i + 1);
      assert args[..i + 1][..i] == args[..i];
      k := AppendArgument(ret, k, args[i]);
    }
    assert args[..|args|] == args;
    ListedIsSpaceJoined(args);
    ghost var listed := ret[..k];
    ret[k - 1] := '\0';
    assert ret[..ret.Length - 1] == listed[..k - 1];
  }

  /** The text's length is the allocation minus one: the sum of the
      arguments' lengths plus three each, less one. */
  lemma SpaceJoinedLength(xs: seq<CString>)
    requires xs != []
    ensures |SpaceJoined(xs)| == TotalLength(xs) - 1
  {
    ListedIsSpaceJoined(xs);
    ListedLength(xs);
  }

  // ---------------------------------------------------------------- PATH

  /** get_path_copy: the PATH value, or NULL when it is unset or empty. */
  function PathCopy(path: Option<CString>): (r: Option<CString>)
    ensures r.Some? <==> path.Some? && path.value != []
    ensures r.Some? ==> r == path
  {
    if path.None? || path.value == [] then None else path
  }

  /** get_initial_putenv: "PATH=" alone for a NULL path, otherwise "PATH="
      then the path then a ';' that the first -p directory follows. */
  function InitialPutenv(currentPath: Option<CString>): (r: CString)
    ensures |r| >= |PATH_PREFIX| && r[..|PATH_PREFIX|] == PATH_PREFIX
    ensures currentPath.None? ==> r == PATH_PREFIX
    ensures currentPath.Some? ==>
      |r| == |PATH_PREFIX| + |currentPath.value| + 1 &&
      r[|PATH_PREFIX|..|r| - 1] == currentPath.value && r[|r| - 1] == ';'
  {
    PATH_PREFIX + if currentPath.Some? then currentPath.value + ";" else ""
  }

  /** The directories separated by ';'. */
  function SemicolonJoined(paths: seq<CString>): CString
    requires paths != []
    decreases |paths|
  {
    if |paths| == 1 then paths[0] else SemicolonJoined(paths[..|paths| - 1]) + ";" + paths[|paths| - 1]
  }

  /** The putenv expression once the directories in `paths` were added. */
  function PutenvExpression(oldPath: Option<CString>, paths: seq<CString>): CString
    requires paths != []
  {
    InitialPutenv(oldPath) + SemicolonJoined(paths)
  }

  /** With an existing PATH P, the expression is "PATH=" P ";" p1 ";" ... pk:
      the old value comes first and each directory follows a separator. */
  lemma PutenvExpressionShape(oldPath: CString, paths: seq<CString>)
    requires paths != []
    ensures PutenvExpression(Some(oldPath), paths) == PATH_PREFIX + oldPath + ";" + SemicolonJoined(paths)
  {
    var a, b := PATH_PREFIX + oldPath, SemicolonJoined(paths);
    assert InitialPutenv(Some(oldPath)) == PATH_PREFIX + (oldPath + ";");
    hide *;
    assert PATH_PREFIX + (oldPath + ";") == a + ";";
  }

  /** Adding a directory: the first one goes right after the initial
      expression, every later one after a ';'. */
  lemma AddedPath(oldPath: Option<CString>, paths: seq<CString>, path: CString)
    ensures paths == [] ==> PutenvExpression(oldPath, paths + [path]) == InitialPutenv(oldPath) + path
    ensures paths != [] ==>
      PutenvExpression(oldPath, paths + [path]) == PutenvExpression(oldPath, paths) + ";" + path
  {
    var ps := paths + [path];
    assert ps[..|ps| - 1] == paths && ps[|ps| - 1] == path;
    if paths != [] {
      var a, b := InitialPutenv(oldPath), SemicolonJoined(paths);
      assert SemicolonJoined(ps) == b + ";" + path;
      assert a + (b + ";" + path) == (a + b) + ";" + path;
    }
  }

  // ---------------------------------------------------------------- main

  /** Why the option scan stopped early: -h, a -p without argument, or a
      -p directory that is not a directory. */
  datatype Stop = HelpRequested | MissingPathArgument | NotADirectory(path: CString)

  /** The scan's result: the -v flag, the -p directories in order, the
      command (the first other argument) and the index its arguments start
      at (0 when there is no command). */
  datatype Scan =
    | Stopped(why: Stop)
    | Scanned(verbose: bool, paths: seq<CString>, cmd: Option<CString>, argsStart: nat)

  /** The reference scan of argv from index i. */
  function ScanFrom(argv: seq<CString>, isDirectory: CString -> bool, i: nat, verbose: bool,
                    paths: seq<CString>): (r: Scan)
    ensures r.Scanned? && r.cmd.Some? ==> i < r.argsStart <= |argv| && r.cmd.value == argv[r.argsStart - 1]
    ensures r.Scanned? && r.cmd.None? ==> r.argsStart == 0
    ensures r.Scanned? ==> paths <= r.paths
    decreases |argv| - i
  {
    if i >= |argv| then Scanned(verbose, paths, None, 0)
    else if argv[i] == "-h" then Stopped(HelpRequested)
    else if argv[i] == "-v" then ScanFrom(argv, isDirectory, i + 1, true, paths)
    else if argv[i] == "-p" then
      if i + 1 == |argv| then Stopped(MissingPathArgument)
      else if !isDirectory(argv[i + 1]) then Stopped(NotADirectory(argv[i + 1]))
      else ScanFrom(argv, isDirectory, i + 2, verbose, paths + [argv[i + 1]])
    else Scanned(verbose, paths, Some(argv[i]), i + 1)
  }

  /** main's option loop, from argv[1]: the putenv expression grows by
      ";" and the directory for every -p after the first. */
  method ScanOptions(argv: seq<CString>, isDirectory: CString -> bool, oldPath: Option<CString>)
    returns (scan: Scan, putenvExpression: Option<CString>)
    ensures scan == ScanFrom(argv, isDirectory, 1, false, [])
    ensures scan.Scanned? ==>
      putenvExpression == if scan.paths == [] then None else Some(PutenvExpression(oldPath, scan.paths))
  {
    var verbose := false;
    var argsStart := 0;
    var cmd: Option<CString> := None;
    putenvExpression := None;
    var paths: seq<CString> := [];
    var i := 1;
    while i < |argv|
      invariant ScanFrom(argv, isDirectory, i, verbose, paths) == ScanFrom(argv, isDirectory, 1, false, [])
      invariant putenvExpression == if paths == [] then None else Some(PutenvExpression(oldPath, paths))
      decreases |argv| - i
    {
      if argv[i] == "-h" {
        return Stopped(HelpRequested), putenvExpression;
      } else if argv[i] == "-v" {
        verbose := true;
      } else if argv[i] == "-p" {
        i := i + 1;
        if i == |argv| {
          return Stopped(MissingPathArgument), putenvExpression;
        }
        var path := argv[i];
        if !isDirectory(path) {
          return Stopped(NotADirectory(path)), putenvExpression;
        }
        var expr := ExtendPutenv(oldPath, paths, putenvExpression, path);
        paths := paths + [path];
        putenvExpression := Some(expr);
      } else {
        cmd := Some(argv[i]);
        i := i + 1;
        argsStart := i;
        break;
      }
      i := i + 1;
    }
    if cmd.None? {
      assert ScanFrom(argv, isDirectory, i, verbose, paths) == Scanned(verbose, paths, None, 0);
    }
    scan := Scanned(verbose, paths, cmd, argsStart);
  }

  /** One -p directory added to the putenv expression: the initial
      expression when it is the first, otherwise a ';' first. */
  method ExtendPutenv(oldPath: Option<CString>, paths: seq<CString>, current: Option<CString>, path: CString)
    returns (expr: CString)
    requires current == if paths == [] then None else Some(PutenvExpression(oldPath, paths))
    ensures expr == PutenvExpression(oldPath, paths + [path])
  {
    AddedPath(oldPath, paths, path);
    if current.None? {
      expr := InitialPutenv(oldPath);
    } else {
      expr := current.value + ";";
    }
    expr := expr + path;
  }

  /** The results of the host calls main depends on: GetFileAttributes
      telling a directory, putenv succeeding, getenv("PATH") after a
      putenv, FindFirstFile finding the command, and system's status. */
  datatype Host = Host(
    isDirectory: CString -> bool,
    putenvSucceeds: CString -> bool,
    pathAfterPutenv: CString -> CString,
    commandExists: CString -> bool,
    system: CString -> int)

  /** update_environment: 1 when putenv failed or left PATH equal to the
      original value, 0 otherwise. */
  function UpdateEnvironment(expr: CString, original: Option<CString>, host: Host): (r: int)
    ensures r == 0 || r == 1
    ensures r == 0 <==> host.putenvSucceeds(expr) && (original.None? || host.pathAfterPutenv(expr) != original.value)
  {
    if !host.putenvSucceeds(expr) then 1
    else if original.Some? && host.pathAfterPutenv(expr) == original.value then 1
    else 0
  }

  /** The string run_process hands to system(): the command, then a space
      and the argument string when there is one. */
  function Shell(cmd: CString, args: Option<CString>): (r: CString)
    ensures |r| >= |cmd| && r[..|cmd|] == cmd
    ensures args.None? ==> r == cmd
    ensures args.Some? ==> r[|cmd|..] == [' '] + args.value
  {
    cmd + if args.Some? then " " + args.value else ""
  }

  /** run_process: 255 when the command cannot be found, otherwise
      system()'s status. */
  function RunProcess(cmd: CString, args: Option<CString>, host: Host): (r: int)
    ensures !host.commandExists(cmd) ==> r == FAILURE_CODE
    ensures host.commandExists(cmd) && args.None? ==> r == host.system(cmd)
    ensures host.commandExists(cmd) && args.Some? ==> r == host.system(cmd + ([' '] + args.value))
  {
    if !host.commandExists(cmd) then FAILURE_CODE else host.system(Shell(cmd, args))
  }

  /** The argument string: the arguments after the command, quoted and
      joined, or NULL when there are none. */
  function CommandLineFrom(argv: seq<CString>, argsStart: nat): Option<CString>
  {
    if argsStart < |argv| then Some(SpaceJoined(argv[argsStart..])) else None
  }

  /** main's exit status for argv and the inherited PATH value. */
  function ExitStatus(argv: seq<CString>, path: Option<CString>, host: Host): (r: int)
    ensures var scan := ScanFrom(argv, host.isDirectory, 1, false, []);
      (scan.Stopped? || scan.cmd.None?) ==> r == FAILURE_CODE
    ensures var scan := ScanFrom(argv, host.isDirectory, 1, false, []);
      scan.Scanned? && scan.paths == [] && scan.cmd.Some? ==>
        r == RunProcess(scan.cmd.value, CommandLineFrom(argv, scan.argsStart), host)
    ensures var scan := ScanFrom(argv, host.isDirectory, 1, false, []);
      scan.Scanned? && scan.paths != [] && !host.putenvSucceeds(PutenvExpression(PathCopy(path), scan.paths)) ==>
        r == FAILURE_CODE
  {
    var oldPath := PathCopy(path);
    var scan := ScanFrom(argv, host.isDirectory, 1, false, []);
    if scan.Stopped? then FAILURE_CODE
    else if scan.paths != [] && UpdateEnvironment(PutenvExpression(oldPath, scan.paths), oldPath, host) != 0 then
      FAILURE_CODE
    else if scan.cmd.None? then FAILURE_CODE
    else RunProcess(scan.cmd.value, CommandLineFrom(argv, scan.argsStart), host)
  }

  /** main after the scan: putenv, the no-command check, create_args and
      run_process. */
  method Launch(argv: seq<CString>, scan: Scan, putenvExpression: Option<CString>, oldPath: Option<CString>,
                host: Host) returns (status: int)
    requires forall i :: 0 <= i < |argv| ==> IsCString(argv[i])
    requires scan.Scanned? && (scan.cmd.Some? ==> scan.argsStart <= |argv|)
    requires putenvExpression == if scan.paths == [] then None else Some(PutenvExpression(oldPath, scan.paths))
    ensures status == (
      if scan.paths != [] && UpdateEnvironment(PutenvExpression(oldPath, scan.paths), oldPath, host) != 0 then
        FAILURE_CODE
      else if scan.cmd.None? then FAILURE_CODE
      else RunProcess(scan.cmd.value, CommandLineFrom(argv, scan.argsStart), host))
  {
    if putenvExpression.Some? {
      if UpdateEnvironment(putenvExpression.value, oldPath, host) != 0 {
        return FAILURE_CODE;
      }
    }
    if scan.cmd.None? {
      return FAILURE_CODE;
    }
    var commandLine: Option<CString> := None;
    if scan.argsStart < |argv| {
      var buf := CreateArgs(argv[scan.argsStart..]);
      commandLine := Some(buf[..buf.Length - 1]);
    }
    status := RunProcess(scan.cmd.value, commandLine, host);
  }

  /** main. */
  method SetEnvPathMain(argv: seq<CString>, path: Option<CString>, host: Host) returns (status: int)
    requires forall i :: 0 <= i < |argv| ==> IsCString(argv[i])
    ensures status == ExitStatus(argv, path, host)
  {
    var oldPath := PathCopy(path);
    var scan, putenvExpression := ScanOptions(argv, host.isDirectory, oldPath);
    if scan.Stopped? {
      return FAILURE_CODE;
    }
    status := Launch(argv, scan, putenvExpression, oldPath, host);
  }

  /** -h, a trailing -p, and a missing command all end with 255. */
  lemma FailureExits(argv: seq<CString>, path: Option<CString>, host: Host)
    ensures var scan := ScanFrom(argv, host.isDirectory, 1, false, []);
      (scan == Stopped(HelpRequested) || scan == Stopped(MissingPathArgument) ||
       (scan.Scanned? && scan.cmd.None?)) ==> ExitStatus(argv, path, host) == FAILURE_CODE
  {
  }

  /** A run of -v flags ending at the first argument that is not an option
      makes that argument the command, and the arguments after it are not
      scanned. */
  lemma {:induction false} CommandAfterFlags(argv: seq<CString>, isDirectory: CString -> bool, i: nat,
                                             verbose: bool, paths: seq<CString>, j: nat)
    requires i <= j < |argv|
    requires forall m :: i <= m < j ==> argv[m] == "-v"
    requires argv[j] != "-h" && argv[j] != "-v" && argv[j] != "-p"
    ensures ScanFrom(argv, isDirectory, i, verbose, paths) == Scanned(verbose || j > i, paths, Some(argv[j]), j + 1)
    decreases j - i
  {
    if i < j {
      CommandAfterFlags(argv, isDirectory, i + 1, true, paths, j);
    }
  }

  /** Pairs "-p" dir, for directories that pass the check, add the
      directories in order. */
  lemma {:induction false} PathPairs(argv: seq<CString>, isDirectory: CString -> bool, i: nat,
                                     verbose: bool, paths: seq<CString>, dirs: seq<CString>)
    requires i + 2 * |dirs| <= |argv|
    requires forall m :: 0 <= m < |dirs| ==> argv[i + 2 * m] == "-p" && argv[i + 2 * m + 1] == dirs[m]
    requires forall m :: 0 <= m < |dirs| ==> isDirectory(dirs[m])
    ensures ScanFrom(argv, isDirectory, i, verbose, paths) ==
      ScanFrom(argv, isDirectory, i + 2 * |dirs|, verbose, paths + dirs)
    decreases |dirs|
  {
    hide *;
    if dirs == [] {
      assert paths + dirs == paths;
    } else {
      assert argv[i] == "-p" && argv[i + 1] == dirs[0] && isDirectory(dirs[0]);
      PathPairStep(argv, isDirectory, i, verbose, paths);
      PairsShift(argv, isDirectory, i, dirs);
      PathPairs(argv, isDirectory, i + 2, verbose, paths + [dirs[0]], dirs[1..]);
      assert paths + [dirs[0]] + dirs[1..] == paths + dirs;
    }
  }

  /** The pairs after the first one, seen from two arguments on. */
  lemma PairsShift(argv: seq<CString>, isDirectory: CString -> bool, i: nat, dirs: seq<CString>)
    requires dirs != [] && i + 2 * |dirs| <= |argv|
    requires forall m :: 0 <= m < |dirs| ==> argv[i + 2 * m] == "-p" && argv[i + 2 * m + 1] == dirs[m]
    requires forall m :: 0 <= m < |dirs| ==> isDirectory(dirs[m])
    ensures forall m :: 0 <= m < |dirs| - 1 ==> argv[i + 2 + 2 * m] == "-p" && argv[i + 2 + 2 * m + 1] == dirs[1..][m]
    ensures forall m :: 0 <= m < |dirs| - 1 ==> isDirectory(dirs[1..][m])
  {
    forall m | 0 <= m < |dirs| - 1
      ensures argv[i + 2 + 2 * m] == "-p" && argv[i + 2 + 2 * m + 1] == dirs[1..][m] && isDirectory(dirs[1..][m])
    {
      assert argv[i + 2 * (m + 1)] == "-p" && argv[i + 2 * (m + 1) + 1] == dirs[m + 1] && isDirectory(dirs[m + 1]);
    }
  }

  lemma PathPairStep(argv: seq<CString>, isDirectory: CString -> bool, i: nat, verbose: bool, paths: seq<CString>)
    requires i + 1 < |argv| && argv[i] == "-p" && isDirectory(argv[i + 1])
    ensures ScanFrom(argv, isDirectory, i, verbose, paths) ==
      ScanFrom(argv, isDirectory, i + 2, verbose, paths + [argv[i + 1]])
  {
    assert argv[i] != "-h" && argv[i] != "-v";
  }
}
