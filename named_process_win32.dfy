/** named_process_win32 (detail/named_process_win32.hpp): starts a named
    binary with CreateProcess, suspended, with the redirector's handles as
    its standard streams; then re-opens the process handle with
    DuplicateHandle and resumes the main thread, cleaning up when either
    step fails. */
module NamedProcessWin32 {
  import opened CValues
  import opened Os
  import opened ProcessErrors
  import opened RedirectionWin32
  import ProcessWin32
  import Programs

  const MSG_NOT_FOUND := "named binary could not be executed"
  const MSG_CREATE := "could not create process"
  const MSG_DUPLICATE := "could not open the process"
  const MSG_RESUME := "could not resume the suspended process"
  /** The limit the command line is asserted to stay under. */
  const MAX_COMMAND_LINE: int := 32768

  /** One argument on the command line: double-quoted and followed by a
      space. */
  function Quote(a: CString): (q: CString)
    ensures |q| == |a| + 3
    ensures q[0] == '"' && q[1..|a| + 1] == a && q[|a| + 1..] == ['"', ' ']
  {
    ['"'] + a + ['"', ' ']
  }

  /** The quoted arguments in order. */
  function Joined(xs: seq<CString>): CString
    decreases |xs|
  {
    if xs == [] then [] else Joined(xs[..|xs| - 1]) + Quote(xs[|xs| - 1])
  }

  /** The command line for an argv pointer: empty when it is NULL. */
  function CommandLine(args: Option<seq<CString>>): CString
  {
    if args.None? then [] else Joined(args.value)
  }

  /** Each argument costs its length plus two quotes and a space. */
  function QuotedLength(xs: seq<CString>): nat
    decreases |xs|
  {
    if xs == [] then 0 else QuotedLength(xs[..|xs| - 1]) + |xs[|xs| - 1]| + 3
  }

  lemma {:induction false} JoinedLength(xs: seq<CString>)
    ensures |Joined(xs)| == QuotedLength(xs)
    decreases |xs|
  {
    if xs != [] {
      JoinedLength(xs[..|xs| - 1]);
    }
  }

  /** The command line for the first i arguments is a prefix of the whole. */
  lemma {:induction false} JoinedPrefix(xs: seq<CString>, i: nat)
    requires i <= |xs|
    ensures Joined(xs[..i]) <= Joined(xs)
    decreases |xs| - i
  {
    if i < |xs| {
      var ys := xs[..i + 1];
      assert ys[..|ys| - 1] == xs[..i];
      JoinedPrefix(xs, i + 1);
    } else {
      assert xs[..i] == xs;
    }
  }

  /** The i-th argument sits, quoted, right after the first i arguments:
      the command line lists every argument in order, each one intact. */
  lemma JoinedArgument(xs: seq<CString>, i: nat)
    requires i < |xs|
    ensures var start := |Joined(xs[..i])|;
      start + |xs[i]| + 3 <= |Joined(xs)| &&
      Joined(xs)[start..start + |xs[i]| + 3] == Quote(xs[i])
  {
    var ys := xs[..i + 1];
    assert ys[..|ys| - 1] == xs[..i];
    assert Joined(ys) == Joined(xs[..i]) + Quote(xs[i]);
    JoinedPrefix(xs, i + 1);
  }

  /** Builds the command line by appending each argument, quoted, while
      walking the NULL-terminated argv. */
  method BuildCommandLine(args: Option<seq<CString>>) returns (cl: CString)
    ensures cl == CommandLine(args)
  {
    cl := [];
    if args.Some? {
      var xs := args.value;
      var i := 0;
      while i < |xs|
        invariant 0 <= i <= |xs|
        invariant cl == Joined(xs[..i])
      {
        cl := cl + ['"'];
        cl := cl + xs[i];
        cl := cl + ['"'];
        cl := cl + [' '];
        assert xs[..i + 1][..i] == xs[..i];
        i := i + 1;
      }
      assert xs[..i] == xs;
    }
  }

  /** startupinfo_wrapper: a zeroed STARTUPINFO with its size set; with
      redirects enabled, STARTF_USESTDHANDLES, the process's own stderr,
      and the redirector's stdin and stdout handles. */
  method NewStartupInfo(rd: Redirector, k: Kernel) returns (si: StartupInfo)
    ensures si.cb == SIZEOF_STARTUPINFO
    ensures !rd.RedirectsEnabled() ==> si == StartupInfo(SIZEOF_STARTUPINFO, 0, 0, 0, 0)
    ensures rd.RedirectsEnabled() ==>
      si.dwFlags == STARTF_USESTDHANDLES && si.hStdError == k.stdError &&
      si.hStdInput == rd.StdinHandle(k) && si.hStdOutput == rd.StdoutHandle(k)
  {
    si := StartupInfo(0, 0, 0, 0, 0);
    si := si.(cb := SIZEOF_STARTUPINFO);
    if rd.RedirectsEnabled() {
      si := si.(dwFlags := si.dwFlags + STARTF_USESTDHANDLES);
      si := si.(hStdError := k.stdError);
      si := si.(hStdInput := rd.StdinHandle(k));
      si := si.(hStdOutput := rd.StdoutHandle(k));
    }
  }

  /** The STARTUPINFO the constructor passes. */
  function StartupInfoFor(rd: Redirector, k: Kernel): StartupInfo
  {
    if rd.RedirectsEnabled() then
      StartupInfo(SIZEOF_STARTUPINFO, STARTF_USESTDHANDLES, rd.StdinHandle(k), rd.StdoutHandle(k), k.stdError)
    else StartupInfo(SIZEOF_STARTUPINFO, 0, 0, 0, 0)
  }

  /** The error a failed CreateProcess raises: program_error when the file
      was not found, create_error otherwise, with GetLastError()'s code. */
  function CreateFailure(lastError: int): (e: ProcessError)
    ensures e.kind == ProgramError <==> lastError == ERROR_FILE_NOT_FOUND
    ensures e.kind in {ProgramError, CreateError}
    ensures e.code == ErrorCode(lastError, SystemCategory)
  {
    if lastError == ERROR_FILE_NOT_FOUND then ThrowSystemError(ProgramError, lastError, MSG_NOT_FOUND)
    else ThrowSystemError(CreateError, lastError, MSG_CREATE)
  }

  /** The CreateProcess call: the exact image name, the built command line,
      inheritable handles, suspended, the parent's environment (NULL) and
      working directory. */
  function CreateCall(image: CString, args: Option<seq<CString>>, si: StartupInfo): Syscall
  {
    CreateProcess(image, CommandLine(args), true, CREATE_SUSPENDED, None, si)
  }

  /** The calls once DuplicateHandle has failed: terminate the child and
      close both handles CreateProcess returned. */
  function DupFailedEvents(hProcess: int, hThread: int): seq<Event>
  {
    [Sys(TerminateProcess(hProcess, 1)), Sys(CloseHandle(hProcess)), Sys(CloseHandle(hThread))]
  }

  /** The calls once DuplicateHandle has given `handle`: close the returned
      process handle, then ResumeThread (answered at r), which counts as
      failed only when it returned 0; then terminate through the new handle
      and close both, or just close the thread handle. */
  function ResumeEvents(hProcess: int, hThread: int, handle: int, answer: nat -> Reply, r: nat): seq<Event>
  {
    [Sys(CloseHandle(hProcess)), Sys(ResumeThread(hThread))] +
      if answer(r).ret == 0 then
        [Sys(TerminateProcess(handle, 1)), Sys(CloseHandle(hThread)), Sys(CloseHandle(handle))]
      else [Sys(CloseHandle(hThread))]
  }

  /** The calls after close_child_ends, DuplicateHandle sitting at m. */
  function HandleEvents(hProcess: int, hThread: int, answer: nat -> Reply, m: nat): seq<Event>
  {
    [Sys(DuplicateHandle(hProcess, PROCESS_ALL_ACCESS, false, 0))] +
      if answer(m).ret == 0 then DupFailedEvents(hProcess, hThread)
      else ResumeEvents(hProcess, hThread, answer(m).Out(0), answer, m + 2)
  }

  function HandleOutcome(answer: nat -> Reply, m: nat): (o: Outcome)
    ensures o.Done? <==> answer(m).ret != 0 && answer(m + 2).ret != 0
    ensures o.Raised? ==> o.error.kind == CreateError
  {
    if answer(m).ret == 0 then Raised(ThrowSystemError(CreateError, answer(m).err, MSG_DUPLICATE))
    else if answer(m + 2).ret == 0 then Raised(ThrowSystemError(CreateError, answer(m + 2).err, MSG_RESUME))
    else Done
  }

  /** The calls after a successful CreateProcess, close_child_ends starting
      at n: DuplicateHandle and the rest only when no close raised. */
  function CreatedEvents(rd: Redirector, hProcess: int, hThread: int, answer: nat -> Reply, n: nat): seq<Event>
  {
    var closes := Issued(answer, n, CloseChildEndsActs(rd));
    if SomeFails(answer, n, CloseChildEndsActs(rd)) then closes
    else closes + HandleEvents(hProcess, hThread, answer, n + |closes|)
  }

  /** All the calls of launch, CreateProcess sitting at n. */
  function LaunchEvents(image: CString, args: Option<seq<CString>>, rd: Redirector, k: Kernel,
                        answer: nat -> Reply, n: nat): seq<Event>
  {
    [Sys(CreateCall(image, args, StartupInfoFor(rd, k)))] +
      if answer(n).ret == 0 then []
      else CreatedEvents(rd, answer(n).Out(0), answer(n).Out(1), answer, n + 1)
  }

  /** The cleanup after a failed DuplicateHandle, whose error is passed. */
  method DupFailed(k: Kernel, hProcess: int, hThread: int, lastError: int) returns (o: Outcome)
    modifies k
    ensures k.trace == old(k.trace) + DupFailedEvents(hProcess, hThread)
    ensures o == Raised(ThrowSystemError(CreateError, lastError, MSG_DUPLICATE))
  {
    var _ := k.Call(TerminateProcess(hProcess, 1));
    var _ := k.Call(CloseHandle(hProcess));
    var _ := k.Call(CloseHandle(hThread));
    o := Raised(ThrowSystemError(CreateError, lastError, MSG_DUPLICATE));
  }

  /** From closing the returned process handle to resuming the thread. */
  method Resume(k: Kernel, hProcess: int, hThread: int, handle: int) returns (o: Outcome)
    modifies k
    ensures k.trace == old(k.trace) + ResumeEvents(hProcess, hThread, handle, k.answer, old(|k.trace|) + 1)
    ensures var r := k.answer(old(|k.trace|) + 1);
      o == if r.ret == 0 then Raised(ThrowSystemError(CreateError, r.err, MSG_RESUME)) else Done
  {
    ghost var before := k.trace;
    var _ := k.Call(CloseHandle(hProcess));
    var r := k.Call(ResumeThread(hThread));
    ghost var mid := k.trace;
    ghost var head := [Sys(CloseHandle(hProcess)), Sys(ResumeThread(hThread))];
    assert mid == before + head;
    ghost var tail: seq<Event>;
    if r.ret == 0 {
      o := ResumeFailed(k, hThread, handle, k.errno);
      tail := [Sys(TerminateProcess(handle, 1)), Sys(CloseHandle(hThread)), Sys(CloseHandle(handle))];
    } else {
      var _ := k.Call(CloseHandle(hThread));
      o := Done;
      tail := [Sys(CloseHandle(hThread))];
    }
    ConcatAssoc(before, head, tail);
  }

  /** The cleanup after ResumeThread returned 0, whose error is passed:
      terminate the child through the duplicated handle and close both. */
  method ResumeFailed(k: Kernel, hThread: int, handle: int, lastError: int) returns (o: Outcome)
    modifies k
    ensures k.trace == old(k.trace) +
      [Sys(TerminateProcess(handle, 1)), Sys(CloseHandle(hThread)), Sys(CloseHandle(handle))]
    ensures o == Raised(ThrowSystemError(CreateError, lastError, MSG_RESUME))
  {
    var _ := k.Call(TerminateProcess(handle, 1));
    var _ := k.Call(CloseHandle(hThread));
    var _ := k.Call(CloseHandle(handle));
    o := Raised(ThrowSystemError(CreateError, lastError, MSG_RESUME));
  }

  /** The second half of launch: the child's pid is recorded, then
      DuplicateHandle and the rest. */
  method OpenAndResume(proc: ProcessWin32.Process, hProcess: int, hThread: int, pid: int) returns (o: Outcome)
    modifies proc, proc.k
    ensures proc.k.trace == old(proc.k.trace) + HandleEvents(hProcess, hThread, proc.k.answer, old(|proc.k.trace|))
    ensures o == HandleOutcome(proc.k.answer, old(|proc.k.trace|))
    ensures proc.process == proc.k.answer(old(|proc.k.trace|)).Out(0) && proc.pid == pid
  {
    proc.SetPid(pid);
    var k := proc.k;
    ghost var before := k.trace;
    var d := k.Call(DuplicateHandle(hProcess, PROCESS_ALL_ACCESS, false, 0));
    proc.SetProcessHandle(d.Out(0));
    ghost var mid := k.trace;
    assert mid == before + [Sys(DuplicateHandle(hProcess, PROCESS_ALL_ACCESS, false, 0))];
    ghost var tail: seq<Event>;
    if d.ret == 0 {
      o := DupFailed(k, hProcess, hThread, d.err);
      tail := DupFailedEvents(hProcess, hThread);
    } else {
      o := Resume(k, hProcess, hThread, proc.process);
      tail := ResumeEvents(hProcess, hThread, d.Out(0), k.answer, |before| + 2);
    }
    assert k.trace == mid + tail;
    assert mid + tail == before + ([Sys(DuplicateHandle(hProcess, PROCESS_ALL_ACCESS, false, 0))] + tail);
  }

  /** What launch leaves once CreateProcess succeeded, close_child_ends
      starting at n: a raise from close_child_ends, or the outcome of
      DuplicateHandle and ResumeThread with the child's pid recorded and
      the duplicated handle kept. */
  predicate AfterCreateResult(rd: Redirector, answer: nat -> Reply, n: nat, o: Outcome,
                              childPid: int, pid: int, process: int)
  {
    var closeActs := CloseChildEndsActs(rd);
    if SomeFails(answer, n, closeActs) then o.Raised? && o.error.kind == PipeError
    else
      var m := n + |Issued(answer, n, closeActs)|;
      o == HandleOutcome(answer, m) && pid == childPid && process == answer(m).Out(0)
  }

  /** launch from close_child_ends on, once CreateProcess gave the two
      handles and the pid. */
  method AfterCreate(proc: ProcessWin32.Process, rd: Redirector, hProcess: int, hThread: int, pid: int)
    returns (o: Outcome)
    requires rd.On(proc.k)
    modifies proc, proc.k
    ensures var n := old(|proc.k.trace|);
      proc.k.trace == old(proc.k.trace) + CreatedEvents(rd, hProcess, hThread, proc.k.answer, n)
    ensures AfterCreateResult(rd, proc.k.answer, old(|proc.k.trace|), o, pid, proc.pid, proc.process)
  {
    hide Issued, SomeFails, HandleEvents, HandleOutcome;
    var k := proc.k;
    ghost var n, before := |k.trace|, k.trace;
    var closed := RedirectionWin32.CloseChildEnds(rd, k);
    ghost var closes := Issued(k.answer, n, CloseChildEndsActs(rd));
    if closed.Raised? {
      assert CreatedEvents(rd, hProcess, hThread, k.answer, n) == closes;
      return closed;
    }
    ghost var m := |k.trace|;
    assert m == n + |closes|;
    o := OpenAndResume(proc, hProcess, hThread, pid);
    ghost var handles := HandleEvents(hProcess, hThread, k.answer, m);
    assert CreatedEvents(rd, hProcess, hThread, k.answer, n) == closes + handles;
    ConcatAssoc(before, closes, handles);
  }

  /** The CreateProcess call of launch, with its command line and
      STARTUPINFO built first. */
  method Create(k: Kernel, prog: Programs.Binary, rd: Redirector) returns (created: Reply)
    modifies k
    ensures k.trace == old(k.trace) + [Sys(CreateCall(prog.path, prog.args, StartupInfoFor(rd, k)))]
    ensures created == k.answer(old(|k.trace|))
  {
    var si := NewStartupInfo(rd, k);
    assert si == StartupInfoFor(rd, k);
    var cl := BuildCommandLine(prog.args);
    created := k.Call(CreateProcess(prog.path, cl, true, CREATE_SUSPENDED, None, si));
  }

  /** launch(prog, red). */
  method Launch(proc: ProcessWin32.Process, prog: Programs.Binary, rd: Redirector) returns (o: Outcome)
    requires rd.On(proc.k)
    modifies proc, proc.k
    ensures var n := old(|proc.k.trace|);
      proc.k.trace == old(proc.k.trace) + LaunchEvents(prog.path, prog.args, rd, proc.k, proc.k.answer, n)
    ensures var created := proc.k.answer(old(|proc.k.trace|));
      created.ret == 0 ==> o == Raised(CreateFailure(created.err)) && proc.pid == old(proc.pid)
    ensures var created := proc.k.answer(old(|proc.k.trace|));
      created.ret != 0 ==>
        AfterCreateResult(rd, proc.k.answer, old(|proc.k.trace|) + 1, o, created.Out(2), proc.pid, proc.process)
  {
    var k := proc.k;
    ghost var before := k.trace;
    var created := Create(k, prog, rd);
    ghost var create := [Sys(CreateCall(prog.path, prog.args, StartupInfoFor(rd, k)))];
    assert k.trace == before + create;
    if created.ret == 0 {
      assert LaunchEvents(prog.path, prog.args, rd, k, k.answer, |before|) == create + [];
      return Raised(CreateFailure(created.err));
    }
    o := AfterCreate(proc, rd, created.Out(0), created.Out(1), created.Out(2));
    ghost var rest := CreatedEvents(rd, created.Out(0), created.Out(1), k.answer, |before| + 1);
    assert LaunchEvents(prog.path, prog.args, rd, k, k.answer, |before|) == create + rest;
    ConcatAssoc(before, create, rest);
  }

  /** The named_process_win32 constructors: (prog) launches with
      null_redirector, (prog, red) with the given redirector. */
  method NewNamedProcessWin32(k: Kernel, prog: Programs.Binary, rd: Redirector)
    returns (proc: ProcessWin32.Process, o: Outcome)
    requires rd.On(k)
    modifies k
    ensures fresh(proc) && proc.k == k
    ensures k.trace == old(k.trace) + LaunchEvents(prog.path, prog.args, rd, k, k.answer, old(|k.trace|))
    ensures k.answer(old(|k.trace|)).ret == 0 ==> o == Raised(CreateFailure(k.answer(old(|k.trace|)).err))
  {
    proc := new ProcessWin32.Process.NoInit(k);
    o := Launch(proc, prog, rd);
  }

  /** On a successful launch the parent closes the thread handle and the
      process handle CreateProcess returned, and keeps only the duplicated
      one; without redirection it starts the child with a zeroed
      STARTUPINFO apart from its size. */
  lemma {:induction false} SuccessfulLaunchCloses(image: CString, args: Option<seq<CString>>, k: Kernel,
                                                  answer: nat -> Reply, n: nat)
    requires answer(n).ret != 0 && answer(n + 1).ret != 0 && answer(n + 3).ret != 0
    ensures var t := LaunchEvents(image, args, NullRedirector, k, answer, n);
      var hProcess, hThread := answer(n).Out(0), answer(n).Out(1);
      t == [Sys(CreateProcess(image, CommandLine(args), true, CREATE_SUSPENDED, None,
                              StartupInfo(SIZEOF_STARTUPINFO, 0, 0, 0, 0))),
            Sys(DuplicateHandle(hProcess, PROCESS_ALL_ACCESS, false, 0)),
            Sys(CloseHandle(hProcess)), Sys(ResumeThread(hThread)), Sys(CloseHandle(hThread))]
    ensures HandleOutcome(answer, n + 1) == Done
  {
    assert Issued(answer, n + 1, CloseChildEndsActs(NullRedirector)) == [];
  }

  /** A successful launch with any redirector: CreateProcess, every close of
      close_child_ends, DuplicateHandle, then the process handle
      CreateProcess returned and the thread handle are closed around
      ResumeThread; the ends the child uses are among the handles closed. */
  lemma SuccessfulLaunchClosesChildEnds(image: CString, args: Option<seq<CString>>, rd: Redirector, k: Kernel,
                                        answer: nat -> Reply, n: nat)
    requires answer(n).ret != 0 && !SomeFails(answer, n + 1, CloseChildEndsActs(rd))
    requires answer(n + 1 + |CloseChildEndsActs(rd)|).ret != 0 && answer(n + 3 + |CloseChildEndsActs(rd)|).ret != 0
    ensures var hProcess, hThread := answer(n).Out(0), answer(n).Out(1);
      LaunchEvents(image, args, rd, k, answer, n) ==
        [Sys(CreateCall(image, args, StartupInfoFor(rd, k)))] + Issued(answer, n + 1, CloseChildEndsActs(rd)) +
        [Sys(DuplicateHandle(hProcess, PROCESS_ALL_ACCESS, false, 0)),
         Sys(CloseHandle(hProcess)), Sys(ResumeThread(hThread)), Sys(CloseHandle(hThread))]
    ensures HandleOutcome(answer, n + 1 + |CloseChildEndsActs(rd)|) == Done
    ensures var t := LaunchEvents(image, args, rd, k, answer, n);
      (rd.StdinRedirect? ==> Sys(CloseHandle(rd.pipe.readHandle)) in t) &&
      (rd.StdoutRedirect? ==> Sys(CloseHandle(rd.pipe.writeHandle)) in t) &&
      (rd.BothRedirect? ==> Sys(CloseHandle(rd.outPipe.writeHandle)) in t && Sys(CloseHandle(rd.inPipe.readHandle)) in t)
  {
    var acts := CloseChildEndsActs(rd);
    var closes := Issued(answer, n + 1, acts);
    IssuedAll(answer, n + 1, acts);
    var hProcess, hThread := answer(n).Out(0), answer(n).Out(1);
    var m := n + 1 + |acts|;
    var handles := HandleEvents(hProcess, hThread, answer, m);
    assert handles == [Sys(DuplicateHandle(hProcess, PROCESS_ALL_ACCESS, false, 0)),
                       Sys(CloseHandle(hProcess)), Sys(ResumeThread(hThread)), Sys(CloseHandle(hThread))];
    var create := [Sys(CreateCall(image, args, StartupInfoFor(rd, k)))];
    var t := LaunchEvents(image, args, rd, k, answer, n);
    assert t == create + (closes + handles);
    ConcatAssoc(create, closes, handles);
    if rd.BothRedirect? {
      assert t[2] == closes[1];
    }
    if !rd.NullRedirector? {
      assert t[1] == closes[0];
    }
  }

  /** ResumeThread reports failure with (DWORD)-1, yet launch only treats
      a return of 0 as failure: a thread that was not suspended makes the
      launch raise, while a ResumeThread that failed lets it succeed. */
  lemma ResumeThreadCheck(answer: nat -> Reply, m: nat)
    requires answer(m).ret != 0
    ensures answer(m + 2).ret == 0xFFFF_FFFF ==> HandleOutcome(answer, m) == Done
    ensures answer(m + 2).ret == 0 ==> HandleOutcome(answer, m).Raised?
  {
  }
}
