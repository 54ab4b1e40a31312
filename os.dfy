/** The operating system as the process library sees it.

    Every OS primitive (pipe, close, dup2, fcntl, fork, exec*, waitpid, kill,
    CreatePipe, CreateProcess, DuplicateHandle, ResumeThread, ...) is an
    uninterpreted call: the model records THAT it was issued, with which
    arguments and in which order, and takes its result as an input. A
    `Kernel` is one process's view: an oracle `answer` gives the reply to the
    n-th entry of the trace, and `trace` is the ordered log of everything
    the process did (system calls, fork hooks, the user's function). The
    descriptor table is not stored: `Fds()` derives it from the trace. */
module Os {
  import opened CValues

  // POSIX constants (Linux values).
  const STDIN_FILENO: int := 0
  const STDOUT_FILENO: int := 1
  const F_SETFD: int := 2
  const FD_CLOEXEC: int := 1
  const WNOHANG: int := 1
  const ESRCH: int := 3
  const SIGINT: int := 2
  const SIGKILL: int := 9
  const SIGUSR1: int := 10
  const SIGUSR2: int := 12
  const SIGTERM: int := 15
  const SIZEOF_INT: int := 4

  // Win32 constants.
  const NULL_HANDLE: int := 0
  const INVALID_HANDLE_VALUE: int := -1
  /** What GetCurrentProcess() returns: the pseudo-handle (HANDLE)-1. */
  const CURRENT_PROCESS_PSEUDO_HANDLE: int := -1
  const ERROR_FILE_NOT_FOUND: int := 2
  const STARTF_USESTDHANDLES: int := 0x100
  const CREATE_SUSPENDED: int := 0x4
  const HANDLE_FLAG_INHERIT: int := 0x1
  const INFINITE: int := 0xFFFF_FFFF
  const WAIT_OBJECT_0: int := 0
  const WAIT_FAILED: int := 0xFFFF_FFFF
  /** PROCESS_ALL_ACCESS, which already includes SYNCHRONIZE. */
  const PROCESS_ALL_ACCESS: int := 0x1F_0FFF
  /** sizeof(STARTUPINFO) on 32-bit Windows. */
  const SIZEOF_STARTUPINFO: int := 68

  /** The STARTUPINFO fields the library sets; ZeroMemory makes the rest 0. */
  datatype StartupInfo = StartupInfo(cb: int, dwFlags: int, hStdInput: int, hStdOutput: int, hStdError: int)

  /** The decoding macros of <sys/wait.h>. Their bit layout is platform
      law and not part of the model, so they are parameters. */
  datatype WaitMacros = WaitMacros(
    ifExited: int -> bool, exitStatus: int -> int,
    ifSignaled: int -> bool, termSig: int -> int)

  datatype Syscall =
    // POSIX
    | Pipe
    | Close(fd: int)
    | Dup2(fd: int, target: int)
    | Fcntl(fd: int, cmd: int, arg: int)
    | Fork
    | Execvp(file: CString, argv: Option<seq<CString>>)
    | Execv(path: CString, argv: Option<seq<CString>>)
    | Execve(path: CString, argv: Option<seq<CString>>, envp: Option<seq<CString>>)
    | Write(fd: int, words: seq<int>)
    | Read(fd: int, bytes: int)
    | Exit(code: int)
    | Kill(pid: int, sig: int)
    | WaitPid(pid: int, options: int)
    | GetPid
    // Win32
    | CreatePipe(inheritable: bool)
    | CloseHandle(h: int)
    | SetHandleInformation(h: int, mask: int, flags: int)
    | CreateProcess(image: CString, commandLine: CString, inheritHandles: bool,
                    creationFlags: int, environment: Option<seq<CString>>, startup: StartupInfo)
    | DuplicateHandle(source: int, access: int, inheritable: bool, options: int)
    | ResumeThread(thread: int)
    | TerminateProcess(h: int, exitCode: int)
    | WaitForSingleObject(h: int, timeout: int)
    | GetExitCodeProcess(h: int)
    | OpenProcess(access: int, inheritable: bool, pid: int)
    | GetCurrentProcessId

  /** The points at which unix_fork calls its hooks. */
  datatype HookPoint = PreFork | ForkStart | ForkEnd | PostFork

  datatype Event =
    | Sys(call: Syscall)
    | Hook(point: HookPoint)
    /** The user's function ran in the forked child. */
    | UserCode

  /** What a system call answered: its return value, errno (or
      GetLastError()) afterwards, and its out-parameters. */
  datatype Reply = Reply(ret: int, err: int, outs: seq<int>)
  {
    /** The i-th out-parameter (0 when the call wrote none). */
    function Out(i: nat): int
    {
      if i < |outs| then outs[i] else 0
    }
  }

  /** Descriptors and handles a process holds, which of them a child would
      inherit, and which descriptor each standard slot was dup2'ed from. */
  datatype FdState = FdState(open: set<int>, inheritable: set<int>, stdio: map<int, int>)

  /** The effect of one event on the descriptor table, given its reply. */
  function Step(s: FdState, e: Event, r: Reply): FdState
  {
    match e
    case Sys(Pipe) =>
      if r.ret != -1 then s.(open := s.open + {r.Out(0), r.Out(1)}) else s
    case Sys(Close(fd)) =>
      if r.ret != -1 then s.(open := s.open - {fd}) else s
    case Sys(Dup2(fd, target)) =>
      if r.ret != -1 then s.(open := s.open + {target}, stdio := s.stdio[target := fd]) else s
    case Sys(CreatePipe(inh)) =>
      if r.ret != 0 then
        s.(open := s.open + {r.Out(0), r.Out(1)},
           inheritable := if inh then s.inheritable + {r.Out(0), r.Out(1)} else s.inheritable)
      else s
    case Sys(CloseHandle(h)) =>
      if r.ret != 0 then s.(open := s.open - {h}, inheritable := s.inheritable - {h}) else s
    case Sys(SetHandleInformation(h, mask, flags)) =>
      if r.ret != 0 && mask == HANDLE_FLAG_INHERIT then
        s.(inheritable := if flags == 0 then s.inheritable - {h} else s.inheritable + {h})
      else s
    case Sys(CreateProcess(_, _, _, _, _, _)) =>
      if r.ret != 0 then s.(open := s.open + {r.Out(0), r.Out(1)}) else s
    case Sys(DuplicateHandle(_, _, _, _)) =>
      if r.ret != 0 then s.(open := s.open + {r.Out(0)}) else s
    case Sys(OpenProcess(_, _, _)) =>
      if r.ret != 0 then s.(open := s.open + {r.ret}) else s
    case _ => s
  }

  /** The descriptor table after a trace, each entry answered by `answer`
      at its own position. */
  function Replay(answer: nat -> Reply, initial: FdState, t: seq<Event>): FdState
    decreases |t|
  {
    if t == [] then initial
    else Step(Replay(answer, initial, t[..|t| - 1]), t[|t| - 1], answer(|t| - 1))
  }

  /** The system calls of a trace, in order. */
  function Calls(t: seq<Event>): (cs: seq<Syscall>)
    ensures |cs| <= |t|
  {
    if t == [] then []
    else Calls(t[..|t| - 1]) + (if t[|t| - 1].Sys? then [t[|t| - 1].call] else [])
  }

  /** How a library routine reads a call's reply: as a failure when it
      returned -1 (POSIX), when it returned 0 (Win32 BOOL), or never (the
      result is ignored). */
  datatype Check = FailsOnMinusOne | FailsOnZero | NeverFails

  predicate Fails(c: Check, r: Reply)
  {
    match c
    case FailsOnMinusOne => r.ret == -1
    case FailsOnZero => r.ret == 0
    case NeverFails => false
  }

  /** One step of a routine that stops (raises) at the first failing call. */
  datatype Action = Action(call: Syscall, check: Check)

  /** The events a run of `acts` logs when the first of them sits at trace
      position n: every call up to and including the first failing one. */
  function Issued(answer: nat -> Reply, n: nat, acts: seq<Action>): (t: seq<Event>)
    ensures |t| <= |acts|
    ensures acts != [] ==> |t| > 0 && t[0] == Sys(acts[0].call)
    decreases |acts|
  {
    if acts == [] then []
    else
      var rest := if Fails(acts[0].check, answer(n)) then [] else Issued(answer, n + 1, acts[1..]);
      [Sys(acts[0].call)] + rest
  }

  /** Whether one of the calls that run fails, so the routine raises. */
  predicate SomeFails(answer: nat -> Reply, n: nat, acts: seq<Action>)
    decreases |acts|
  {
    acts != [] &&
    (Fails(acts[0].check, answer(n)) || SomeFails(answer, n + 1, acts[1..]))
  }

  /** One step of a run: the first call is issued, and the rest run only
      when it did not fail. */
  lemma IssuedUnfold(answer: nat -> Reply, n: nat, acts: seq<Action>)
    requires acts != []
    ensures Issued(answer, n, acts) == [Sys(acts[0].call)] +
      (if Fails(acts[0].check, answer(n)) then [] else Issued(answer, n + 1, acts[1..]))
    ensures SomeFails(answer, n, acts) <==>
      Fails(acts[0].check, answer(n)) || SomeFails(answer, n + 1, acts[1..])
  {
  }

  /** Running `a` then `b` is running `a + b`, where `b` starts only when
      nothing in `a` failed. */
  lemma IssuedAppend(answer: nat -> Reply, n: nat, a: seq<Action>, b: seq<Action>)
    ensures Issued(answer, n, a + b) ==
      Issued(answer, n, a) + (if SomeFails(answer, n, a) then [] else Issued(answer, n + |a|, b))
    ensures SomeFails(answer, n, a + b) <==>
      SomeFails(answer, n, a) || SomeFails(answer, n + |a|, b)
  {
    IssuedCallsAppend(answer, n, a, b);
    SomeFailsAppend(answer, n, a, b);
  }

  lemma {:induction false} IssuedCallsAppend(answer: nat -> Reply, n: nat, a: seq<Action>, b: seq<Action>)
    ensures Issued(answer, n, a + b) ==
      Issued(answer, n, a) + (if SomeFails(answer, n, a) then [] else Issued(answer, n + |a|, b))
    decreases |a|
  {
    if a == [] {
      assert a + b == b;
    } else if Fails(a[0].check, answer(n)) {
      IssuedStopsAtFailure(answer, n, a, b);
    } else {
      IssuedCallsAppend(answer, n + 1, a[1..], b);
      IssuedContinues(answer, n, a, b);
      ConcatAssoc([Sys(a[0].call)], Issued(answer, n + 1, a[1..]),
        if SomeFails(answer, n + 1, a[1..]) then [] else Issued(answer, n + |a|, b));
    }
  }

  /** A first call that fails ends the run, whatever follows it. */
  lemma IssuedStopsAtFailure(answer: nat -> Reply, n: nat, a: seq<Action>, b: seq<Action>)
    requires a != [] && Fails(a[0].check, answer(n))
    ensures Issued(answer, n, a + b) == Issued(answer, n, a) == [Sys(a[0].call)]
    ensures SomeFails(answer, n, a)
  {
    assert (a + b)[0] == a[0];
  }

  /** A first call that succeeds is followed by the rest of the run. */
  lemma IssuedContinues(answer: nat -> Reply, n: nat, a: seq<Action>, b: seq<Action>)
    requires a != [] && !Fails(a[0].check, answer(n))
    ensures Issued(answer, n, a + b) == [Sys(a[0].call)] + Issued(answer, n + 1, a[1..] + b)
    ensures Issued(answer, n, a) == [Sys(a[0].call)] + Issued(answer, n + 1, a[1..])
    ensures SomeFails(answer, n, a) == SomeFails(answer, n + 1, a[1..])
  {
    assert (a + b)[0] == a[0] && (a + b)[1..] == a[1..] + b;
  }

  /** When no call fails, every action runs, in order. */
  lemma {:induction false} IssuedAll(answer: nat -> Reply, n: nat, acts: seq<Action>)
    requires !SomeFails(answer, n, acts)
    ensures |Issued(answer, n, acts)| == |acts|
    ensures forall j :: 0 <= j < |acts| ==> Issued(answer, n, acts)[j] == Sys(acts[j].call)
    decreases |acts|
  {
    if acts != [] {
      IssuedAll(answer, n + 1, acts[1..]);
      IssuedUnfold(answer, n, acts);
      forall j | 1 <= j < |acts|
        ensures Issued(answer, n, acts)[j] == Sys(acts[j].call)
      {
        assert Issued(answer, n, acts)[j] == Issued(answer, n + 1, acts[1..])[j - 1];
        assert acts[1..][j - 1] == acts[j];
      }
    }
  }

  lemma ConcatAssoc(a: seq<Event>, b: seq<Event>, c: seq<Event>)
    ensures (a + b) + c == a + (b + c)
  {
  }

  lemma {:induction false} SomeFailsAppend(answer: nat -> Reply, n: nat, a: seq<Action>, b: seq<Action>)
    ensures SomeFails(answer, n, a + b) <==>
      SomeFails(answer, n, a) || SomeFails(answer, n + |a|, b)
    decreases |a|
  {
    if a == [] {
      assert a + b == b;
    } else {
      assert (a + b)[0] == a[0] && (a + b)[1..] == a[1..] + b;
      SomeFailsAppend(answer, n + 1, a[1..], b);
    }
  }

  class Kernel {
    /** The oracle: the reply to the system call at trace position n. */
    const answer: nat -> Reply
    /** The descriptor table when the model starts. */
    const initial: FdState
    /** The handles GetStdHandle returns for STD_INPUT/OUTPUT/ERROR_HANDLE. */
    const stdInput: int
    const stdOutput: int
    const stdError: int
    /** The platform's wait-status decoding. */
    const waitMacros: WaitMacros

    var trace: seq<Event>
    /** errno (or GetLastError()) as the latest system call left it. */
    var errno: int

    constructor (answer: nat -> Reply, initial: FdState, stdInput: int, stdOutput: int,
                 stdError: int, waitMacros: WaitMacros, errno: int)
      ensures this.answer == answer && this.initial == initial
      ensures this.stdInput == stdInput && this.stdOutput == stdOutput && this.stdError == stdError
      ensures this.waitMacros == waitMacros
      ensures trace == [] && this.errno == errno
    {
      this.answer, this.initial := answer, initial;
      this.stdInput, this.stdOutput, this.stdError := stdInput, stdOutput, stdError;
      this.waitMacros := waitMacros;
      trace, this.errno := [], errno;
    }

    /** The reply the next system call will get. */
    function Next(): Reply
      reads this
    {
      answer(|trace|)
    }

    /** The current descriptor table. */
    function Fds(): FdState
      reads this
    {
      Replay(answer, initial, trace)
    }

    /** Issue a system call: it is logged, errno takes the value it left,
        and its reply is returned. */
    method Call(c: Syscall) returns (r: Reply)
      modifies this
      ensures r == old(Next())
      ensures trace == old(trace) + [Sys(c)]
      ensures errno == r.err
      ensures Fds() == Step(old(Fds()), Sys(c), r)
    {
      r := answer(|trace|);
      trace := trace + [Sys(c)];
      errno := r.err;
      assert trace[..|trace| - 1] == old(trace);
    }

    /** Log an event that is not a system call (a hook, the user's code). */
    method Mark(e: Event)
      requires !e.Sys?
      modifies this
      ensures trace == old(trace) + [e]
      ensures errno == old(errno)
      ensures Fds() == old(Fds())
    {
      trace := trace + [e];
      assert trace[..|trace| - 1] == old(trace);
    }
  }
}
