/** process_unix (detail/process_unix.hpp): a handle on a process by pid,
    with waiting and signalling. Every outcome is decided by the result of
    kill() or waitpid(). */
module ProcessUnix {
  import opened Os
  import opened ProcessErrors
  import opened Status

  /** The signals enum. */
  datatype Signal = SigKill | SigTerm | SigInt | SigUsr1 | SigUsr2

  function SignalNumber(s: Signal): (n: int)
    ensures n in {SIGKILL, SIGTERM, SIGINT, SIGUSR1, SIGUSR2}
    ensures s == SigKill ==> n == SIGKILL
    ensures s == SigTerm ==> n == SIGTERM
    ensures s == SigInt ==> n == SIGINT
    ensures s == SigUsr1 ==> n == SIGUSR1
    ensures s == SigUsr2 ==> n == SIGUSR2
  {
    match s
    case SigKill => SIGKILL
    case SigTerm => SIGTERM
    case SigInt => SIGINT
    case SigUsr1 => SIGUSR1
    case SigUsr2 => SIGUSR2
  }

  /** The signals are distinct numbers. */
  lemma SignalNumbersDistinct(a: Signal, b: Signal)
    ensures SignalNumber(a) == SignalNumber(b) <==> a == b
  {
  }

  const MSG_OPEN := "could not open process"
  const MSG_WAIT := "could not wait for process"
  const MSG_TERMINATE := "could not terminate process"
  const MSG_KILL := "could not kill process"

  /** do_wait_pid: raises wait_error exactly when waitpid returned -1, and
      otherwise wraps the status word it wrote. */
  method DoWaitPid(k: Kernel, pid: int, flags: int) returns (r: Result<ProcessStatus>)
    modifies k
    ensures k.trace == old(k.trace) + [Sys(WaitPid(pid, flags))]
    ensures r.Err? <==> old(k.Next()).ret == -1
    ensures r.Err? ==> r.error == ThrowSystemError(WaitError, old(k.Next()).err, MSG_WAIT)
    ensures r.Ok? ==> r.value == UnixStatus(old(k.Next()).Out(0), k.waitMacros)
  {
    var reply := k.Call(WaitPid(pid, flags));
    if reply.ret == -1 {
      r := Err(ThrowSystemError(WaitError, reply.err, MSG_WAIT));
    } else {
      r := Ok(UnixStatus(reply.Out(0), k.waitMacros));
    }
  }

  class Process {
    const k: Kernel
    var pid: int

    /** The no_init constructor used by subclasses that set the pid later. */
    constructor NoInit(k: Kernel)
      ensures this.k == k && pid == 0
    {
      this.k := k;
      pid := 0;
    }

    constructor WithPid(k: Kernel, pid: int)
      ensures this.k == k && this.pid == pid
    {
      this.k, this.pid := k, pid;
    }

    /** pid(p): set by the subclasses that fork. */
    method SetPid(p: int)
      modifies this
      ensures pid == p
    {
      pid := p;
    }

    /** wait(): waitpid with flags 0, which blocks. */
    method Wait() returns (r: Result<ProcessStatus>)
      modifies k
      ensures k.trace == old(k.trace) + [Sys(WaitPid(pid, 0))]
      ensures r.Err? <==> old(k.Next()).ret == -1
      ensures r.Err? ==> r.error == ThrowSystemError(WaitError, old(k.Next()).err, MSG_WAIT)
      ensures r.Ok? ==> r.value == UnixStatus(old(k.Next()).Out(0), k.waitMacros)
    {
      r := DoWaitPid(k, pid, 0);
    }

    /** wait_nb(): waitpid with WNOHANG, which does not block. */
    method WaitNb() returns (r: Result<ProcessStatus>)
      modifies k
      ensures k.trace == old(k.trace) + [Sys(WaitPid(pid, WNOHANG))]
      ensures r.Err? <==> old(k.Next()).ret == -1
      ensures r.Err? ==> r.error == ThrowSystemError(WaitError, old(k.Next()).err, MSG_WAIT)
      ensures r.Ok? ==> r.value == UnixStatus(old(k.Next()).Out(0), k.waitMacros)
    {
      r := DoWaitPid(k, pid, WNOHANG);
    }

    /** do_signal: true unless kill returned -1. */
    method DoSignal(s: Signal) returns (ok: bool)
      modifies k
      ensures k.trace == old(k.trace) + [Sys(Os.Kill(pid, SignalNumber(s)))]
      ensures ok <==> old(k.Next()).ret != -1
      ensures k.errno == old(k.Next()).err
    {
      var reply := k.Call(Os.Kill(pid, SignalNumber(s)));
      ok := reply.ret != -1;
    }

    /** terminate(nothrow): SIGTERM. */
    method TerminateNothrow() returns (ok: bool)
      modifies k
      ensures k.trace == old(k.trace) + [Sys(Os.Kill(pid, SIGTERM))]
      ensures ok <==> old(k.Next()).ret != -1
    {
      ok := DoSignal(SigTerm);
    }

    /** terminate(): SIGTERM, raising signal_error when kill failed. */
    method Terminate() returns (o: Outcome)
      modifies k
      ensures k.trace == old(k.trace) + [Sys(Os.Kill(pid, SIGTERM))]
      ensures o.Raised? <==> old(k.Next()).ret == -1
      ensures o.Raised? ==> o.error == ThrowSystemError(SignalError, old(k.Next()).err, MSG_TERMINATE)
    {
      var ok := DoSignal(SigTerm);
      o := if ok then Done else Raised(ThrowSystemError(SignalError, k.errno, MSG_TERMINATE));
    }

    /** kill(nothrow): SIGKILL. */
    method KillNothrow() returns (ok: bool)
      modifies k
      ensures k.trace == old(k.trace) + [Sys(Os.Kill(pid, SIGKILL))]
      ensures ok <==> old(k.Next()).ret != -1
    {
      ok := DoSignal(SigKill);
    }

    /** kill(): SIGKILL, raising signal_error when kill failed. */
    method Kill() returns (o: Outcome)
      modifies k
      ensures k.trace == old(k.trace) + [Sys(Os.Kill(pid, SIGKILL))]
      ensures o.Raised? <==> old(k.Next()).ret == -1
      ensures o.Raised? ==> o.error == ThrowSystemError(SignalError, old(k.Next()).err, MSG_KILL)
    {
      var ok := DoSignal(SigKill);
      o := if ok then Done else Raised(ThrowSystemError(SignalError, k.errno, MSG_KILL));
    }
  }

  /** process_unix(p): pid 0 is refused with ESRCH without asking the
      system; any other pid is probed with kill(p, 0) and refused only when
      that failed with ESRCH (a permission error still opens it). */
  method Open(k: Kernel, p: int) returns (r: Result<Process>)
    modifies k
    ensures p == 0 ==> k.trace == old(k.trace) && r == Err(ThrowSystemError(PidError, ESRCH, MSG_OPEN))
    ensures p != 0 ==> k.trace == old(k.trace) + [Sys(Kill(p, 0))]
    ensures p != 0 ==> (r.Err? <==> old(k.Next()).ret == -1 && old(k.Next()).err == ESRCH)
    ensures p != 0 && r.Err? ==> r.error == ThrowSystemError(PidError, ESRCH, MSG_OPEN)
    ensures r.Ok? ==> fresh(r.value) && r.value.k == k && r.value.pid == p
  {
    if p == 0 {
      return Err(ThrowSystemError(PidError, ESRCH, MSG_OPEN));
    }
    var reply := k.Call(Kill(p, 0));
    if reply.ret == -1 && k.errno == ESRCH {
      return Err(ThrowSystemError(PidError, k.errno, MSG_OPEN));
    }
    var proc := new Process.WithPid(k, p);
    r := Ok(proc);
  }

  /** process_unix(): the current process, by getpid(). */
  method Current(k: Kernel) returns (proc: Process)
    modifies k
    ensures k.trace == old(k.trace) + [Sys(GetPid)]
    ensures fresh(proc) && proc.k == k && proc.pid == old(k.Next()).ret
  {
    var reply := k.Call(GetPid);
    proc := new Process.WithPid(k, reply.ret);
  }
}
