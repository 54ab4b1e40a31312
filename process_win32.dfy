/** process_win32 (detail/process_win32.hpp): a process held by its pid and
    a process handle, which is the GetCurrentProcess() pseudo-handle for
    the current process and a real handle otherwise. */
module ProcessWin32 {
  import opened CValues
  import opened Os
  import opened ProcessErrors
  import opened Status

  const MSG_OPEN := "could not open process"
  const MSG_WAIT := "could not blocking wait"
  const MSG_KILL := "could not kill process"

  class Process {
    const k: Kernel
    var pid: int
    var process: int

    /** The no_init constructor for subclasses that set both later; the
        fields start out as 0. */
    constructor NoInit(k: Kernel)
      ensures this.k == k && pid == 0 && process == 0
    {
      this.k := k;
      pid, process := 0, 0;
    }

    constructor WithHandle(k: Kernel, pid: int, process: int)
      ensures this.k == k && this.pid == pid && this.process == process
    {
      this.k := k;
      this.pid, this.process := pid, process;
    }

    /** pid(p). */
    method SetPid(p: int)
      modifies this
      ensures pid == p && process == old(process)
    {
      pid := p;
    }

    /** process_handle() as an lvalue. */
    method SetProcessHandle(h: int)
      modifies this
      ensures process == h && pid == old(pid)
    {
      process := h;
    }

    /** The destructor: closes the handle unless it is the pseudo-handle. */
    method Destroy()
      modifies k
      ensures process == CURRENT_PROCESS_PSEUDO_HANDLE ==> k.trace == old(k.trace)
      ensures process != CURRENT_PROCESS_PSEUDO_HANDLE ==> k.trace == old(k.trace) + [Sys(CloseHandle(process))]
    {
      if process != CURRENT_PROCESS_PSEUDO_HANDLE {
        var _ := k.Call(CloseHandle(process));
      }
    }

    /** wait(): an infinite WaitForSingleObject; WAIT_FAILED raises
        wait_error, and otherwise the exit code is fetched and reported as
        exited. */
    method Wait() returns (r: Result<ProcessStatus>)
      modifies k
      ensures var n := old(|k.trace|);
        if k.answer(n).ret == WAIT_FAILED then
          k.trace == old(k.trace) + [Sys(WaitForSingleObject(process, INFINITE))] &&
          r == Err(ThrowSystemError(WaitError, k.answer(n).err, MSG_WAIT))
        else
          k.trace == old(k.trace) + [Sys(WaitForSingleObject(process, INFINITE)), Sys(GetExitCodeProcess(process))] &&
          r == Ok(Win32Status(ToUInt32(k.answer(n + 1).Out(0)), true))
    {
      var w := k.Call(WaitForSingleObject(process, INFINITE));
      if w.ret == WAIT_FAILED {
        return Err(ThrowSystemError(WaitError, w.err, MSG_WAIT));
      }
      var e := k.Call(GetExitCodeProcess(process));
      r := Ok(Win32Status(ToUInt32(e.Out(0)), true));
    }

    /** kill(nothrow): TerminateProcess(process, 1), reporting true when
        TerminateProcess returned 0, that is, when it failed. */
    method KillNothrow() returns (b: bool)
      modifies k
      ensures k.trace == old(k.trace) + [Sys(TerminateProcess(process, 1))]
      ensures b <==> old(k.Next()).ret == 0
      ensures k.errno == old(k.Next()).err
    {
      var r := k.Call(TerminateProcess(process, 1));
      b := r.ret == 0;
    }

    /** kill(): raises signal_error when kill(nothrow) returned false, which
        happens when TerminateProcess succeeded. */
    method Kill() returns (o: Outcome)
      modifies k
      ensures k.trace == old(k.trace) + [Sys(TerminateProcess(process, 1))]
      ensures o.Raised? <==> old(k.Next()).ret != 0
      ensures o.Raised? ==> o.error == ThrowSystemError(SignalError, old(k.Next()).err, MSG_KILL)
    {
      var b := KillNothrow();
      o := if !b then Raised(ThrowSystemError(SignalError, k.errno, MSG_KILL)) else Done;
    }

    /** terminate(): kill(). */
    method Terminate() returns (o: Outcome)
      modifies k
      ensures k.trace == old(k.trace) + [Sys(TerminateProcess(process, 1))]
      ensures o.Raised? <==> old(k.Next()).ret != 0
      ensures o.Raised? ==> o.error == ThrowSystemError(SignalError, old(k.Next()).err, MSG_KILL)
    {
      o := Kill();
    }

    /** terminate(nothrow): kill(nothrow). */
    method TerminateNothrow() returns (b: bool)
      modifies k
      ensures k.trace == old(k.trace) + [Sys(TerminateProcess(process, 1))]
      ensures b <==> old(k.Next()).ret == 0
    {
      b := KillNothrow();
    }
  }

  /** process_win32(): the current process, by GetCurrentProcessId() and
      the pseudo-handle, which the destructor leaves open. */
  method Current(k: Kernel) returns (proc: Process)
    modifies k
    ensures k.trace == old(k.trace) + [Sys(GetCurrentProcessId)]
    ensures fresh(proc) && proc.k == k && proc.pid == old(k.Next()).ret
    ensures proc.process == CURRENT_PROCESS_PSEUDO_HANDLE
  {
    var r := k.Call(GetCurrentProcessId);
    proc := new Process.WithHandle(k, r.ret, CURRENT_PROCESS_PSEUDO_HANDLE);
  }

  /** process_win32(p): OpenProcess with all access rights and no
      inheritance; a NULL handle raises pid_error. */
  method Open(k: Kernel, p: int) returns (r: Result<Process>)
    modifies k
    ensures k.trace == old(k.trace) + [Sys(OpenProcess(PROCESS_ALL_ACCESS, false, p))]
    ensures r.Err? <==> old(k.Next()).ret == NULL_HANDLE
    ensures r.Err? ==> r.error == ThrowSystemError(PidError, old(k.Next()).err, MSG_OPEN)
    ensures r.Ok? ==> fresh(r.value) && r.value.k == k && r.value.pid == p && r.value.process == old(k.Next()).ret
  {
    var h := k.Call(OpenProcess(PROCESS_ALL_ACCESS, false, p));
    if h.ret == NULL_HANDLE {
      return Err(ThrowSystemError(PidError, h.err, MSG_OPEN));
    }
    var proc := new Process.WithHandle(k, p, h.ret);
    r := Ok(proc);
  }

  /** The exit code is a DWORD: a code that reads as a negative int, such
      as an NTSTATUS crash code, is not success, and an exit code of 0 is. */
  lemma WaitStatusSuccess(code: int)
    ensures Win32Status(ToUInt32(code), true).Success() <==> ToUInt32(code) == 0
  {
    Win32SuccessIff(ToUInt32(code), true);
  }
}
