/** Exit statuses of processes: the shared status_base queries
    (detail/status_base.hpp), the unix status that decodes a waitpid status
    word (detail/process_unix.hpp) and the win32 status that holds an exit
    code and an exited flag (detail/process_win32.hpp). */
module Status {
  import opened CValues
  import opened Os

  /** status_base::success as the subclasses inherit it. */
  predicate BaseSuccess(exited: bool, exitStatus: int)
  {
    exited && exitStatus == 0
  }

  datatype ProcessStatus =
    /** status_unix: the raw status word, decoded by the wait macros. */
    | UnixStatus(value: int, macros: WaitMacros)
    /** status_win32: the DWORD exit code and whether the process exited. */
    | Win32Status(code: UInt32, exitedFlag: bool)
  {
    function Exited(): (r: bool)
      ensures UnixStatus? ==> (r <==> macros.ifExited(value))
      ensures Win32Status? ==> (r <==> exitedFlag)
    {
      match this
      case UnixStatus(v, m) => m.ifExited(v)
      case Win32Status(_, e) => e
    }

    /** The exit code; the win32 DWORD is returned as an int. */
    function ExitStatus(): (r: int)
      ensures UnixStatus? ==> r == macros.exitStatus(value)
      ensures Win32Status? ==> -TWO_31 <= r < TWO_31 && (r - code) % TWO_32 == 0
      ensures Win32Status? && code < TWO_31 ==> r == code
    {
      match this
      case UnixStatus(v, m) => m.exitStatus(v)
      case Win32Status(c, _) => UInt32ToInt32(c)
    }

    /** status_unix decodes the word; status_win32 uses the base's false. */
    function Signaled(): (r: bool)
      ensures UnixStatus? ==> (r <==> macros.ifSignaled(value))
      ensures Win32Status? ==> !r
    {
      match this
      case UnixStatus(v, m) => m.ifSignaled(v)
      case Win32Status(_, _) => false
    }

    /** status_unix decodes the word; status_win32 uses the base's 0. */
    function Signal(): (r: int)
      ensures UnixStatus? ==> r == macros.termSig(value)
      ensures Win32Status? ==> r == 0
    {
      match this
      case UnixStatus(v, m) => m.termSig(v)
      case Win32Status(_, _) => 0
    }

    /** success(): the process exited, and with status 0. */
    function Success(): (b: bool)
      ensures b ==> Exited()
      ensures ExitStatus() != 0 ==> !b
    {
      BaseSuccess(Exited(), ExitStatus())
    }
  }

  /** A win32 status never reports a signal, and its accessors give back the
      constructor's arguments (the exit code read as a signed int). */
  lemma Win32Accessors(code: UInt32, exited: bool)
    ensures Win32Status(code, exited).Exited() == exited
    ensures code < TWO_31 ==> Win32Status(code, exited).ExitStatus() == code
    ensures !Win32Status(code, exited).Signaled() && Win32Status(code, exited).Signal() == 0
  {
  }

  /** A win32 status is a success exactly when the process exited with code
      0: no other DWORD reads as the int 0. */
  lemma Win32SuccessIff(code: UInt32, exited: bool)
    ensures Win32Status(code, exited).Success() <==> exited && code == 0
  {
    if code >= TWO_31 {
      assert UInt32ToInt32(code) < 0;
    }
  }

  /** A unix status is a success exactly when the macros say it exited with
      status 0, whatever the signal macros say. */
  lemma UnixSuccessIff(value: int, m: WaitMacros)
    ensures UnixStatus(value, m).Success() <==> m.ifExited(value) && m.exitStatus(value) == 0
  {
  }
}
