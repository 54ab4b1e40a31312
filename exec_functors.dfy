/** The exec functors and on-fail functors (unix_named_process.hpp and
    detail/named_process_unix.hpp): what a forked child runs to become the
    named program, and what decides its exit code when exec returns. */
module ExecFunctors {
  import opened CValues
  import opened Os
  import FailurePipe

  /** searching_exec (execvp), and non_searching_exec without (execv) and
      with (execve) an environment, bound to their arguments. */
  datatype ExecCall =
    | SearchingExec(name: CString, argv: Option<seq<CString>>)
    | NonSearchingExec(name: CString, argv: Option<seq<CString>>)
    | NonSearchingExecEnv(name: CString, argv: Option<seq<CString>>, env: Option<seq<CString>>)

  /** The exec call a functor makes. */
  function ExecSyscall(c: ExecCall): (s: Syscall)
    ensures s.Execvp? <==> c.SearchingExec?
    ensures s.Execv? <==> c.NonSearchingExec?
    ensures s.Execve? <==> c.NonSearchingExecEnv?
  {
    match c
    case SearchingExec(name, argv) => Execvp(name, argv)
    case NonSearchingExec(name, argv) => Execv(name, argv)
    case NonSearchingExecEnv(name, argv, env) => Execve(name, argv, env)
  }

  /** The environment handed to on_fail: NULL unless execve was used. */
  function OnFailEnv(c: ExecCall): (e: Option<seq<CString>>)
    ensures !c.NonSearchingExecEnv? ==> e == None
    ensures c.NonSearchingExecEnv? ==> e == c.env
  {
    if c.NonSearchingExecEnv? then c.env else None
  }

  /** The on-fail functors: return_errno, piped_error_onfail over a
      failure pipe, or a user function of (errno, name, argv, env). */
  datatype OnFail =
    | ReturnErrno
    | PipedErrorOnFail(fp: FailurePipe.FailurePipe)
    | CustomOnFail(f: (int, CString, Option<seq<CString>>, Option<seq<CString>>) -> int)
  {
    /** The failure pipe writes into the process `k`. */
    ghost predicate On(k: Kernel)
    {
      PipedErrorOnFail? ==> fp.Valid() && fp.pipe.k == k
    }

    /** What the functor may change besides the process. */
    function Footprint(): set<object>
    {
      if PipedErrorOnFail? then {fp.errorData} else {}
    }
  }

  /** The calls an on-fail functor makes for errno `num`. */
  function OnFailEvents(onFail: OnFail, num: int): seq<Event>
  {
    match onFail
    case PipedErrorOnFail(fp) =>
      [Sys(Write(fp.pipe.writeFd, [FailurePipe.StageCode(FailurePipe.ErrExec), num])), Sys(Close(fp.pipe.writeFd))]
    case _ => []
  }

  /** The value an on-fail functor returns. */
  function OnFailCode(onFail: OnFail, c: ExecCall, num: int): int
  {
    match onFail
    case ReturnErrno => num
    case PipedErrorOnFail(_) => num
    case CustomOnFail(f) => f(num, c.name, c.argv, OnFailEnv(c))
  }

  /** The calls a functor makes when its exec sits at trace position n: the
      exec, then the on-fail calls only if the exec returned -1. */
  function ExecEvents(c: ExecCall, onFail: OnFail, answer: nat -> Reply, n: nat): (t: seq<Event>)
    ensures |t| >= 1 && t[0] == Sys(ExecSyscall(c))
    ensures |t| == 1 <==> answer(n).ret != -1 || !onFail.PipedErrorOnFail?
    ensures |t| != 1 ==> |t| == 3 && t[2] == Sys(Close(onFail.fp.pipe.writeFd))
  {
    [Sys(ExecSyscall(c))] + (if answer(n).ret == -1 then OnFailEvents(onFail, answer(n).err) else [])
  }

  /** The functor's result: None when exec replaced the process image (it
      never returns), otherwise the on-fail functor's value. Every on-fail
      functor sees exec's errno: the two library functors return it
      unchanged, and a user functor gets the program's name and argv, with
      NULL for the environment unless execve was the call. */
  function ExecCode(c: ExecCall, onFail: OnFail, answer: nat -> Reply, n: nat): (r: Option<int>)
    ensures r.None? <==> answer(n).ret != -1
    ensures answer(n).ret == -1 && !onFail.CustomOnFail? ==> r == Some(answer(n).err)
    ensures answer(n).ret == -1 && onFail.CustomOnFail? && !c.NonSearchingExecEnv? ==>
      r == Some(onFail.f(answer(n).err, c.name, c.argv, None))
  {
    if answer(n).ret == -1 then Some(OnFailCode(onFail, c, answer(n).err)) else None
  }

  /** Calling an exec functor: exec, and if it returned, on_fail(errno,
      name, argv, env or NULL). */
  method Run(c: ExecCall, onFail: OnFail, k: Kernel) returns (code: Option<int>)
    requires onFail.On(k)
    modifies k, onFail.Footprint()
    ensures onFail.On(k)
    ensures k.trace == old(k.trace) + ExecEvents(c, onFail, k.answer, old(|k.trace|))
    ensures code == ExecCode(c, onFail, k.answer, old(|k.trace|))
    ensures onFail.PipedErrorOnFail? && code.Some? ==>
      onFail.fp.errorData[..] == [FailurePipe.StageCode(FailurePipe.ErrExec), k.answer(old(|k.trace|)).err]
  {
    var r := k.Call(ExecSyscall(c));
    if r.ret != -1 {
      return None;
    }
    match onFail
    case ReturnErrno =>
      code := Some(k.errno);
    case PipedErrorOnFail(fp) =>
      var v := FailurePipe.PipedErrorOnFail(fp, k.errno);
      code := Some(v);
    case CustomOnFail(f) =>
      code := Some(f(k.errno, c.name, c.argv, OnFailEnv(c)));
  }
}
