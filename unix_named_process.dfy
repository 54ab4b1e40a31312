/** unix_named_process (unix_named_process.hpp): forks and execs a named
    binary. The binary's tag picks the exec functor; the hooks and the
    on-fail functor are the caller's. Unlike unix_fork's public
    constructors, none of these checks whether fork failed. */
module UnixNamedProcess {
  import opened CValues
  import opened Os
  import opened ForkHooks
  import opened ExecFunctors
  import opened UnixFork
  import Programs
  import ProcessUnix

  /** select_exec_variant: the exec functor bound to the binary's path and
      argv, and to its environment when the tag asks for one. */
  function ExecCallFor(prog: Programs.Binary): (c: ExecCall)
    reads prog
    ensures c.name == prog.path && c.argv == prog.args
    ensures c.SearchingExec? <==> prog.tag == Programs.SearchNoEnv
    ensures c.NonSearchingExec? <==> prog.tag == Programs.NoSearchNoEnv
    ensures c.NonSearchingExecEnv? <==> prog.tag == Programs.NoSearchEnv
    ensures c.NonSearchingExecEnv? ==> c.env == prog.env
  {
    match prog.tag
    case SearchNoEnv => SearchingExec(prog.path, prog.args)
    case NoSearchNoEnv => NonSearchingExec(prog.path, prog.args)
    case NoSearchEnv => NonSearchingExecEnv(prog.path, prog.args, prog.env)
  }

  /** A PATH-searching binary is run with execvp, the others with execv,
      and only an environment-carrying binary hands its environment to
      exec (execve) and to the on-fail functor. */
  lemma ExecCallForSyscall(prog: Programs.Binary)
    ensures var s := ExecSyscall(ExecCallFor(prog));
      (prog.tag == Programs.SearchNoEnv ==> s == Execvp(prog.path, prog.args)) &&
      (prog.tag == Programs.NoSearchNoEnv ==> s == Execv(prog.path, prog.args)) &&
      (prog.tag == Programs.NoSearchEnv ==> s == Execve(prog.path, prog.args, prog.env))
    ensures OnFailEnv(ExecCallFor(prog)) == if prog.tag == Programs.NoSearchEnv then prog.env else None
  {
  }

  /** The unix_named_process constructors: (prog, on_fail) uses null_hooks;
      (prog, hooks, on_fail) uses the caller's hooks; (prog, hooks,
      default_onfail) uses return_errno. All of them launch the exec
      functor and return whatever launch did. */
  method NewUnixNamedProcess(k: Kernel, prog: Programs.Binary, h: Hooks, onFail: OnFail)
    returns (proc: ProcessUnix.Process, o: ForkOutcome)
    requires h.On(k) && onFail.On(k)
    modifies k, h.Footprint(), onFail.Footprint()
    ensures fresh(proc) && proc.k == k
    ensures k.trace == old(k.trace) + LaunchEvents(h, ExecTask(old(ExecCallFor(prog)), onFail), k.answer, old(|k.trace|))
    ensures ForkOutcomeEnd(o) == LaunchEndOf(h, ExecTask(old(ExecCallFor(prog)), onFail), k.answer, old(|k.trace|))
    ensures proc.pid == k.answer(old(|k.trace|) + 1).ret
  {
    proc := new ProcessUnix.Process.NoInit(k);
    o := Launch(proc, ExecTask(ExecCallFor(prog), onFail), h);
  }

  /** (prog, on_fail): null_hooks. */
  method NewWithOnFail(k: Kernel, prog: Programs.Binary, onFail: OnFail) returns (proc: ProcessUnix.Process, o: ForkOutcome)
    requires onFail.On(k)
    modifies k, onFail.Footprint()
    ensures fresh(proc) && proc.k == k
    ensures k.trace == old(k.trace) + LaunchEvents(NullHooks, ExecTask(old(ExecCallFor(prog)), onFail), k.answer, old(|k.trace|))
    ensures ForkOutcomeEnd(o) == LaunchEndOf(NullHooks, ExecTask(old(ExecCallFor(prog)), onFail), k.answer, old(|k.trace|))
  {
    proc, o := NewUnixNamedProcess(k, prog, NullHooks, onFail);
  }

  /** (prog, hooks, default_onfail): return_errno. */
  method NewWithDefaultOnFail(k: Kernel, prog: Programs.Binary, h: Hooks) returns (proc: ProcessUnix.Process, o: ForkOutcome)
    requires h.On(k)
    modifies k, h.Footprint()
    ensures fresh(proc) && proc.k == k
    ensures k.trace == old(k.trace) + LaunchEvents(h, ExecTask(old(ExecCallFor(prog)), ReturnErrno), k.answer, old(|k.trace|))
    ensures ForkOutcomeEnd(o) == LaunchEndOf(h, ExecTask(old(ExecCallFor(prog)), ReturnErrno), k.answer, old(|k.trace|))
  {
    proc, o := NewUnixNamedProcess(k, prog, h, ReturnErrno);
  }

  /** With return_errno, a child whose exec fails exits with exec's errno. */
  lemma ExecFailureExitsWithErrno(h: Hooks, c: ExecCall, answer: nat -> Reply, n: nat)
    requires answer(n + 1).ret == 0
    requires HookEndOf(h, ForkStart, answer, n + 2) == Finished
    requires answer(n + 2 + |HookEvents(h, ForkStart, answer, n + 2)|).ret == -1
    ensures LaunchEndOf(h, ExecTask(c, ReturnErrno), answer, n) ==
      ChildExited(answer(n + 2 + |HookEvents(h, ForkStart, answer, n + 2)|).err)
  {
  }

  /** A failed fork is not reported: launch returns, with pid -1, whatever
      the exec functor. */
  lemma ForkFailureReturns(h: Hooks, c: ExecCall, onFail: ExecFunctors.OnFail, answer: nat -> Reply, n: nat)
    requires answer(n + 1).ret == -1
    ensures LaunchEndOf(h, ExecTask(c, onFail), answer, n) == Returned
  {
  }
}
