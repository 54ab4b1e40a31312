/** The fork hooks (unix_fork.hpp and detail/named_process_unix.hpp): what
    runs before fork, first and last in the child, and after fork in the
    parent. null_hooks does nothing; a unix redirector used directly as
    hooks rewires the child's streams in fork_start and closes the child's
    ends in post_fork; redirecting_hooks redirects through redirect() and,
    when that fails, reports (err_redirect, errno) on the failure pipe and
    exits the child with status 1. Each hook run is logged as a `Hook`
    marker followed by the calls it makes. */
module ForkHooks {
  import opened Os
  import opened ProcessErrors
  import opened RedirectionUnix
  import IpcPipeUnix
  import FailurePipe

  datatype Hooks =
    | NullHooks
    | RedirectorHooks(rd: Redirector)
    | RedirectingHooks(fp: FailurePipe.FailurePipe, rd: Redirector)
  {
    /** The pipes belong to the process `k`. */
    ghost predicate On(k: Kernel)
    {
      match this
      case NullHooks => true
      case RedirectorHooks(rd) => rd.On(k)
      case RedirectingHooks(fp, rd) => rd.On(k) && fp.Valid() && fp.pipe.k == k
    }

    /** What the hooks may change besides the process. */
    function Footprint(): set<object>
    {
      if RedirectingHooks? then {fp.errorData} else {}
    }
  }

  /** How a hook run ends. */
  datatype HookEnd = Finished | Threw | ExitedWith(code: int)

  datatype HookOutcome = HookDone | HookRaised(error: ProcessError) | HookExited(code: int)

  function HookOutcomeEnd(o: HookOutcome): HookEnd
  {
    match o
    case HookDone => Finished
    case HookRaised(_) => Threw
    case HookExited(c) => ExitedWith(c)
  }

  /** The calls the hook `p` makes when its first call sits at trace
      position m. */
  function HookCalls(h: Hooks, p: HookPoint, answer: nat -> Reply, m: nat): seq<Event>
  {
    match h
    case NullHooks => []
    case RedirectorHooks(rd) =>
      if p == ForkStart then Issued(answer, m, ForkStartActs(rd))
      else if p == PostFork then Issued(answer, m, PostForkActs(rd))
      else []
    case RedirectingHooks(fp, rd) =>
      if p == ForkStart then RedirectingForkStartCalls(fp, rd, answer, m)
      else if p == PostFork then Issued(answer, m, CloseChildEndsActs(rd))
      else []
  }

  /** The events of running hook `p` from trace position n: its marker,
      then its calls. pre_fork and fork_end do nothing in every hooks
      type. */
  function HookEvents(h: Hooks, p: HookPoint, answer: nat -> Reply, n: nat): (t: seq<Event>)
    ensures |t| >= 1 && t[0] == Hook(p)
    ensures p == PreFork || p == ForkEnd || h.NullHooks? ==> t == [Hook(p)]
  {
    [Hook(p)] + HookCalls(h, p, answer, n + 1)
  }

  /** How hook `p` ends when run from trace position n. Only fork_start and
      post_fork can raise, and only redirecting_hooks' fork_start exits. */
  function HookEndOf(h: Hooks, p: HookPoint, answer: nat -> Reply, n: nat): (e: HookEnd)
    ensures p == PreFork || p == ForkEnd || h.NullHooks? ==> e == Finished
    ensures e.ExitedWith? ==> e.code == 1 && h.RedirectingHooks? && p == ForkStart
    ensures e == Threw ==> !h.NullHooks? && (p == ForkStart || p == PostFork)
  {
    CallsEnd(h, p, answer, n + 1)
  }

  /** How the calls of hook `p` end when the first sits at position m. */
  function CallsEnd(h: Hooks, p: HookPoint, answer: nat -> Reply, m: nat): HookEnd
  {
    match h
    case NullHooks => Finished
    case RedirectorHooks(rd) =>
      if p == ForkStart then (if SomeFails(answer, m, ForkStartActs(rd)) then Threw else Finished)
      else if p == PostFork then (if SomeFails(answer, m, PostForkActs(rd)) then Threw else Finished)
      else Finished
    case RedirectingHooks(_, rd) =>
      if p == ForkStart then (if RedirectResult(rd, answer, m) then Finished else ExitedWith(1))
      else if p == PostFork then (if SomeFails(answer, m, CloseChildEndsActs(rd)) then Threw else Finished)
      else Finished
  }

  /** Runs hook `p`. */
  method RunHook(h: Hooks, p: HookPoint, k: Kernel) returns (o: HookOutcome)
    requires h.On(k)
    modifies k, h.Footprint()
    ensures h.On(k)
    ensures k.trace == old(k.trace) + HookEvents(h, p, k.answer, old(|k.trace|))
    ensures HookOutcomeEnd(o) == HookEndOf(h, p, k.answer, old(|k.trace|))
    ensures o.HookRaised? ==> o.error.kind == PipeError
    ensures p != ForkStart ==> unchanged(h.Footprint())
  {
    k.Mark(Hook(p));
    ghost var before := k.trace;
    o := RunCalls(h, p, k);
    ConcatAssoc(old(k.trace), [Hook(p)], HookCalls(h, p, k.answer, |before|));
  }

  /** The calls hook `p` makes, after its marker. */
  method RunCalls(h: Hooks, p: HookPoint, k: Kernel) returns (o: HookOutcome)
    requires h.On(k)
    modifies k, h.Footprint()
    ensures h.On(k)
    ensures k.trace == old(k.trace) + HookCalls(h, p, k.answer, old(|k.trace|))
    ensures HookOutcomeEnd(o) == CallsEnd(h, p, k.answer, old(|k.trace|))
    ensures o.HookRaised? ==> o.error.kind == PipeError
    ensures p != ForkStart ==> unchanged(h.Footprint())
  {
    match h
    case NullHooks =>
      o := HookDone;
    case RedirectorHooks(rd) =>
      o := RunRedirectorHook(rd, p, k);
    case RedirectingHooks(fp, rd) =>
      o := RunRedirectingHook(fp, rd, p, k);
  }

  /** The hooks of a unix redirector used directly. */
  method RunRedirectorHook(rd: Redirector, p: HookPoint, k: Kernel) returns (o: HookOutcome)
    requires rd.On(k)
    modifies k
    ensures k.trace == old(k.trace) + HookCalls(RedirectorHooks(rd), p, k.answer, old(|k.trace|))
    ensures HookOutcomeEnd(o) == CallsEnd(RedirectorHooks(rd), p, k.answer, old(|k.trace|))
    ensures o.HookRaised? ==> o.error.kind == PipeError
  {
    if p == ForkStart {
      var r := RedirectionUnix.ForkStart(rd, k);
      o := if r.Raised? then HookRaised(r.error) else HookDone;
    } else if p == PostFork {
      var r := RedirectionUnix.PostFork(rd, k);
      o := if r.Raised? then HookRaised(r.error) else HookDone;
    } else {
      o := HookDone;
    }
  }

  /** redirecting_hooks: fork_start redirects, post_fork closes the child's
      ends. */
  method RunRedirectingHook(fp: FailurePipe.FailurePipe, rd: Redirector, p: HookPoint, k: Kernel) returns (o: HookOutcome)
    requires RedirectingHooks(fp, rd).On(k)
    modifies k, fp.errorData
    ensures fp.Valid()
    ensures k.trace == old(k.trace) + HookCalls(RedirectingHooks(fp, rd), p, k.answer, old(|k.trace|))
    ensures HookOutcomeEnd(o) == CallsEnd(RedirectingHooks(fp, rd), p, k.answer, old(|k.trace|))
    ensures o.HookRaised? ==> o.error.kind == PipeError
    ensures p != ForkStart ==> unchanged(fp.errorData)
  {
    if p == ForkStart {
      o := RedirectingForkStart(fp, rd, k);
    } else if p == PostFork {
      var r := RedirectionUnix.CloseChildEnds(rd, k);
      o := if r.Raised? then HookRaised(r.error) else HookDone;
    } else {
      o := HookDone;
    }
  }

  /** What the child does once redirect() failed with errno `num`: it
      reports (err_redirect, num) on the failure pipe, closes the write end
      and exits with status 1. */
  function RedirectFailureEvents(fp: FailurePipe.FailurePipe, num: int): seq<Event>
  {
    [Sys(Write(fp.pipe.writeFd, [FailurePipe.StageCode(FailurePipe.ErrRedirect), num])),
     Sys(Close(fp.pipe.writeFd)), Sys(Exit(1))]
  }

  /** The calls of redirecting_hooks::fork_start from trace position m: the
      redirection, then, when it failed, the report made with the errno of
      its last call. */
  function RedirectingForkStartCalls(fp: FailurePipe.FailurePipe, rd: Redirector, answer: nat -> Reply, m: nat): seq<Event>
  {
    var red := Issued(answer, m, RedirectActs(rd));
    if RedirectResult(rd, answer, m) then red
    else red + RedirectFailureEvents(fp, answer(m + |red| - 1).err)
  }

  /** redirecting_hooks::fork_start. */
  method RedirectingForkStart(fp: FailurePipe.FailurePipe, rd: Redirector, k: Kernel) returns (o: HookOutcome)
    requires RedirectingHooks(fp, rd).On(k)
    modifies k, fp.errorData
    ensures fp.Valid()
    ensures k.trace == old(k.trace) + RedirectingForkStartCalls(fp, rd, k.answer, old(|k.trace|))
    ensures o == (if RedirectResult(rd, k.answer, old(|k.trace|)) then HookDone else HookExited(1))
  {
    ghost var n := |k.trace|;
    var ok := Redirect(rd, k);
    ghost var red := Issued(k.answer, n, RedirectActs(rd));
    ghost var afterRedirect := k.trace;
    assert afterRedirect == old(k.trace) + red;
    if !ok {
      var num := k.errno;
      assert num == k.answer(n + |red| - 1).err;
      ReportAndExit(fp, k, num);
      o := HookExited(1);
    } else {
      o := HookDone;
    }
  }

  /** redirecting_hooks over the two-pipe redirector, run from trace
      position n, when both dup2 calls succeed (the stdout one returning
      descriptor 1, the stdin one descriptor 0): redirect() reports failure,
      so the child writes (err_redirect, errno) with whatever errno the
      successful stdin dup2 left, and exits with status 1. */
  lemma BothRedirectSuccessExits(fp: FailurePipe.FailurePipe, i: IpcPipeUnix.Pipe, o: IpcPipeUnix.Pipe, answer: nat -> Reply, n: nat)
    requires answer(n + 2).ret == STDOUT_FILENO && answer(n + 4).ret == STDIN_FILENO
    ensures HookEndOf(RedirectingHooks(fp, BothRedirect(i, o)), ForkStart, answer, n) == ExitedWith(1)
    ensures HookEvents(RedirectingHooks(fp, BothRedirect(i, o)), ForkStart, answer, n) ==
      [Hook(ForkStart), Sys(Close(o.readFd)), Sys(Dup2(o.writeFd, STDOUT_FILENO)),
       Sys(Close(i.writeFd)), Sys(Dup2(i.readFd, STDIN_FILENO))] +
      RedirectFailureEvents(fp, answer(n + 4).err)
  {
    BothRedirectFailsOnSuccess(i, o, answer, n + 1);
  }

  /** The failure branch of fork_start: report_error, then _exit(1). */
  method ReportAndExit(fp: FailurePipe.FailurePipe, k: Kernel, num: int)
    requires fp.Valid() && fp.pipe.k == k
    modifies k, fp.errorData
    ensures fp.Valid()
    ensures fp.errorData[..] == [FailurePipe.StageCode(FailurePipe.ErrRedirect), num]
    ensures k.trace == old(k.trace) + RedirectFailureEvents(fp, num)
  {
    fp.ReportError(FailurePipe.ErrRedirect, num);
    var _ := k.Call(Exit(1));
  }
}
