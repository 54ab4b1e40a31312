/** named_process_unix (detail/named_process_unix.hpp): runs a named binary
    and makes exec and redirection failures in the child visible to the
    parent. A failure pipe, close-on-exec on both ends, carries the child's
    (stage, errno) report; the parent reads it after fork and raises
    program_error or pipe_error from it. End of file, which a successful
    exec causes, reads as no error. */
module NamedProcessUnix {
  import opened CValues
  import opened Os
  import opened ProcessErrors
  import opened FailurePipe
  import opened ForkHooks
  import opened ExecFunctors
  import opened UnixFork
  import UnixNamedProcess
  import RedirectionUnix
  import Programs
  import ProcessUnix

  const MSG_EXEC := "could not exec program"
  const MSG_REDIRECT := "could not redirect handles"

  /** How the parent reads the payload (stage, errno): errno 0 is success;
      otherwise the (prog) constructor always raises program_error, and the
      (prog, redirector) constructor raises program_error for err_exec and
      pipe_error for any other stage. */
  function ClassifyFailure(withRedirector: bool, data: seq<int>): (r: Option<ProcessError>)
    requires |data| == 2
    ensures r.None? <==> data[1] == 0
    ensures r.Some? ==> r.value.code.value == data[1] && r.value.code.category == SystemCategory
    ensures r.Some? ==> (r.value.kind == PipeError <==> withRedirector && data[0] != StageCode(ErrExec))
    ensures r.Some? ==> r.value.kind in {ProgramError, PipeError}
  {
    if data[1] == 0 then None
    else if !withRedirector || data[0] == StageCode(ErrExec) then Some(ThrowSystemError(ProgramError, data[1], MSG_EXEC))
    else Some(ThrowSystemError(PipeError, data[1], MSG_REDIRECT))
  }

  /** What the parent raises once launch has returned, given the reply of
      its read of the failure pipe: a failed read raises pipe_error;
      otherwise the payload as read (the stage word was 0 before). */
  function ParentError(withRedirector: bool, read: Reply): Option<ProcessError>
  {
    if read.ret == -1 then Some(ThrowSystemError(PipeError, read.err, MSG_READ))
    else ClassifyFailure(withRedirector, ReadPayload([0, 0], read))
  }

  /** The hooks the constructor forks with. */
  function NamedHooks(fp: FailurePipe, redirector: Option<RedirectionUnix.Redirector>): Hooks
  {
    if redirector.None? then NullHooks else RedirectingHooks(fp, redirector.value)
  }

  /** The parent's epilogue after a returned launch: read_error_data, then
      the failure pipe's destructor. */
  function ParentTail(fp: FailurePipe): seq<Event>
  {
    [Sys(Close(fp.pipe.writeFd)), Sys(Read(fp.pipe.readFd, PAYLOAD_BYTES)),
     Sys(Close(fp.pipe.readFd)), Sys(Close(fp.pipe.writeFd))]
  }

  /** The events after launch, by how launch ended: the parent's epilogue
      when it returned, the destructor when an exception left launch, and
      nothing in a child that exited or was replaced. */
  function Epilogue(fp: FailurePipe, e: LaunchEnd): seq<Event>
  {
    match e
    case Returned => ParentTail(fp)
    case LaunchThrew => [Sys(Close(fp.pipe.readFd)), Sys(Close(fp.pipe.writeFd))]
    case _ => []
  }

  /** The parent's side once launch has returned. */
  method FinishParent(fp: FailurePipe, withRedirector: bool) returns (err: Option<ProcessError>)
    requires fp.Valid() && fp.errorData[0] == 0
    modifies fp.pipe.k, fp.errorData
    ensures fp.pipe.k.trace == old(fp.pipe.k.trace) + ParentTail(fp)
    ensures err == ParentError(withRedirector, fp.pipe.k.answer(old(|fp.pipe.k.trace|) + 1))
  {
    var o := fp.ReadErrorData();
    if o.Raised? {
      err := Some(o.error);
    } else {
      err := ClassifyFailure(withRedirector, fp.errorData[..]);
    }
    fp.Destroy();
  }

  /** The events from launch on, when launch starts at position n. */
  function RunEvents(c: ExecCall, fp: FailurePipe, redirector: Option<RedirectionUnix.Redirector>,
                     answer: nat -> Reply, n: nat): seq<Event>
  {
    var h, task := NamedHooks(fp, redirector), ExecTask(c, PipedErrorOnFail(fp));
    LaunchEvents(h, task, answer, n) + Epilogue(fp, LaunchEndOf(h, task, answer, n))
  }

  /** How the constructor ends when launch starts at position n: the
      outcome of launch, except that a returned launch raises the error
      the parent reads from the failure pipe, if any. */
  predicate RunOutcome(o: ForkOutcome, c: ExecCall, fp: FailurePipe, redirector: Option<RedirectionUnix.Redirector>,
                       answer: nat -> Reply, n: nat)
  {
    var h, task := NamedHooks(fp, redirector), ExecTask(c, PipedErrorOnFail(fp));
    var e := LaunchEndOf(h, task, answer, n);
    if e == Returned then
      var err := ParentError(redirector.Some?, answer(n + |LaunchEvents(h, task, answer, n)| + 1));
      o == if err.Some? then ForkRaised(err.value) else ForkReturned
    else ForkOutcomeEnd(o) == e
  }

  /** The constructor once the failure pipe exists. */
  method Run(k: Kernel, c: ExecCall, fp: FailurePipe, redirector: Option<RedirectionUnix.Redirector>)
    returns (proc: ProcessUnix.Process, o: ForkOutcome)
    requires redirector.Some? ==> redirector.value.On(k)
    requires fp.Valid() && fp.pipe.k == k && fp.errorData[0] == 0
    modifies k, fp.errorData
    ensures fresh(proc) && proc.k == k && proc.pid == k.answer(old(|k.trace|) + 1).ret
    ensures k.trace == old(k.trace) + RunEvents(c, fp, redirector, k.answer, old(|k.trace|))
    ensures RunOutcome(o, c, fp, redirector, k.answer, old(|k.trace|))
  {
    hide LaunchEvents, LaunchEndOf, ForkSideEvents, ForkSideEnd, ChildEvents, ChildEnd, HookEvents, HookEndOf;
    ghost var n := |k.trace|;
    var h := NamedHooks(fp, redirector);
    var task := ExecTask(c, PipedErrorOnFail(fp));
    proc := new ProcessUnix.Process.NoInit(k);
    o := Launch(proc, task, h);
    ReturnsOnlyInParent(h, task, k.answer, n);
    ghost var launch := LaunchEvents(h, task, k.answer, n);
    ghost var afterLaunch := k.trace;
    assert afterLaunch == old(k.trace) + launch;
    ghost var tail: seq<Event>;
    if o.ForkRaised? {
      fp.Destroy();
      tail := Epilogue(fp, LaunchThrew);
    } else if o.ForkReturned? {
      var err := FinishParent(fp, redirector.Some?);
      if err.Some? {
        o := ForkRaised(err.value);
      }
      tail := Epilogue(fp, Returned);
    } else {
      tail := [];
    }
    assert k.trace == afterLaunch + tail;
    ConcatAssoc(old(k.trace), launch, tail);
  }

  /** The named_process_unix constructors: (prog) forks with null_hooks,
      (prog, redirector) with redirecting_hooks; both exec with
      piped_error_onfail. The failure pipe is a local, so it is destroyed
      when the parent leaves the constructor, normally or by an exception;
      a child that exits or execs never returns here. A fork failure is
      not checked. */
  method NewNamedProcessUnix(k: Kernel, prog: Programs.Binary, redirector: Option<RedirectionUnix.Redirector>)
    returns (proc: ProcessUnix.Process?, o: ForkOutcome, ghost fp: FailurePipe?)
    requires redirector.Some? ==> redirector.value.On(k)
    modifies k
    ensures var n := old(|k.trace|);
      proc == null <==> k.answer(n).ret == -1 || k.answer(n + 2).ret == -1
    ensures proc == null ==> o.ForkRaised? && o.error.kind in {PipeError, CreateError}
    ensures proc != null ==>
      var n := old(|k.trace|);
      var c := old(UnixNamedProcess.ExecCallFor(prog));
      fp != null && fresh(proc) && proc.k == k && proc.pid == k.answer(n + 4).ret &&
      fp.pipe.readFd == k.answer(n).Out(0) && fp.pipe.writeFd == k.answer(n).Out(1) &&
      k.trace == old(k.trace) + [Sys(Os.Pipe), Sys(Fcntl(fp.pipe.readFd, F_SETFD, FD_CLOEXEC)),
                                 Sys(Fcntl(fp.pipe.writeFd, F_SETFD, FD_CLOEXEC))] +
                 RunEvents(c, fp, redirector, k.answer, n + 3) &&
      RunOutcome(o, c, fp, redirector, k.answer, n + 3)
  {
    var created := NewFailurePipe(k);
    if created.Err? {
      return null, ForkRaised(created.error), null;
    }
    fp := created.value;
    proc, o := Run(k, UnixNamedProcess.ExecCallFor(prog), created.value, redirector);
  }

  /** A child's report comes back to the parent as the error it stands
      for: an exec failure as program_error, a redirection failure as
      pipe_error when a redirector was given, each with the child's errno. */
  lemma {:induction false} ReportedFailureRaised(stage: Stage, num: int, read: Reply, withRedirector: bool)
    requires num != 0
    requires read.ret >= PAYLOAD_BYTES && read.outs == [StageCode(stage), num]
    ensures ParentError(withRedirector, read) ==
      Some(if stage == ErrRedirect && withRedirector then ThrowSystemError(PipeError, num, MSG_REDIRECT)
           else ThrowSystemError(ProgramError, num, MSG_EXEC))
  {
    PayloadRoundTrip(stage, num, 0, read);
  }

  /** A read that ends at end of file (the child's exec closed the write
      end) is success, whatever the stage word. In particular, when fork
      itself failed there is no child and the read sees end of file at
      once, so the constructor returns normally with pid -1. */
  lemma EndOfFileIsSuccess(withRedirector: bool, read: Reply)
    requires read.ret == 0
    ensures ParentError(withRedirector, read) == None
  {
  }

  lemma ForkFailureLaunch(h: Hooks, task: Task, answer: nat -> Reply, n: nat)
    requires answer(n + 1).ret == -1
    ensures LaunchEvents(h, task, answer, n) == [Hook(PreFork), Sys(Fork)]
    ensures LaunchEndOf(h, task, answer, n) == Returned
  {
  }
}
