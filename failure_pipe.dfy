/** failure_pipe and piped_error_onfail (detail/named_process_unix.hpp):
    the channel over which a forked child tells its parent that it could
    not redirect its streams or exec the program. The child writes two ints,
    (stage, errno); the parent clears errno's slot and reads, so end of file
    (the child exec'd, closing its copy on exec) leaves the slot 0. */
module FailurePipe {
  import opened Os
  import opened ProcessErrors
  import IpcPipeUnix

  /** failure_pipe::errors. */
  datatype Stage = ErrExec | ErrRedirect

  function StageCode(s: Stage): (c: int)
    ensures c == 0 <==> s == ErrExec
  {
    match s
    case ErrExec => 0
    case ErrRedirect => 1
  }

  const MSG_CLOEXEC := "could not create pipe for error data ipc"
  const MSG_READ := "could not read error data from child"
  /** sizeof(int) * 2: the payload's size in bytes. */
  const PAYLOAD_BYTES := 2 * SIZEOF_INT

  /** The payload a read leaves in the buffer: both ints when the whole
      payload arrived, otherwise the buffer as it was. */
  function ReadPayload(before: seq<int>, r: Reply): (after: seq<int>)
    requires |before| == 2
    ensures |after| == 2
    ensures r.ret >= PAYLOAD_BYTES ==> after == [r.Out(0), r.Out(1)]
    ensures r.ret < PAYLOAD_BYTES ==> after == before
  {
    if r.ret >= PAYLOAD_BYTES then [r.Out(0), r.Out(1)] else before
  }

  class FailurePipe {
    const pipe: IpcPipeUnix.Pipe
    /** error_data_[2]: stage, then errno. */
    const errorData: array<int>

    constructor (pipe: IpcPipeUnix.Pipe)
      ensures this.pipe == pipe
      ensures fresh(errorData) && errorData.Length == 2 && errorData[..] == [0, 0]
    {
      this.pipe := pipe;
      errorData := new int[2](_ => 0);
    }

    ghost predicate Valid()
    {
      errorData.Length == 2
    }

    /** error(): the stage word as read. */
    function Error(): (s: int)
      reads this, errorData
      requires Valid()
      ensures errorData[..] == [s, errorData[1]]
    {
      errorData[0]
    }

    /** error_number(): the errno word; zero when there was no error. */
    function ErrorNumber(): (e: int)
      reads this, errorData
      requires Valid()
      ensures errorData[..] == [errorData[0], e]
    {
      errorData[1]
    }

    /** report_error: called in the child. Stores (stage, errno) in that
        order, writes both, then closes the write end; results ignored. */
    method ReportError(stage: Stage, errorNumber: int)
      requires Valid()
      modifies pipe.k, errorData
      ensures Valid()
      ensures errorData[..] == [StageCode(stage), errorNumber]
      ensures Error() == StageCode(stage) && ErrorNumber() == errorNumber
      ensures pipe.k.trace == old(pipe.k.trace) +
        [Sys(Write(pipe.writeFd, [StageCode(stage), errorNumber])), Sys(Close(pipe.writeFd))]
    {
      errorData[0] := StageCode(stage);
      errorData[1] := errorNumber;
      var _ := pipe.k.Call(Write(pipe.writeFd, errorData[..]));
      var _ := pipe.k.Call(Close(pipe.writeFd));
    }

    /** read_error_data: called in the parent. Closes the parent's write end,
        clears the errno word, then reads the payload; a read of -1 raises
        pipe_error. */
    method ReadErrorData() returns (o: Outcome)
      requires Valid()
      modifies pipe.k, errorData
      ensures Valid()
      ensures pipe.k.trace == old(pipe.k.trace) +
        [Sys(Close(pipe.writeFd)), Sys(Read(pipe.readFd, PAYLOAD_BYTES))]
      ensures var r := pipe.k.answer(old(|pipe.k.trace|) + 1);
        (o.Raised? <==> r.ret == -1) &&
        (o.Raised? ==> o.error == ThrowSystemError(PipeError, r.err, MSG_READ)) &&
        errorData[..] == ReadPayload([old(errorData[0]), 0], r)
      ensures var r := pipe.k.answer(old(|pipe.k.trace|) + 1);
        (r.ret >= PAYLOAD_BYTES ==> Error() == r.Out(0) && ErrorNumber() == r.Out(1)) &&
        (r.ret < PAYLOAD_BYTES ==> Error() == old(errorData[0]) && ErrorNumber() == 0)
    {
      var _ := pipe.k.Call(Close(pipe.writeFd));
      errorData[1] := 0;
      var r := pipe.k.Call(Read(pipe.readFd, PAYLOAD_BYTES));
      if r.ret >= PAYLOAD_BYTES {
        errorData[0], errorData[1] := r.Out(0), r.Out(1);
      }
      o := if r.ret == -1 then Raised(ThrowSystemError(PipeError, r.err, MSG_READ)) else Done;
    }

    /** The destructor of the pipe member. */
    method Destroy()
      modifies pipe.k
      ensures pipe.k.trace == old(pipe.k.trace) + [Sys(Close(pipe.readFd)), Sys(Close(pipe.writeFd))]
    {
      pipe.Destroy();
    }
  }

  /** The failure_pipe constructor: the ipc_pipe member is built first (its
      failure raises pipe_error), then both ends are marked close-on-exec.
      Only a failure on the write end matters: it raises create_error, and
      the already built pipe member is destroyed, closing both ends. */
  method NewFailurePipe(k: Kernel) returns (r: Result<FailurePipe>)
    modifies k
    ensures var n := old(|k.trace|);
      var rd, wr := k.answer(n).Out(0), k.answer(n).Out(1);
      if k.answer(n).ret == -1 then
        k.trace == old(k.trace) + [Sys(Os.Pipe)] &&
        r == Err(ThrowSystemError(PipeError, k.answer(n).err, IpcPipeUnix.MSG_CREATE))
      else if k.answer(n + 2).ret == -1 then
        k.trace == old(k.trace) + [Sys(Os.Pipe), Sys(Fcntl(rd, F_SETFD, FD_CLOEXEC)),
                                  Sys(Fcntl(wr, F_SETFD, FD_CLOEXEC)), Sys(Close(rd)), Sys(Close(wr))] &&
        r == Err(ThrowSystemError(CreateError, k.answer(n + 2).err, MSG_CLOEXEC))
      else
        k.trace == old(k.trace) + [Sys(Os.Pipe), Sys(Fcntl(rd, F_SETFD, FD_CLOEXEC)),
                                  Sys(Fcntl(wr, F_SETFD, FD_CLOEXEC))] &&
        r.Ok? && fresh(r.value) && fresh(r.value.errorData) && r.value.Valid() &&
        r.value.pipe.k == k && r.value.pipe.readFd == rd && r.value.pipe.writeFd == wr &&
        r.value.errorData[..] == [0, 0]
  {
    var p := IpcPipeUnix.Create(k);
    if p.Err? {
      return Err(p.error);
    }
    var pipe := p.value;
    var _ := k.Call(Fcntl(pipe.readFd, F_SETFD, FD_CLOEXEC));
    var w := k.Call(Fcntl(pipe.writeFd, F_SETFD, FD_CLOEXEC));
    if w.ret == -1 {
      pipe.Destroy();
      return Err(ThrowSystemError(CreateError, w.err, MSG_CLOEXEC));
    }
    var fp := new FailurePipe(pipe);
    r := Ok(fp);
  }

  /** piped_error_onfail: reports (err_exec, num) to the parent and returns
      num unchanged. */
  method PipedErrorOnFail(fp: FailurePipe, num: int) returns (code: int)
    requires fp.Valid()
    modifies fp.pipe.k, fp.errorData
    ensures fp.Valid()
    ensures code == num
    ensures fp.errorData[..] == [StageCode(ErrExec), num]
    ensures fp.pipe.k.trace == old(fp.pipe.k.trace) +
      [Sys(Write(fp.pipe.writeFd, [StageCode(ErrExec), num])), Sys(Close(fp.pipe.writeFd))]
  {
    fp.ReportError(ErrExec, num);
    code := num;
  }

  /** What the parent's read decodes a child's report into: a whole payload
      written by report_error comes back word for word, and an empty read
      (end of file) leaves error_number() at 0 whatever the buffer held. */
  lemma {:induction false} PayloadRoundTrip(stage: Stage, num: int, old0: int, r: Reply)
    requires r.ret >= PAYLOAD_BYTES && r.outs == [StageCode(stage), num]
    ensures ReadPayload([old0, 0], r) == [StageCode(stage), num]
    ensures ReadPayload([old0, 0], r.(ret := 0))[1] == 0
  {
    assert r.Out(0) == StageCode(stage) && r.Out(1) == num;
  }
}
