/** ipc_pipe_unix (detail/ipc_pipe_unix.hpp): a pipe is the two descriptors
    pipe() returned. Nothing ever changes them, and nothing remembers which
    end was closed, so a second close is issued like the first. */
module IpcPipeUnix {
  import opened Os
  import opened ProcessErrors

  const MSG_CREATE := "couldn't create pipe"
  /** The message of both throwing closes (close_write reuses the read one). */
  const MSG_CLOSE := "couldn't close read end"
  const MSG_REDIRECT := "couldn't replace stream with pipe"

  class Pipe {
    /** The process whose descriptors the pipe uses. */
    const k: Kernel
    const readFd: int
    const writeFd: int

    constructor (k: Kernel, readFd: int, writeFd: int)
      ensures this.k == k && this.readFd == readFd && this.writeFd == writeFd
    {
      this.k, this.readFd, this.writeFd := k, readFd, writeFd;
    }

    /** close_read(nothrow): one close of the read end; true unless it
        returned -1. */
    method CloseReadNothrow() returns (ok: bool)
      modifies k
      ensures k.trace == old(k.trace) + [Sys(Close(readFd))]
      ensures ok <==> old(k.Next()).ret != -1
      ensures k.Fds().open == if ok then old(k.Fds().open) - {readFd} else old(k.Fds().open)
    {
      var r := k.Call(Close(readFd));
      ok := r.ret != -1;
    }

    /** close_write(nothrow): one close of the write end. */
    method CloseWriteNothrow() returns (ok: bool)
      modifies k
      ensures k.trace == old(k.trace) + [Sys(Close(writeFd))]
      ensures ok <==> old(k.Next()).ret != -1
      ensures k.Fds().open == if ok then old(k.Fds().open) - {writeFd} else old(k.Fds().open)
    {
      var r := k.Call(Close(writeFd));
      ok := r.ret != -1;
    }

    /** close_read(): raises pipe_error with close's errno when it failed. */
    method CloseRead() returns (o: Outcome)
      modifies k
      ensures k.trace == old(k.trace) + [Sys(Close(readFd))]
      ensures o.Raised? <==> old(k.Next()).ret == -1
      ensures o.Raised? ==> o.error == ThrowSystemError(PipeError, k.errno, MSG_CLOSE)
    {
      var ok := CloseReadNothrow();
      o := if ok then Done else Raised(ThrowSystemError(PipeError, k.errno, MSG_CLOSE));
    }

    /** close_write(): raises pipe_error when it failed, with the read-end
        message. */
    method CloseWrite() returns (o: Outcome)
      modifies k
      ensures k.trace == old(k.trace) + [Sys(Close(writeFd))]
      ensures o.Raised? <==> old(k.Next()).ret == -1
      ensures o.Raised? ==> o.error == ThrowSystemError(PipeError, k.errno, MSG_CLOSE)
    {
      var ok := CloseWriteNothrow();
      o := if ok then Done else Raised(ThrowSystemError(PipeError, k.errno, MSG_CLOSE));
    }

    /** The destructor: closes the read end, then the write end, ignoring
        both results; it never raises. */
    method Destroy()
      modifies k
      ensures k.trace == old(k.trace) + [Sys(Close(readFd)), Sys(Close(writeFd))]
    {
      var _ := CloseReadNothrow();
      var _ := CloseWriteNothrow();
    }

    /** do_redirect: dup2(fd, replaceFd), raising pipe_error when it
        returned -1. */
    method DoRedirect(fd: int, replaceFd: int) returns (o: Outcome)
      modifies k
      ensures k.trace == old(k.trace) + [Sys(Dup2(fd, replaceFd))]
      ensures o.Raised? <==> old(k.Next()).ret == -1
      ensures o.Raised? ==> o.error == ThrowSystemError(PipeError, k.errno, MSG_REDIRECT)
      ensures o.Done? ==> k.Fds().stdio == old(k.Fds().stdio)[replaceFd := fd]
    {
      var r := k.Call(Dup2(fd, replaceFd));
      o := if r.ret == -1 then Raised(ThrowSystemError(PipeError, r.err, MSG_REDIRECT)) else Done;
    }

    /** redirect_stdin: the read end becomes standard input. */
    method RedirectStdin() returns (o: Outcome)
      modifies k
      ensures k.trace == old(k.trace) + [Sys(Dup2(readFd, STDIN_FILENO))]
      ensures o.Raised? <==> old(k.Next()).ret == -1
      ensures o.Raised? ==> o.error == ThrowSystemError(PipeError, k.errno, MSG_REDIRECT)
      ensures o.Done? ==> k.Fds().stdio == old(k.Fds().stdio)[STDIN_FILENO := readFd]
    {
      o := DoRedirect(readFd, STDIN_FILENO);
    }

    /** redirect_stdout: the write end becomes standard output. */
    method RedirectStdout() returns (o: Outcome)
      modifies k
      ensures k.trace == old(k.trace) + [Sys(Dup2(writeFd, STDOUT_FILENO))]
      ensures o.Raised? <==> old(k.Next()).ret == -1
      ensures o.Raised? ==> o.error == ThrowSystemError(PipeError, k.errno, MSG_REDIRECT)
      ensures o.Done? ==> k.Fds().stdio == old(k.Fds().stdio)[STDOUT_FILENO := writeFd]
    {
      o := DoRedirect(writeFd, STDOUT_FILENO);
    }
  }

  /** The constructor: one pipe() call. It raises pipe_error exactly when
      pipe() failed; otherwise the ends are the two descriptors it wrote. */
  method Create(k: Kernel) returns (r: Result<Pipe>)
    modifies k
    ensures k.trace == old(k.trace) + [Sys(Os.Pipe)]
    ensures r.Err? <==> old(k.Next()).ret == -1
    ensures r.Err? ==> r.error == ThrowSystemError(PipeError, old(k.Next()).err, MSG_CREATE)
    ensures r.Ok? ==> r.value.k == k && fresh(r.value)
    ensures r.Ok? ==> r.value.readFd == old(k.Next()).Out(0) && r.value.writeFd == old(k.Next()).Out(1)
    ensures r.Ok? ==> {r.value.readFd, r.value.writeFd} <= k.Fds().open
  {
    var reply := k.Call(Os.Pipe);
    if reply.ret == -1 {
      r := Err(ThrowSystemError(PipeError, reply.err, MSG_CREATE));
    } else {
      var p := new Pipe(k, reply.Out(0), reply.Out(1));
      r := Ok(p);
    }
  }

  /** Closing the same end twice issues two closes of the same descriptor:
      the pipe does not guard against a repeat close. */
  method CloseReadTwice(p: Pipe) returns (first: bool, second: bool)
    modifies p.k
    ensures p.k.trace == old(p.k.trace) + [Sys(Close(p.readFd)), Sys(Close(p.readFd))]
  {
    first := p.CloseReadNothrow();
    second := p.CloseReadNothrow();
  }
}
