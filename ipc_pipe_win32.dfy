/** ipc_pipe_win32 (detail/ipc_pipe_win32.hpp): an anonymous pipe whose two
    handles are created inheritable and never change afterwards. Win32 calls
    report failure with a zero return and the reason in GetLastError(). */
module IpcPipeWin32 {
  import opened Os
  import opened ProcessErrors

  const MSG_CREATE := "couldn't create pipe"
  /** The message of both throwing closes (close_write reuses the read one). */
  const MSG_CLOSE := "couldn't close pipe read end"
  const MSG_INHERIT := "couldn't disable inheritance on pipe"

  class Pipe {
    const k: Kernel
    const readHandle: int
    const writeHandle: int

    constructor (k: Kernel, readHandle: int, writeHandle: int)
      ensures this.k == k && this.readHandle == readHandle && this.writeHandle == writeHandle
    {
      this.k, this.readHandle, this.writeHandle := k, readHandle, writeHandle;
    }

    /** close_read(nothrow): CloseHandle's result for the read end. */
    method CloseReadNothrow() returns (ok: bool)
      modifies k
      ensures k.trace == old(k.trace) + [Sys(CloseHandle(readHandle))]
      ensures ok <==> old(k.Next()).ret != 0
      ensures k.Fds().open == if ok then old(k.Fds().open) - {readHandle} else old(k.Fds().open)
    {
      var r := k.Call(CloseHandle(readHandle));
      ok := r.ret != 0;
    }

    /** close_write(nothrow): CloseHandle's result for the write end. */
    method CloseWriteNothrow() returns (ok: bool)
      modifies k
      ensures k.trace == old(k.trace) + [Sys(CloseHandle(writeHandle))]
      ensures ok <==> old(k.Next()).ret != 0
      ensures k.Fds().open == if ok then old(k.Fds().open) - {writeHandle} else old(k.Fds().open)
    {
      var r := k.Call(CloseHandle(writeHandle));
      ok := r.ret != 0;
    }

    /** close_read(): raises pipe_error with GetLastError() when CloseHandle
        failed. */
    method CloseRead() returns (o: Outcome)
      modifies k
      ensures k.trace == old(k.trace) + [Sys(CloseHandle(readHandle))]
      ensures o.Raised? <==> old(k.Next()).ret == 0
      ensures o.Raised? ==> o.error == ThrowSystemError(PipeError, k.errno, MSG_CLOSE)
    {
      var ok := CloseReadNothrow();
      o := if ok then Done else Raised(ThrowSystemError(PipeError, k.errno, MSG_CLOSE));
    }

    /** close_write(): raises pipe_error when CloseHandle failed. */
    method CloseWrite() returns (o: Outcome)
      modifies k
      ensures k.trace == old(k.trace) + [Sys(CloseHandle(writeHandle))]
      ensures o.Raised? <==> old(k.Next()).ret == 0
      ensures o.Raised? ==> o.error == ThrowSystemError(PipeError, k.errno, MSG_CLOSE)
    {
      var ok := CloseWriteNothrow();
      o := if ok then Done else Raised(ThrowSystemError(PipeError, k.errno, MSG_CLOSE));
    }

    /** The destructor: closes read, then write, ignoring both results. */
    method Destroy()
      modifies k
      ensures k.trace == old(k.trace) + [Sys(CloseHandle(readHandle)), Sys(CloseHandle(writeHandle))]
    {
      var _ := CloseReadNothrow();
      var _ := CloseWriteNothrow();
    }

    /** disable_inherit(h): clears HANDLE_FLAG_INHERIT on h, raising
        pipe_error when SetHandleInformation failed. */
    method DisableInherit(h: int) returns (o: Outcome)
      modifies k
      ensures k.trace == old(k.trace) + [Sys(SetHandleInformation(h, HANDLE_FLAG_INHERIT, 0))]
      ensures o.Raised? <==> old(k.Next()).ret == 0
      ensures o.Raised? ==> o.error == ThrowSystemError(PipeError, k.errno, MSG_INHERIT)
      ensures o.Done? ==> k.Fds().inheritable == old(k.Fds().inheritable) - {h}
    {
      var r := k.Call(SetHandleInformation(h, HANDLE_FLAG_INHERIT, 0));
      o := if r.ret == 0 then Raised(ThrowSystemError(PipeError, r.err, MSG_INHERIT)) else Done;
    }
  }

  /** The constructor: CreatePipe with inheritable handles. It raises
      pipe_error exactly when CreatePipe failed; otherwise both new handles
      are open and would be inherited by a child. */
  method Create(k: Kernel) returns (r: Result<Pipe>)
    modifies k
    ensures k.trace == old(k.trace) + [Sys(CreatePipe(true))]
    ensures r.Err? <==> old(k.Next()).ret == 0
    ensures r.Err? ==> r.error == ThrowSystemError(PipeError, old(k.Next()).err, MSG_CREATE)
    ensures r.Ok? ==> r.value.k == k && fresh(r.value)
    ensures r.Ok? ==> r.value.readHandle == old(k.Next()).Out(0) && r.value.writeHandle == old(k.Next()).Out(1)
    ensures r.Ok? ==> {r.value.readHandle, r.value.writeHandle} <= k.Fds().open
    ensures r.Ok? ==> {r.value.readHandle, r.value.writeHandle} <= k.Fds().inheritable
  {
    var reply := k.Call(CreatePipe(true));
    if reply.ret == 0 {
      r := Err(ThrowSystemError(PipeError, reply.err, MSG_CREATE));
    } else {
      var p := new Pipe(k, reply.Out(0), reply.Out(1));
      r := Ok(p);
    }
  }
}
