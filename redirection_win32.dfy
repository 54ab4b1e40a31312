/** The win32 redirectors (detail/redirection_win32.hpp) and the no-op
    null_redirector (detail/named_process_win32.hpp): which handles a child
    is started with, which pipe end stops being inheritable, and what the
    parent closes after CreateProcess. */
module RedirectionWin32 {
  import opened Os
  import opened ProcessErrors
  import IpcPipeWin32

  datatype Redirector =
    /** null_redirector: disable_redirects_tag, nothing to close. */
    | NullRedirector
    /** stdin_redirect_win32: the child's stdin is the pipe's read end. */
    | StdinRedirect(pipe: IpcPipeWin32.Pipe)
    /** stdout_redirect_win32: the child's stdout is the pipe's write end. */
    | StdoutRedirect(pipe: IpcPipeWin32.Pipe)
    /** both_redirect_win32: both standard streams on pipes. */
    | BothRedirect(inPipe: IpcPipeWin32.Pipe, outPipe: IpcPipeWin32.Pipe)
  {
    /** The pipes belong to the process `k`. */
    predicate On(k: Kernel)
    {
      match this
      case NullRedirector => true
      case StdinRedirect(p) => p.k == k
      case StdoutRedirect(p) => p.k == k
      case BothRedirect(i, o) => i.k == k && o.k == k
    }

    /** The redirects_tag: enable_redirects_tag for all three pipe
        redirectors, disable_redirects_tag for null_redirector. */
    predicate RedirectsEnabled()
    {
      !NullRedirector?
    }

    /** stdin_handle(): the pipe's read end, or the process's own stdin. */
    function StdinHandle(k: Kernel): (h: int)
      requires RedirectsEnabled()
      ensures StdinRedirect? ==> h == pipe.readHandle
      ensures StdoutRedirect? ==> h == k.stdInput
      ensures BothRedirect? ==> h == inPipe.readHandle
    {
      match this
      case StdinRedirect(p) => p.readHandle
      case StdoutRedirect(_) => k.stdInput
      case BothRedirect(i, _) => i.readHandle
    }

    /** stdout_handle(): the pipe's write end, or the process's own stdout. */
    function StdoutHandle(k: Kernel): (h: int)
      requires RedirectsEnabled()
      ensures StdinRedirect? ==> h == k.stdOutput
      ensures StdoutRedirect? ==> h == pipe.writeHandle
      ensures BothRedirect? ==> h == outPipe.writeHandle
    {
      match this
      case StdinRedirect(_) => k.stdOutput
      case StdoutRedirect(p) => p.writeHandle
      case BothRedirect(_, o) => o.writeHandle
    }
  }

  /** The calls of close_child_ends(). The stdin form ignores CloseHandle's
      result; the stdout form goes through close_write, which raises; the
      two-pipe form closes out.write and in.read through the pipes and then
      calls CloseHandle on the same two handles again. */
  function CloseChildEndsActs(rd: Redirector): seq<Action>
  {
    match rd
    case NullRedirector => []
    case StdinRedirect(p) => [Action(CloseHandle(p.readHandle), NeverFails)]
    case StdoutRedirect(p) => [Action(CloseHandle(p.writeHandle), FailsOnZero)]
    case BothRedirect(i, o) =>
      [Action(CloseHandle(o.writeHandle), FailsOnZero), Action(CloseHandle(i.readHandle), FailsOnZero),
       Action(CloseHandle(o.writeHandle), NeverFails), Action(CloseHandle(i.readHandle), NeverFails)]
  }

  /** The stdin_redirect_win32 constructor: the write end, which the parent
      keeps, stops being inheritable; raises when that fails. */
  method NewStdinRedirect(p: IpcPipeWin32.Pipe) returns (r: Result<Redirector>)
    modifies p.k
    ensures p.k.trace == old(p.k.trace) + [Sys(SetHandleInformation(p.writeHandle, HANDLE_FLAG_INHERIT, 0))]
    ensures r.Err? <==> old(p.k.Next()).ret == 0
    ensures r.Err? ==> r.error.kind == PipeError
    ensures r.Ok? ==> r.value == StdinRedirect(p)
    ensures r.Ok? ==> p.k.Fds().inheritable == old(p.k.Fds().inheritable) - {p.writeHandle}
  {
    var o := p.DisableInherit(p.writeHandle);
    r := if o.Raised? then Err(o.error) else Ok(StdinRedirect(p));
  }

  /** The stdout_redirect_win32 constructor: the read end stops being
      inheritable; raises when that fails. */
  method NewStdoutRedirect(p: IpcPipeWin32.Pipe) returns (r: Result<Redirector>)
    modifies p.k
    ensures p.k.trace == old(p.k.trace) + [Sys(SetHandleInformation(p.readHandle, HANDLE_FLAG_INHERIT, 0))]
    ensures r.Err? <==> old(p.k.Next()).ret == 0
    ensures r.Err? ==> r.error.kind == PipeError
    ensures r.Ok? ==> r.value == StdoutRedirect(p)
    ensures r.Ok? ==> p.k.Fds().inheritable == old(p.k.Fds().inheritable) - {p.readHandle}
  {
    var o := p.DisableInherit(p.readHandle);
    r := if o.Raised? then Err(o.error) else Ok(StdoutRedirect(p));
  }

  /** close_child_ends(): run by the parent once the child exists. */
  method CloseChildEnds(rd: Redirector, k: Kernel) returns (o: Outcome)
    requires rd.On(k)
    modifies k
    ensures k.trace == old(k.trace) + Issued(k.answer, old(|k.trace|), CloseChildEndsActs(rd))
    ensures o.Raised? <==> SomeFails(k.answer, old(|k.trace|), CloseChildEndsActs(rd))
    ensures o.Raised? ==> o.error.kind == PipeError
  {
    ghost var n, acts := |k.trace|, CloseChildEndsActs(rd);
    match rd
    case NullRedirector =>
      o := Done;
    case StdinRedirect(p) =>
      var _ := k.Call(CloseHandle(p.readHandle));
      o := Done;
    case StdoutRedirect(p) =>
      o := p.CloseWrite();
    case BothRedirect(i, out) =>
      o := CloseBoth(i, out, k);
      BothCloses(i, out, k.answer, n);
  }

  /** The two-pipe close_child_ends: out.close_write() and in.close_read(),
      each raising, then CloseHandle again on the same two handles. */
  method CloseBoth(i: IpcPipeWin32.Pipe, out: IpcPipeWin32.Pipe, k: Kernel) returns (o: Outcome)
    requires i.k == k && out.k == k
    modifies k
    ensures k.trace == old(k.trace) + BothClosesEvents(i, out, k.answer, old(|k.trace|))
    ensures o.Raised? <==> k.answer(old(|k.trace|)).ret == 0 || k.answer(old(|k.trace|) + 1).ret == 0
    ensures o.Raised? ==> o.error.kind == PipeError
  {
    o := out.CloseWrite();
    if o.Done? {
      o := i.CloseRead();
      if o.Done? {
        var _ := k.Call(CloseHandle(out.writeHandle));
        var _ := k.Call(CloseHandle(i.readHandle));
      }
    }
  }

  /** The events of the two-pipe close_child_ends, by where it stops. */
  function BothClosesEvents(i: IpcPipeWin32.Pipe, o: IpcPipeWin32.Pipe, answer: nat -> Reply, n: nat): seq<Event>
  {
    if answer(n).ret == 0 then [Sys(CloseHandle(o.writeHandle))]
    else if answer(n + 1).ret == 0 then [Sys(CloseHandle(o.writeHandle)), Sys(CloseHandle(i.readHandle))]
    else [Sys(CloseHandle(o.writeHandle)), Sys(CloseHandle(i.readHandle)),
          Sys(CloseHandle(o.writeHandle)), Sys(CloseHandle(i.readHandle))]
  }

  /** The two-pipe close_child_ends stops at the first failing pipe close,
      and, when both succeed, calls CloseHandle twice on each handle. */
  lemma BothCloses(i: IpcPipeWin32.Pipe, o: IpcPipeWin32.Pipe, answer: nat -> Reply, n: nat)
    ensures Issued(answer, n, CloseChildEndsActs(BothRedirect(i, o))) == BothClosesEvents(i, o, answer, n)
    ensures SomeFails(answer, n, CloseChildEndsActs(BothRedirect(i, o))) <==>
      answer(n).ret == 0 || answer(n + 1).ret == 0
  {
    var acts := CloseChildEndsActs(BothRedirect(i, o));
    IssuedUnfold(answer, n, acts);
    IssuedUnfold(answer, n + 1, acts[1..]);
    IssuedUnfold(answer, n + 2, acts[1..][1..]);
    IssuedUnfold(answer, n + 3, acts[1..][1..][1..]);
    assert acts[1..][1..][1..][1..] == [];
  }
}
