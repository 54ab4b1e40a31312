/** The unix redirectors (detail/redirection_unix.hpp): fork hooks that
    rewire a child's stdin and/or stdout onto pipes and close the ends each
    process does not use. Each operation is a fixed list of close/dup2
    calls; `RedirectActs`, `CloseChildEndsActs`, `ForkStartActs` and
    `PostForkActs` list them, and the methods are proved to issue exactly
    those calls, stopping at the first one that raises. */
module RedirectionUnix {
  import opened Os
  import opened ProcessErrors
  import IpcPipeUnix

  datatype Redirector =
    /** stdin_redirect_unix: the child reads its stdin from the pipe. */
    | StdinRedirect(pipe: IpcPipeUnix.Pipe)
    /** stdout_redirect_unix: the child writes its stdout into the pipe. */
    | StdoutRedirect(pipe: IpcPipeUnix.Pipe)
    /** both_redirect_unix: one pipe for stdin, another for stdout. */
    | BothRedirect(inPipe: IpcPipeUnix.Pipe, outPipe: IpcPipeUnix.Pipe)
  {
    /** The pipes belong to the process `k`. */
    predicate On(k: Kernel)
    {
      match this
      case StdinRedirect(p) => p.k == k
      case StdoutRedirect(p) => p.k == k
      case BothRedirect(i, o) => i.k == k && o.k == k
    }
  }

  /** redirect_stdin(p) closes the write end, then dup2s the read end onto
      stdin; redirect_stdout(p) is the mirror image. Neither looks at the
      close's result. */
  function StdinHelperActs(p: IpcPipeUnix.Pipe): seq<Action>
  {
    [Action(Close(p.writeFd), NeverFails), Action(Dup2(p.readFd, STDIN_FILENO), NeverFails)]
  }

  function StdoutHelperActs(p: IpcPipeUnix.Pipe): seq<Action>
  {
    [Action(Close(p.readFd), NeverFails), Action(Dup2(p.writeFd, STDOUT_FILENO), NeverFails)]
  }

  /** The calls of redirect(). both_redirect_unix only goes on to stdin when
      the stdout dup2 returned non-zero. */
  function RedirectActs(rd: Redirector): seq<Action>
  {
    match rd
    case StdinRedirect(p) => StdinHelperActs(p)
    case StdoutRedirect(p) => StdoutHelperActs(p)
    case BothRedirect(i, o) =>
      [Action(Close(o.readFd), NeverFails), Action(Dup2(o.writeFd, STDOUT_FILENO), FailsOnZero)] +
      StdinHelperActs(i)
  }

  /** What redirect() returns when its first call sits at trace position n.
      The single-pipe redirectors compare the dup2 result with -1; the
      two-pipe one reads both raw dup2 results as truth values. */
  predicate RedirectResult(rd: Redirector, answer: nat -> Reply, n: nat)
  {
    match rd
    case BothRedirect(_, _) => answer(n + 1).ret != 0 && answer(n + 3).ret != 0
    case _ => answer(n + 1).ret != -1
  }

  /** close_child_ends(): the ends the parent gives up. */
  function CloseChildEndsActs(rd: Redirector): seq<Action>
  {
    match rd
    case StdinRedirect(p) => [Action(Close(p.readFd), FailsOnMinusOne)]
    case StdoutRedirect(p) => [Action(Close(p.writeFd), FailsOnMinusOne)]
    case BothRedirect(i, o) =>
      [Action(Close(o.writeFd), FailsOnMinusOne), Action(Close(i.readFd), FailsOnMinusOne)]
  }

  /** fork_start(): in the child, redirect and close the unused end; the
      two-pipe form does the stdin pair first. */
  function ForkStartActs(rd: Redirector): seq<Action>
  {
    match rd
    case StdinRedirect(p) =>
      [Action(Dup2(p.readFd, STDIN_FILENO), FailsOnMinusOne), Action(Close(p.writeFd), FailsOnMinusOne)]
    case StdoutRedirect(p) =>
      [Action(Dup2(p.writeFd, STDOUT_FILENO), FailsOnMinusOne), Action(Close(p.readFd), FailsOnMinusOne)]
    case BothRedirect(i, o) =>
      [Action(Dup2(i.readFd, STDIN_FILENO), FailsOnMinusOne), Action(Close(i.writeFd), FailsOnMinusOne),
       Action(Dup2(o.writeFd, STDOUT_FILENO), FailsOnMinusOne), Action(Close(o.readFd), FailsOnMinusOne)]
  }

  /** post_fork(): in the parent, close the child's ends. */
  function PostForkActs(rd: Redirector): seq<Action>
  {
    match rd
    case StdinRedirect(p) => [Action(Close(p.readFd), FailsOnMinusOne)]
    case StdoutRedirect(p) => [Action(Close(p.writeFd), FailsOnMinusOne)]
    case BothRedirect(i, o) =>
      [Action(Close(i.readFd), FailsOnMinusOne), Action(Close(o.writeFd), FailsOnMinusOne)]
  }

  /** redirect_stdin(p): returns the raw dup2 result. */
  method RedirectStdinHelper(p: IpcPipeUnix.Pipe) returns (ret: int)
    modifies p.k
    ensures p.k.trace == old(p.k.trace) + Issued(p.k.answer, old(|p.k.trace|), StdinHelperActs(p))
    ensures ret == p.k.answer(old(|p.k.trace|) + 1).ret
    ensures |p.k.trace| == old(|p.k.trace|) + 2
    ensures p.k.errno == p.k.answer(|p.k.trace| - 1).err
  {
    var k := p.k;
    var _ := k.Call(Close(p.writeFd));
    var r := k.Call(Dup2(p.readFd, STDIN_FILENO));
    ret := r.ret;
  }

  /** redirect_stdout(p): returns the raw dup2 result. */
  method RedirectStdoutHelper(p: IpcPipeUnix.Pipe) returns (ret: int)
    modifies p.k
    ensures p.k.trace == old(p.k.trace) + Issued(p.k.answer, old(|p.k.trace|), StdoutHelperActs(p))
    ensures ret == p.k.answer(old(|p.k.trace|) + 1).ret
    ensures |p.k.trace| == old(|p.k.trace|) + 2
    ensures p.k.errno == p.k.answer(|p.k.trace| - 1).err
  {
    var k := p.k;
    var _ := k.Call(Close(p.readFd));
    var r := k.Call(Dup2(p.writeFd, STDOUT_FILENO));
    ret := r.ret;
  }

  /** redirect(): run in the child; never raises. */
  method Redirect(rd: Redirector, k: Kernel) returns (ok: bool)
    requires rd.On(k)
    modifies k
    ensures k.trace == old(k.trace) + Issued(k.answer, old(|k.trace|), RedirectActs(rd))
    ensures ok == RedirectResult(rd, k.answer, old(|k.trace|))
    ensures |k.trace| > old(|k.trace|) && k.errno == k.answer(|k.trace| - 1).err
  {
    ghost var n := |k.trace|;
    match rd
    case StdinRedirect(p) =>
      var ret := RedirectStdinHelper(p);
      ok := ret != -1;
    case StdoutRedirect(p) =>
      var ret := RedirectStdoutHelper(p);
      ok := ret != -1;
    case BothRedirect(i, o) =>
      hide Issued;
      RedirectBothEvents(i, o, k.answer, n);
      var outRet := RedirectStdoutHelper(o);
      ghost var first := k.trace;
      if outRet == 0 {
        ok := false;
        assert first + [] == first;
      } else {
        var inRet := RedirectStdinHelper(i);
        ok := inRet != 0;
        ConcatAssoc(old(k.trace), Issued(k.answer, n, StdoutHelperActs(o)), Issued(k.answer, n + 2, StdinHelperActs(i)));
      }
  }

  /** The two-pipe redirect() is redirect_stdout, then redirect_stdin only
      when the stdout dup2 returned non-zero. */
  lemma RedirectBothEvents(i: IpcPipeUnix.Pipe, o: IpcPipeUnix.Pipe, answer: nat -> Reply, n: nat)
    ensures Issued(answer, n, RedirectActs(BothRedirect(i, o))) ==
      Issued(answer, n, StdoutHelperActs(o)) +
      (if answer(n + 1).ret == 0 then [] else Issued(answer, n + 2, StdinHelperActs(i)))
  {
    var a := [Action(Close(o.readFd), NeverFails), Action(Dup2(o.writeFd, STDOUT_FILENO), FailsOnZero)];
    var b := StdoutHelperActs(o);
    IssuedAppend(answer, n, a, StdinHelperActs(i));
    IssuedUnfold(answer, n, a);
    IssuedUnfold(answer, n + 1, a[1..]);
    assert a[1..][1..] == [];
    IssuedUnfold(answer, n, b);
    IssuedUnfold(answer, n + 1, b[1..]);
    assert b[1..][1..] == [];
  }

  /** close_child_ends(): run in the parent; raises pipe_error at the first
      close that fails. */
  method CloseChildEnds(rd: Redirector, k: Kernel) returns (o: Outcome)
    requires rd.On(k)
    modifies k
    ensures k.trace == old(k.trace) + Issued(k.answer, old(|k.trace|), CloseChildEndsActs(rd))
    ensures o.Raised? <==> SomeFails(k.answer, old(|k.trace|), CloseChildEndsActs(rd))
    ensures o.Raised? ==> o.error.kind == PipeError
  {
    match rd
    case StdinRedirect(p) =>
      o := p.CloseRead();
    case StdoutRedirect(p) =>
      o := p.CloseWrite();
    case BothRedirect(i, out) =>
      ghost var n, acts := |k.trace|, CloseChildEndsActs(rd);
      IssuedUnfold(k.answer, n, acts);
      IssuedUnfold(k.answer, n + 1, acts[1..]);
      assert acts[1..][1..] == [];
      o := out.CloseWrite();
      if o.Done? {
        o := i.CloseRead();
      }
  }

  /** fork_start(): run in the child when the redirector is used as hooks. */
  method ForkStart(rd: Redirector, k: Kernel) returns (o: Outcome)
    requires rd.On(k)
    modifies k
    ensures k.trace == old(k.trace) + Issued(k.answer, old(|k.trace|), ForkStartActs(rd))
    ensures o.Raised? <==> SomeFails(k.answer, old(|k.trace|), ForkStartActs(rd))
    ensures o.Raised? ==> o.error.kind == PipeError
  {
    match rd
    case StdinRedirect(p) =>
      o := RedirectThenClose(p, ForkStartActs(rd), true);
    case StdoutRedirect(p) =>
      o := RedirectThenClose(p, ForkStartActs(rd), false);
    case BothRedirect(i, out) =>
      hide Issued, SomeFails;
      ghost var n := |k.trace|;
      ghost var a, b := ForkStartActs(StdinRedirect(i)), ForkStartActs(StdoutRedirect(out));
      assert ForkStartActs(rd) == a + b;
      IssuedAppend(k.answer, n, a, b);
      o := RedirectThenClose(i, a, true);
      ghost var first := k.trace;
      if o.Done? {
        o := RedirectThenClose(out, b, false);
        ConcatAssoc(old(k.trace), Issued(k.answer, n, a), Issued(k.answer, n + 2, b));
      } else {
        assert first + [] == first;
      }
  }

  /** One pipe's half of fork_start: redirect stdin (or stdout) onto it,
      then close the end the child does not use. */
  method RedirectThenClose(p: IpcPipeUnix.Pipe, ghost acts: seq<Action>, stdin: bool) returns (o: Outcome)
    requires acts == if stdin then ForkStartActs(StdinRedirect(p)) else ForkStartActs(StdoutRedirect(p))
    modifies p.k
    ensures p.k.trace == old(p.k.trace) + Issued(p.k.answer, old(|p.k.trace|), acts)
    ensures o.Raised? <==> SomeFails(p.k.answer, old(|p.k.trace|), acts)
    ensures o.Raised? ==> o.error.kind == PipeError
  {
    ghost var n := |p.k.trace|;
    IssuedUnfold(p.k.answer, n, acts);
    IssuedUnfold(p.k.answer, n + 1, acts[1..]);
    assert acts[1..][1..] == [];
    if stdin {
      o := p.RedirectStdin();
      if o.Done? {
        o := p.CloseWrite();
      }
    } else {
      o := p.RedirectStdout();
      if o.Done? {
        o := p.CloseRead();
      }
    }
  }

  /** post_fork(): run in the parent when the redirector is used as hooks. */
  method PostFork(rd: Redirector, k: Kernel) returns (o: Outcome)
    requires rd.On(k)
    modifies k
    ensures k.trace == old(k.trace) + Issued(k.answer, old(|k.trace|), PostForkActs(rd))
    ensures o.Raised? <==> SomeFails(k.answer, old(|k.trace|), PostForkActs(rd))
    ensures o.Raised? ==> o.error.kind == PipeError
  {
    match rd
    case StdinRedirect(p) =>
      o := p.CloseRead();
    case StdoutRedirect(p) =>
      o := p.CloseWrite();
    case BothRedirect(i, out) =>
      ghost var n, acts := |k.trace|, PostForkActs(rd);
      IssuedUnfold(k.answer, n, acts);
      IssuedUnfold(k.answer, n + 1, acts[1..]);
      assert acts[1..][1..] == [];
      o := i.CloseRead();
      if o.Done? {
        o := out.CloseWrite();
      }
  }

  /** The two-pipe redirect() reports success when both dup2 calls failed
      with -1, where a one-pipe redirect() reports failure; and it reports
      failure when dup2 returned descriptor 0, which is what the stdin dup2
      returns when it succeeds. */
  lemma BothRedirectReadsRawInts(i: IpcPipeUnix.Pipe, o: IpcPipeUnix.Pipe, answer: nat -> Reply, n: nat)
    ensures answer(n + 1).ret == -1 && answer(n + 3).ret == -1 ==>
      RedirectResult(BothRedirect(i, o), answer, n) && !RedirectResult(StdoutRedirect(o), answer, n)
    ensures answer(n + 1).ret == 0 ==>
      !RedirectResult(BothRedirect(i, o), answer, n) && RedirectResult(StdoutRedirect(o), answer, n)
    ensures answer(n + 1).ret == STDOUT_FILENO && answer(n + 3).ret == STDIN_FILENO ==>
      !RedirectResult(BothRedirect(i, o), answer, n) &&
      RedirectResult(StdoutRedirect(o), answer, n) && RedirectResult(StdinRedirect(i), answer, n + 2)
  {
  }

  /** A successful dup2 returns the descriptor it duplicated onto, and the
      stdin dup2 duplicates onto descriptor 0: so when both dup2 calls of
      the two-pipe redirect() succeed, it still reports failure. */
  lemma BothRedirectFailsOnSuccess(i: IpcPipeUnix.Pipe, o: IpcPipeUnix.Pipe, answer: nat -> Reply, n: nat)
    requires answer(n + 1).ret == STDOUT_FILENO && answer(n + 3).ret == STDIN_FILENO
    ensures Issued(answer, n, RedirectActs(BothRedirect(i, o))) ==
      [Sys(Close(o.readFd)), Sys(Dup2(o.writeFd, STDOUT_FILENO)), Sys(Close(i.writeFd)), Sys(Dup2(i.readFd, STDIN_FILENO))]
    ensures !RedirectResult(BothRedirect(i, o), answer, n)
  {
    RedirectBothEvents(i, o, answer, n);
    IssuedUnfold(answer, n, StdoutHelperActs(o));
    IssuedUnfold(answer, n + 1, StdoutHelperActs(o)[1..]);
    IssuedUnfold(answer, n + 2, StdinHelperActs(i));
    IssuedUnfold(answer, n + 3, StdinHelperActs(i)[1..]);
    assert StdoutHelperActs(o)[1..][1..] == [];
    assert StdinHelperActs(i)[1..][1..] == [];
  }

  /** The calls of redirect() as evidently intended: both redirectors' dup2
      calls compared with -1, the stdin half issued only when the stdout
      dup2 did not fail. */
  function IntendedRedirectActs(rd: Redirector): seq<Action>
  {
    match rd
    case StdinRedirect(p) => [Action(Close(p.writeFd), NeverFails), Action(Dup2(p.readFd, STDIN_FILENO), FailsOnMinusOne)]
    case StdoutRedirect(p) => [Action(Close(p.readFd), NeverFails), Action(Dup2(p.writeFd, STDOUT_FILENO), FailsOnMinusOne)]
    case BothRedirect(i, o) =>
      [Action(Close(o.readFd), NeverFails), Action(Dup2(o.writeFd, STDOUT_FILENO), FailsOnMinusOne),
       Action(Close(i.writeFd), NeverFails), Action(Dup2(i.readFd, STDIN_FILENO), FailsOnMinusOne)]
  }

  /** The result of redirect() as evidently intended: every dup2 that ran
      returned something other than -1. */
  predicate IntendedRedirectResult(rd: Redirector, answer: nat -> Reply, n: nat)
  {
    match rd
    case BothRedirect(_, _) => answer(n + 1).ret != -1 && answer(n + 3).ret != -1
    case _ => answer(n + 1).ret != -1
  }

  /** The intended redirect() succeeds exactly when none of its dup2 calls
      fails, agrees with the one-pipe redirectors on each half, and issues
      the same calls as the written one whenever the stdout dup2 neither
      failed nor returned 0; the one-pipe redirectors are unchanged. */
  lemma IntendedRedirectSucceedsIffNoDup2Fails(rd: Redirector, answer: nat -> Reply, n: nat)
    ensures IntendedRedirectResult(rd, answer, n) <==> !SomeFails(answer, n, IntendedRedirectActs(rd))
    ensures rd.BothRedirect? ==> (IntendedRedirectResult(rd, answer, n) <==>
      RedirectResult(StdoutRedirect(rd.outPipe), answer, n) && RedirectResult(StdinRedirect(rd.inPipe), answer, n + 2))
    ensures rd.BothRedirect? && answer(n + 1).ret != -1 && answer(n + 1).ret != 0 ==>
      Issued(answer, n, IntendedRedirectActs(rd)) == Issued(answer, n, RedirectActs(rd))
    ensures !rd.BothRedirect? ==>
      Issued(answer, n, IntendedRedirectActs(rd)) == Issued(answer, n, RedirectActs(rd)) &&
      (IntendedRedirectResult(rd, answer, n) <==> RedirectResult(rd, answer, n))
  {
    var acts := IntendedRedirectActs(rd);
    IssuedUnfold(answer, n, acts);
    IssuedUnfold(answer, n + 1, acts[1..]);
    if rd.BothRedirect? {
      IssuedUnfold(answer, n + 2, acts[2..]);
      IssuedUnfold(answer, n + 3, acts[3..]);
      assert acts[1..][1..] == acts[2..] && acts[2..][1..] == acts[3..] && acts[3..][1..] == [];
      assert SomeFails(answer, n + 4, []) == false;
      if answer(n + 1).ret != -1 && answer(n + 1).ret != 0 {
        var w := RedirectActs(rd);
        IssuedUnfold(answer, n, w);
        IssuedUnfold(answer, n + 1, w[1..]);
        IssuedUnfold(answer, n + 2, w[2..]);
        IssuedUnfold(answer, n + 3, w[3..]);
        assert w[1..][1..] == w[2..] && w[2..][1..] == w[3..] && w[3..][1..] == [];
      }
    } else {
      var w := RedirectActs(rd);
      IssuedUnfold(answer, n, w);
      IssuedUnfold(answer, n + 1, w[1..]);
      assert acts[1..][1..] == [] && w[1..][1..] == [];
      assert !SomeFails(answer, n + 2, acts[1..][1..]);
    }
  }

  /** Whichever way it ends, close_child_ends touches only the ends the
      child uses: the read end of the stdin pipe and the write end of the
      stdout pipe. */
  lemma {:induction false} CloseChildEndsClosesChildEnds(rd: Redirector, answer: nat -> Reply, n: nat, e: Event)
    requires e in Issued(answer, n, CloseChildEndsActs(rd))
    ensures rd.StdinRedirect? ==> e == Sys(Close(rd.pipe.readFd))
    ensures rd.StdoutRedirect? ==> e == Sys(Close(rd.pipe.writeFd))
    ensures rd.BothRedirect? ==> e == Sys(Close(rd.outPipe.writeFd)) || e == Sys(Close(rd.inPipe.readFd))
  {
    var acts := CloseChildEndsActs(rd);
    IssuedCalls(answer, n, acts, e);
  }

  /** Every event a run logs is one of its actions' calls. */
  lemma {:induction false} IssuedCalls(answer: nat -> Reply, n: nat, acts: seq<Action>, e: Event)
    requires e in Issued(answer, n, acts)
    ensures exists j :: 0 <= j < |acts| && e == Sys(acts[j].call)
    decreases |acts|
  {
    if e != Sys(acts[0].call) {
      IssuedCalls(answer, n + 1, acts[1..], e);
      var j :| 0 <= j < |acts[1..]| && e == Sys(acts[1..][j].call);
      assert e == Sys(acts[j + 1].call);
    }
  }
}
