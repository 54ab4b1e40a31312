/** unix_fork (unix_fork.hpp): runs a function in a forked child, calling
    the hooks around fork, and makes the child _exit with the function's
    value. One run of `Launch` is seen from one process: the fork call's
    reply says which (0 in the child, a pid in the parent, -1 when fork
    failed and there is no child). */
module UnixFork {
  import opened CValues
  import opened Os
  import opened ProcessErrors
  import opened ForkHooks
  import ExecFunctors
  import ProcessUnix
  import RedirectionUnix
  import FailurePipe

  /** The function run in the child: a user function that returns its exit
      code, or an exec functor bound to its on-fail functor. */
  datatype Task =
    | UserFunction(code: int)
    | ExecTask(call: ExecFunctors.ExecCall, onFail: ExecFunctors.OnFail)
  {
    ghost predicate On(k: Kernel)
    {
      ExecTask? ==> onFail.On(k)
    }

    function Footprint(): set<object>
    {
      if ExecTask? then onFail.Footprint() else {}
    }
  }

  /** The child task's events when it starts at trace position m. */
  function TaskEvents(task: Task, answer: nat -> Reply, m: nat): (t: seq<Event>)
    ensures |t| >= 1
    ensures task.UserFunction? ==> t == [UserCode]
  {
    match task
    case UserFunction(_) => [UserCode]
    case ExecTask(call, onFail) => ExecFunctors.ExecEvents(call, onFail, answer, m)
  }

  /** The child task's value: None when exec replaced the child. */
  function TaskCode(task: Task, answer: nat -> Reply, m: nat): (r: Option<int>)
    ensures task.UserFunction? ==> r == Some(task.code)
  {
    match task
    case UserFunction(c) => Some(c)
    case ExecTask(call, onFail) => ExecFunctors.ExecCode(call, onFail, answer, m)
  }

  /** How a launch ends in the process that observes it. */
  datatype LaunchEnd = Returned | ChildExited(code: int) | ChildReplaced | LaunchThrew

  datatype ForkOutcome = ForkReturned | ForkExited(code: int) | ForkReplaced | ForkRaised(error: ProcessError)

  function ForkOutcomeEnd(o: ForkOutcome): LaunchEnd
  {
    match o
    case ForkReturned => Returned
    case ForkExited(c) => ChildExited(c)
    case ForkReplaced => ChildReplaced
    case ForkRaised(_) => LaunchThrew
  }

  /** In the child, fork_start finished and the child task returned a value
      (exec did not replace the child). */
  predicate TaskReturned(h: Hooks, task: Task, answer: nat -> Reply, m: nat)
  {
    HookEndOf(h, ForkStart, answer, m) == Finished &&
    TaskCode(task, answer, m + |HookEvents(h, ForkStart, answer, m)|).Some?
  }

  /** The child's events after fork_start finished, the child task starting at
      position m: the child task, and only if it returned, fork_end and _exit
      with its value. */
  function TaskRunEvents(task: Task, answer: nat -> Reply, m: nat): seq<Event>
  {
    var code := TaskCode(task, answer, m);
    TaskEvents(task, answer, m) + (if code.Some? then [Hook(ForkEnd), Sys(Exit(code.value))] else [])
  }

  /** The child's events from its fork_start marker at position m. */
  function ChildEvents(h: Hooks, task: Task, answer: nat -> Reply, m: nat): seq<Event>
  {
    var start := HookEvents(h, ForkStart, answer, m);
    start + (if HookEndOf(h, ForkStart, answer, m) == Finished then TaskRunEvents(task, answer, m + |start|) else [])
  }

  function ChildEnd(h: Hooks, task: Task, answer: nat -> Reply, m: nat): LaunchEnd
  {
    var e := HookEndOf(h, ForkStart, answer, m);
    if e == Finished then TaskRunEnd(task, answer, m + |HookEvents(h, ForkStart, answer, m)|)
    else if e == Threw then LaunchThrew
    else ChildExited(e.code)
  }

  /** How the child ends after fork_start finished. */
  function TaskRunEnd(task: Task, answer: nat -> Reply, m: nat): LaunchEnd
  {
    var code := TaskCode(task, answer, m);
    if code.Some? then ChildExited(code.value) else ChildReplaced
  }

  /** The events of launch from trace position n: pre_fork, fork, then the
      child's run, the parent's post_fork, or nothing when fork failed. */
  function LaunchEvents(h: Hooks, task: Task, answer: nat -> Reply, n: nat): seq<Event>
  {
    [Hook(PreFork), Sys(Fork)] + ForkSideEvents(h, task, answer, answer(n + 1).ret, n + 2)
  }

  /** The events after fork returned pid, from trace position m. */
  function ForkSideEvents(h: Hooks, task: Task, answer: nat -> Reply, pid: int, m: nat): seq<Event>
  {
    if pid == 0 then ChildEvents(h, task, answer, m)
    else if pid > 0 then HookEvents(h, PostFork, answer, m)
    else []
  }

  function LaunchEndOf(h: Hooks, task: Task, answer: nat -> Reply, n: nat): LaunchEnd
  {
    ForkSideEnd(h, task, answer, answer(n + 1).ret, n + 2)
  }

  /** How launch ends after fork returned pid, from trace position m. */
  function ForkSideEnd(h: Hooks, task: Task, answer: nat -> Reply, pid: int, m: nat): LaunchEnd
  {
    if pid == 0 then ChildEnd(h, task, answer, m)
    else if pid > 0 && HookEndOf(h, PostFork, answer, m) == Threw then LaunchThrew
    else Returned
  }

  /** Runs the child task in the child. */
  method RunTask(task: Task, k: Kernel) returns (code: Option<int>)
    requires task.On(k)
    modifies k, task.Footprint()
    ensures k.trace == old(k.trace) + TaskEvents(task, k.answer, old(|k.trace|))
    ensures code == TaskCode(task, k.answer, old(|k.trace|))
  {
    match task
    case UserFunction(c) =>
      k.Mark(UserCode);
      code := Some(c);
    case ExecTask(call, onFail) =>
      code := ExecFunctors.Run(call, onFail, k);
  }

  /** The child's side of launch. */
  method Child(h: Hooks, task: Task, k: Kernel) returns (o: ForkOutcome)
    requires h.On(k) && task.On(k)
    modifies k, h.Footprint(), task.Footprint()
    ensures k.trace == old(k.trace) + ChildEvents(h, task, k.answer, old(|k.trace|))
    ensures ForkOutcomeEnd(o) == ChildEnd(h, task, k.answer, old(|k.trace|))
    ensures o.ForkRaised? ==> o.error.kind == PipeError
  {
    ghost var m := |k.trace|;
    var ho := RunHook(h, ForkStart, k);
    ChildEventsCases(h, task, k.answer, m);
    if ho.HookRaised? {
      o := ForkRaised(ho.error);
    } else if ho.HookExited? {
      o := ForkExited(ho.code);
    } else {
      o := AfterForkStart(h, task, k, m, old(k.trace));
    }
  }

  /** The child once fork_start finished, with the trace `before` it and
      the fork_start marker at m. */
  method AfterForkStart(h: Hooks, task: Task, k: Kernel, ghost m: nat, ghost before: seq<Event>)
    returns (o: ForkOutcome)
    requires h.On(k) && task.On(k)
    requires |before| == m && HookEndOf(h, ForkStart, k.answer, m) == Finished
    requires k.trace == before + HookEvents(h, ForkStart, k.answer, m)
    modifies k, h.Footprint(), task.Footprint()
    ensures k.trace == before + ChildEvents(h, task, k.answer, m)
    ensures ForkOutcomeEnd(o) == ChildEnd(h, task, k.answer, m) && !o.ForkRaised?
  {
    hide *;
    ghost var start := HookEvents(h, ForkStart, k.answer, m);
    ghost var rest := TaskRunEvents(task, k.answer, m + |start|);
    ChildEventsCases(h, task, k.answer, m);
    o := RunTaskThenExit(h, task, k);
    ConcatAssoc(before, start, rest);
  }

  /** The child's events, by how fork_start ended. */
  lemma ChildEventsCases(h: Hooks, task: Task, answer: nat -> Reply, m: nat)
    ensures var start := HookEvents(h, ForkStart, answer, m);
      ChildEvents(h, task, answer, m) ==
        if HookEndOf(h, ForkStart, answer, m) == Finished then start + TaskRunEvents(task, answer, m + |start|)
        else start
    ensures HookEndOf(h, ForkStart, answer, m) == Finished ==>
      ChildEnd(h, task, answer, m) == TaskRunEnd(task, answer, m + |HookEvents(h, ForkStart, answer, m)|)
  {
    var start := HookEvents(h, ForkStart, answer, m);
    assert start + [] == start;
  }

  /** The child after fork_start: the child task, then fork_end and _exit. */
  method RunTaskThenExit(h: Hooks, task: Task, k: Kernel) returns (o: ForkOutcome)
    requires h.On(k) && task.On(k)
    modifies k, h.Footprint(), task.Footprint()
    ensures k.trace == old(k.trace) + TaskRunEvents(task, k.answer, old(|k.trace|))
    ensures ForkOutcomeEnd(o) == TaskRunEnd(task, k.answer, old(|k.trace|)) && !o.ForkRaised?
  {
    hide TaskEvents, TaskCode, HookEndOf;
    ghost var n := |k.trace|;
    var code := RunTask(task, k);
    ghost var events := TaskEvents(task, k.answer, n);
    if code.None? {
      assert events + [] == events;
      return ForkReplaced;
    }
    var _ := RunHook(h, ForkEnd, k);
    var _ := k.Call(Exit(code.value));
    o := ForkExited(code.value);
    ConcatAssoc(old(k.trace), events, [Hook(ForkEnd), Sys(Exit(code.value))]);
  }

  /** launch(func, hooks): pre_fork, fork, and then the child or the
      parent side; the pid is set from fork's result either way. */
  method Launch(proc: ProcessUnix.Process, task: Task, h: Hooks) returns (o: ForkOutcome)
    requires h.On(proc.k) && task.On(proc.k)
    modifies proc, proc.k, h.Footprint(), task.Footprint()
    ensures proc.k.trace == old(proc.k.trace) + LaunchEvents(h, task, proc.k.answer, old(|proc.k.trace|))
    ensures ForkOutcomeEnd(o) == LaunchEndOf(h, task, proc.k.answer, old(|proc.k.trace|))
    ensures proc.pid == proc.k.answer(old(|proc.k.trace|) + 1).ret
    ensures proc.pid < 0 ==> proc.k.errno == proc.k.answer(old(|proc.k.trace|) + 1).err
    ensures o.ForkRaised? ==> o.error.kind == PipeError
    ensures proc.pid != 0 ==> unchanged(h.Footprint()) && unchanged(task.Footprint())
  {
    hide LaunchEvents, LaunchEndOf, ForkSideEvents, ForkSideEnd, ChildEvents, ChildEnd, HookEvents, HookEndOf;
    var k := proc.k;
    ghost var n := |k.trace|;
    var pid := PreForkThenFork(h, k);
    proc.SetPid(pid);
    o := ForkSide(h, task, k, pid);
    LaunchSplit(h, task, k.answer, n);
    ConcatAssoc(old(k.trace), [Hook(PreFork), Sys(Fork)], ForkSideEvents(h, task, k.answer, pid, n + 2));
  }

  /** Launch's events and end, by what follows fork. */
  lemma LaunchSplit(h: Hooks, task: Task, answer: nat -> Reply, n: nat)
    ensures LaunchEvents(h, task, answer, n) ==
      [Hook(PreFork), Sys(Fork)] + ForkSideEvents(h, task, answer, answer(n + 1).ret, n + 2)
    ensures LaunchEndOf(h, task, answer, n) == ForkSideEnd(h, task, answer, answer(n + 1).ret, n + 2)
  {
  }

  /** pre_fork, which does nothing in every hooks type, then fork. */
  method PreForkThenFork(h: Hooks, k: Kernel) returns (pid: int)
    requires h.On(k)
    modifies k, h.Footprint()
    ensures h.On(k) && unchanged(h.Footprint())
    ensures k.trace == old(k.trace) + [Hook(PreFork), Sys(Fork)]
    ensures pid == k.answer(old(|k.trace|) + 1).ret && k.errno == k.answer(old(|k.trace|) + 1).err
  {
    var _ := RunHook(h, PreFork, k);
    var r := k.Call(Fork);
    pid := r.ret;
  }

  /** What follows fork: the child's run for pid 0, the parent's post_fork
      for a positive pid, nothing when fork failed. */
  method ForkSide(h: Hooks, task: Task, k: Kernel, pid: int) returns (o: ForkOutcome)
    requires h.On(k) && task.On(k)
    modifies k, h.Footprint(), task.Footprint()
    ensures k.trace == old(k.trace) + ForkSideEvents(h, task, k.answer, pid, old(|k.trace|))
    ensures ForkOutcomeEnd(o) == ForkSideEnd(h, task, k.answer, pid, old(|k.trace|))
    ensures o.ForkRaised? ==> o.error.kind == PipeError
    ensures pid != 0 ==> unchanged(h.Footprint()) && unchanged(task.Footprint())
    ensures pid < 0 ==> k.errno == old(k.errno)
  {
    if pid == 0 {
      o := Child(h, task, k);
    } else if pid > 0 {
      o := Parent(h, k);
    } else {
      o := ForkReturned;
      assert old(k.trace) + [] == k.trace;
    }
  }

  /** The parent's side of launch: post_fork. */
  method Parent(h: Hooks, k: Kernel) returns (o: ForkOutcome)
    requires h.On(k)
    modifies k, h.Footprint()
    ensures k.trace == old(k.trace) + HookEvents(h, PostFork, k.answer, old(|k.trace|))
    ensures ForkOutcomeEnd(o) == (if HookEndOf(h, PostFork, k.answer, old(|k.trace|)) == Threw then LaunchThrew else Returned)
    ensures o.ForkRaised? ==> o.error.kind == PipeError
    ensures unchanged(h.Footprint())
  {
    ghost var m := |k.trace|;
    var ho := RunHook(h, PostFork, k);
    if ho.HookRaised? {
      o := ForkRaised(ho.error);
    } else {
      assert HookEndOf(h, PostFork, k.answer, m) != Threw;
      o := ForkReturned;
    }
  }

  const MSG_FORK := "couldn't fork process"

  /** The unix_fork constructors. The process starts with no pid and
      launch sets it. launch_no_hooks is launch with null_hooks. Unless
      nothrow was asked for, a returned launch whose fork failed (pid -1)
      raises create_error with the errno fork left. */
  method NewUnixFork(k: Kernel, task: Task, h: Hooks, nothrow: bool) returns (proc: ProcessUnix.Process, o: ForkOutcome)
    requires h.On(k) && task.On(k)
    modifies k, h.Footprint(), task.Footprint()
    ensures fresh(proc) && proc.k == k
    ensures k.trace == old(k.trace) + LaunchEvents(h, task, k.answer, old(|k.trace|))
    ensures proc.pid == k.answer(old(|k.trace|) + 1).ret
    ensures !nothrow && proc.pid == -1 ==>
      o == ForkRaised(ThrowSystemError(CreateError, k.answer(old(|k.trace|) + 1).err, MSG_FORK))
    ensures nothrow || proc.pid != -1 ==> ForkOutcomeEnd(o) == LaunchEndOf(h, task, k.answer, old(|k.trace|))
    ensures o.ForkRaised? && o.error.kind == CreateError <==> !nothrow && proc.pid == -1
    ensures ForkFailed(proc) <==> k.answer(old(|k.trace|) + 1).ret == -1
    ensures ForkFailed(proc) && !nothrow ==> o.ForkRaised? && o.error.kind == CreateError
  {
    proc := new ProcessUnix.Process.NoInit(k);
    o := Launch(proc, task, h);
    if !nothrow && proc.pid == -1 {
      o := ForkRaised(ThrowSystemError(CreateError, k.errno, MSG_FORK));
    }
  }

  /** error(): the fork failed. */
  predicate ForkFailed(proc: ProcessUnix.Process)
    reads proc
    ensures ForkFailed(proc) <==> proc.pid == -1
  {
    proc.pid == -1
  }

  /** The hook points a trace passes, in order. */
  function HookPoints(t: seq<Event>): seq<HookPoint>
  {
    if t == [] then [] else (if t[0].Hook? then [t[0].point] else []) + HookPoints(t[1..])
  }

  lemma {:induction false} HookPointsAppend(a: seq<Event>, b: seq<Event>)
    ensures HookPoints(a + b) == HookPoints(a) + HookPoints(b)
    decreases |a|
  {
    if a == [] {
      assert a + b == b;
    } else {
      assert (a + b)[0] == a[0] && (a + b)[1..] == a[1..] + b;
      HookPointsAppend(a[1..], b);
    }
  }

  lemma {:induction false} NoHookPoints(t: seq<Event>)
    requires forall i :: 0 <= i < |t| ==> !t[i].Hook?
    ensures HookPoints(t) == []
    decreases |t|
  {
    if t != [] {
      NoHookPoints(t[1..]);
    }
  }

  /** A run of system calls passes no hook point. */
  lemma IssuedNoHookPoints(answer: nat -> Reply, n: nat, acts: seq<Action>)
    ensures HookPoints(Issued(answer, n, acts)) == []
  {
    var t := Issued(answer, n, acts);
    forall i | 0 <= i < |t| ensures !t[i].Hook? {
      RedirectionUnix.IssuedCalls(answer, n, acts, t[i]);
    }
    NoHookPoints(t);
  }

  /** Running hook p passes exactly the hook point p. */
  lemma HookEventsPoints(h: Hooks, p: HookPoint, answer: nat -> Reply, n: nat)
    ensures HookPoints(HookEvents(h, p, answer, n)) == [p]
  {
    var calls := HookCalls(h, p, answer, n + 1);
    assert HookEvents(h, p, answer, n) == [Hook(p)] + calls;
    HookPointsAppend([Hook(p)], calls);
    assert HookPoints([Hook(p)]) == [p] by {
      assert [Hook(p)][1..] == [];
    }
    match h
    case NullHooks =>
      assert calls == [];
    case RedirectorHooks(rd) =>
      RedirectorCallsNoHookPoints(rd, p, answer, n + 1);
    case RedirectingHooks(fp, rd) =>
      RedirectingCallsNoHookPoints(fp, rd, p, answer, n + 1);
  }

  lemma RedirectorCallsNoHookPoints(rd: RedirectionUnix.Redirector, p: HookPoint, answer: nat -> Reply, m: nat)
    ensures HookPoints(HookCalls(RedirectorHooks(rd), p, answer, m)) == []
  {
    if p == ForkStart {
      IssuedNoHookPoints(answer, m, RedirectionUnix.ForkStartActs(rd));
    } else if p == PostFork {
      IssuedNoHookPoints(answer, m, RedirectionUnix.PostForkActs(rd));
    } else {
      assert HookCalls(RedirectorHooks(rd), p, answer, m) == [];
    }
  }

  lemma RedirectingCallsNoHookPoints(fp: FailurePipe.FailurePipe, rd: RedirectionUnix.Redirector, p: HookPoint,
                                     answer: nat -> Reply, m: nat)
    ensures HookPoints(HookCalls(RedirectingHooks(fp, rd), p, answer, m)) == []
  {
    var calls := HookCalls(RedirectingHooks(fp, rd), p, answer, m);
    if p == ForkStart {
      var red := Issued(answer, m, RedirectionUnix.RedirectActs(rd));
      IssuedNoHookPoints(answer, m, RedirectionUnix.RedirectActs(rd));
      if !RedirectionUnix.RedirectResult(rd, answer, m) {
        var tail := calls[|red|..];
        assert calls == red + tail;
        HookPointsAppend(red, tail);
        NoHookPoints(tail);
      }
    } else if p == PostFork {
      IssuedNoHookPoints(answer, m, RedirectionUnix.CloseChildEndsActs(rd));
    } else {
      assert calls == [];
    }
  }

  /** A task passes no hook point. */
  lemma TaskNoHookPoints(task: Task, answer: nat -> Reply, m: nat)
    ensures HookPoints(TaskEvents(task, answer, m)) == []
  {
    NoHookPoints(TaskEvents(task, answer, m));
  }

  /** The order in which launch calls the hooks, as each process sees it:
      the parent runs pre_fork then post_fork; the child runs pre_fork then
      fork_start, and fork_end only when the child task returned; when fork fails
      only pre_fork has run. fork_start and fork_end never run in the
      parent, nor post_fork in the child. */
  lemma LaunchHookOrder(h: Hooks, task: Task, answer: nat -> Reply, n: nat)
    ensures var hp := HookPoints(LaunchEvents(h, task, answer, n));
      var pid := answer(n + 1).ret;
      (pid > 0 ==> hp == [PreFork, PostFork]) &&
      (pid < 0 ==> hp == [PreFork]) &&
      (pid == 0 ==> hp == [PreFork, ForkStart] + (if TaskReturned(h, task, answer, n + 2) then [ForkEnd] else []))
  {
    hide LaunchEvents, ForkSideEvents, ChildEvents, HookEvents;
    var pid := answer(n + 1).ret;
    var head: seq<Event> := [Hook(PreFork), Sys(Fork)];
    var rest := ForkSideEvents(h, task, answer, pid, n + 2);
    LaunchSplit(h, task, answer, n);
    ForkSideEventsCases(h, task, answer, pid, n + 2);
    assert HookPoints(head) == [PreFork] by {
      assert head[1..][1..] == [];
    }
    if pid > 0 {
      HookEventsPoints(h, PostFork, answer, n + 2);
      PointsOfConcat(head, rest, [PreFork], [PostFork]);
    } else if pid == 0 {
      var tail: seq<HookPoint> := if TaskReturned(h, task, answer, n + 2) then [ForkEnd] else [];
      ChildHookOrder(h, task, answer, n + 2);
      PointsOfConcat(head, rest, [PreFork], [ForkStart] + tail);
      assert [PreFork] + ([ForkStart] + tail) == [PreFork, ForkStart] + tail;
    } else {
      PointsOfConcat(head, rest, [PreFork], []);
    }
  }

  /** launch returns normally only in the parent: the child always ends by
      _exit, an exec, or an exception out of fork_start. */
  lemma ReturnsOnlyInParent(h: Hooks, task: Task, answer: nat -> Reply, n: nat)
    ensures LaunchEndOf(h, task, answer, n) == Returned ==> answer(n + 1).ret != 0
  {
    if answer(n + 1).ret == 0 {
      var e := HookEndOf(h, ForkStart, answer, n + 2);
      assert e == Finished || e == Threw || e.ExitedWith?;
    }
  }

  /** What follows fork, by the pid it returned. */
  lemma ForkSideEventsCases(h: Hooks, task: Task, answer: nat -> Reply, pid: int, m: nat)
    ensures pid == 0 ==> ForkSideEvents(h, task, answer, pid, m) == ChildEvents(h, task, answer, m)
    ensures pid > 0 ==> ForkSideEvents(h, task, answer, pid, m) == HookEvents(h, PostFork, answer, m)
    ensures pid < 0 ==> ForkSideEvents(h, task, answer, pid, m) == []
  {
  }

  /** The child's part of LaunchHookOrder. */
  lemma ChildHookOrder(h: Hooks, task: Task, answer: nat -> Reply, m: nat)
    ensures HookPoints(ChildEvents(h, task, answer, m)) ==
      [ForkStart] + (if TaskReturned(h, task, answer, m) then [ForkEnd] else [])
  {
    if HookEndOf(h, ForkStart, answer, m) == Finished {
      ChildHookOrderRan(h, task, answer, m);
    } else {
      ChildHookOrderStopped(h, task, answer, m);
    }
  }

  /** A child whose fork_start did not finish passes only fork_start. */
  lemma ChildHookOrderStopped(h: Hooks, task: Task, answer: nat -> Reply, m: nat)
    requires HookEndOf(h, ForkStart, answer, m) != Finished
    ensures HookPoints(ChildEvents(h, task, answer, m)) == [ForkStart]
  {
    ChildEventsCases(h, task, answer, m);
    HookEventsPoints(h, ForkStart, answer, m);
  }

  /** A child whose fork_start finished passes fork_start, then fork_end
      when the child task returned. */
  lemma ChildHookOrderRan(h: Hooks, task: Task, answer: nat -> Reply, m: nat)
    requires HookEndOf(h, ForkStart, answer, m) == Finished
    ensures var start := HookEvents(h, ForkStart, answer, m);
      HookPoints(ChildEvents(h, task, answer, m)) ==
        [ForkStart] + (if TaskCode(task, answer, m + |start|).Some? then [ForkEnd] else [])
  {
    hide *;
    var start := HookEvents(h, ForkStart, answer, m);
    var rest := TaskRunEvents(task, answer, m + |start|);
    ChildEventsCases(h, task, answer, m);
    HookEventsPoints(h, ForkStart, answer, m);
    TaskRunHookPoints(task, answer, m + |start|);
    PointsOfConcat(start, rest, [ForkStart],
      if TaskCode(task, answer, m + |start|).Some? then [ForkEnd] else []);
  }

  /** The hook points of two traces put together. */
  lemma PointsOfConcat(a: seq<Event>, b: seq<Event>, p: seq<HookPoint>, q: seq<HookPoint>)
    requires HookPoints(a) == p && HookPoints(b) == q
    ensures HookPoints(a + b) == p + q
  {
    HookPointsAppend(a, b);
  }

  /** After fork_start, the child passes fork_end exactly when the child task
      returned. */
  lemma TaskRunHookPoints(task: Task, answer: nat -> Reply, m: nat)
    ensures HookPoints(TaskRunEvents(task, answer, m)) ==
      if TaskCode(task, answer, m).Some? then [ForkEnd] else []
  {
    var code := TaskCode(task, answer, m);
    var te := TaskEvents(task, answer, m);
    var tail: seq<Event> := if code.Some? then [Hook(ForkEnd), Sys(Exit(code.value))] else [];
    assert TaskRunEvents(task, answer, m) == te + tail;
    HookPointsAppend(te, tail);
    TaskNoHookPoints(task, answer, m);
    if code.Some? {
      assert tail[1..] == [Sys(Exit(code.value))];
      assert tail[1..][1..] == [];
      assert HookPoints(tail[1..]) == [];
    } else {
      assert HookPoints(tail) == [];
    }
  }
}
