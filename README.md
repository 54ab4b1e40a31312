# tune: processes, settings and audio helpers in Dafny

This project models the core of the `tune` tone generator and its process
library `para::process`.

**The process library.**
- A `process_unix` handle signals and waits on a pid.
- A `unix_fork` runs a task in a forked child. Hooks run before the fork, in the child just after it, when the child's task ends, and in the parent after the fork.
- A `unix_named_process` execs a program in that child:
  - it chooses `execv`, `execvp` or `execve` from the program's tags;
  - it can redirect the child's stdin and/or stdout into `ipc_pipe`s;
  - a close-on-exec `failure_pipe` carries the stage and errno of a failed exec or redirect back to the parent.
- On Windows the library does the same with `CreateProcess`:
  - it builds a quoted command line;
  - it starts the child suspended, duplicates its handle, then resumes its thread;
  - `process_win32` waits for the child, terminates it and opens processes by pid.

**The rest of the program.**
- The `setenvpath` build helper: appends `-p` directories to PATH and runs a quoted command line.
- The note parser: `c`, `b#`, `e--` and the like become half steps from concert A.
- The settings object: defaults, stored option values, and the checks run after parsing in their order.
- The SDL helpers: audio status names and `audio_spec` with its computed period.
- The queue pusher: passes sample buffers to the audio thread.

**How system calls are modelled.** The operating system is a `Kernel` object (module `Os`):
- it logs every call the code makes, in order, in `trace`;
- it answers the n-th call with `answer(n)`, a parameter fixed in advance, which holds the return value, the errno / `GetLastError()` and the out-values;
- the open and inheritable descriptors, `Fds()`, are obtained by replaying the trace.

So every contract says which calls are made, in which order, and what follows from each possible answer. Hooks, user functors and the child's task are marks in the same trace.

**How errors are modelled.** A C++ `throw` becomes `Raised(e)` or `Err(e)`. Here `e` is a `ProcessError` with the exception class, the error code and the reason text.

## Model

| member | source | states |
|---|---|---|
| CValues.UInt32ToInt32 | include/para/process/detail/process_win32.hpp:35 | reading a DWORD as an int: result in the int range, congruent modulo 2^32, unchanged below 2^31 |
| CValues.ToUInt32 | src/sdl.hpp:130 | the int-to-Uint32 conversion: in range, congruent modulo 2^32, identity on values already in range |
| CValues.ToUInt8 | src/sdl.hpp:121 | the conversion to Uint8 for the channel count: in range, congruent modulo 256, identity in range |
| CValues.ToUInt16 | src/sdl.hpp:110-113 | the conversion to Uint16 for format and samples: in range, congruent modulo 65536, identity in range |
| ProcessErrors.ThrowSystemError | include/para/process/exceptions.hpp:110-114 | the thrown error has the given class, reason and code, in the system category |
| ProcessErrors.LowerFirst | include/para/process/exceptions.hpp:47-49 | the message keeps its length and all characters after the first; only an upper-case first letter changes, to its lower case |
| ProcessErrors.WhatMessageShape | include/para/process/exceptions.hpp:36-50 | what() is the reason, ": ", then the system message with its first letter lowered |
| ProcessErrors.ErrorObject.constructor | include/para/process/exceptions.hpp:21-26 | a new error has no cached message |
| ProcessErrors.ErrorObject.What | include/para/process/exceptions.hpp:36-57 | the message is built once and then returned from the cache unchanged; if building fails part-way, the reason is returned and the partial text stays cached |
| ProcessErrors.WhatIsStable | include/para/process/exceptions.hpp:36-57 | two calls of what() without a failure return the same full message |
| Status.ProcessStatus.Exited | include/para/process/detail/process_unix.hpp:32 | a unix status asks WIFEXITED of the word; a win32 status gives its exited flag |
| Status.ProcessStatus.ExitStatus | include/para/process/detail/process_win32.hpp:37 | a unix status asks WEXITSTATUS; a win32 status gives its DWORD code as a 32-bit int, the code itself below 2^31 |
| Status.ProcessStatus.Signaled | include/para/process/detail/status_base.hpp:33 | a unix status asks WIFSIGNALED; a win32 status is never signaled |
| Status.ProcessStatus.Signal | include/para/process/detail/status_base.hpp:34 | a unix status asks WTERMSIG; a win32 status gives signal 0 |
| Status.ProcessStatus.Success | include/para/process/detail/status_base.hpp:25-31 | success implies the process exited, and a non-zero exit status is never a success |
| Status.Win32Accessors | include/para/process/detail/process_win32.hpp:26-49 | a win32 status gives back its exited flag and its exit code, and never reports a signal |
| Status.Win32SuccessIff | include/para/process/detail/process_win32.hpp:26-49 | a win32 status is a success exactly when it exited with code 0 |
| Status.UnixSuccessIff | include/para/process/detail/process_unix.hpp:27-45 | a unix status is a success exactly when the wait macros say it exited with status 0 |
| ExecFunctors.ExecSyscall | include/para/process/unix_named_process.hpp:34-55 | the searching functor calls execvp, the non-searching ones execv or execve, and execve exactly when an environment is given |
| ExecFunctors.OnFailEnv | include/para/process/unix_named_process.hpp:43-55 | the on-fail functor receives the environment only for execve, otherwise NULL |
| ExecFunctors.ExecEvents | include/para/process/unix_named_process.hpp:34-55 | the exec call comes first; the on-fail functor runs only when exec returned -1, and only a piped one reports through the pipe |
| ExecFunctors.ExecCode | include/para/process/unix_named_process.hpp:27-55 | there is no code exactly when exec succeeded; return_errno and the piped functor give errno |
| ExecFunctors.Run | include/para/process/unix_named_process.hpp:34-55 | running an exec functor leaves exactly ExecEvents in the trace and returns ExecCode |
| FailurePipe.StageCode | include/para/process/detail/named_process_unix.hpp:22 | the stage word is 0 exactly for err_exec |
| FailurePipe.ReadPayload | include/para/process/detail/named_process_unix.hpp:44-51 | a complete read replaces both words; a short or failed read leaves the buffer as it was |
| FailurePipe.FailurePipe.constructor | include/para/process/detail/named_process_unix.hpp:24-32 | the error buffer starts as two zero words |
| FailurePipe.FailurePipe.ReportError | include/para/process/detail/named_process_unix.hpp:35-40 | the child stores (stage, errno), writes both words, then closes its write end |
| FailurePipe.FailurePipe.ReadErrorData | include/para/process/detail/named_process_unix.hpp:44-51 | the parent closes its write end, clears the errno word, then reads; it raises pipe_error exactly when the read returned -1 |
| FailurePipe.FailurePipe.Error | include/para/process/detail/named_process_unix.hpp:54 | the stage word, the first of the two payload words |
| FailurePipe.FailurePipe.ErrorNumber | include/para/process/detail/named_process_unix.hpp:56 | the errno word, the second payload word; ReadErrorData leaves it 0 when the child sent nothing |
| FailurePipe.FailurePipe.Destroy | include/para/process/detail/ipc_pipe_unix.hpp:38-41 | destroying the member pipe closes its read end, then its write end |
| FailurePipe.NewFailurePipe | include/para/process/detail/named_process_unix.hpp:24-32 | pipe creation failure raises pipe_error; failure to set close-on-exec on the write end raises create_error after closing both ends; otherwise both ends are marked close-on-exec |
| FailurePipe.PipedErrorOnFail | include/para/process/detail/named_process_unix.hpp:64-74 | reports (err_exec, num) through the pipe and returns num unchanged |
| FailurePipe.PayloadRoundTrip | include/para/process/detail/named_process_unix.hpp:35-51 | what report_error writes is read back word for word, and end of file leaves the errno word 0 |
| IpcPipeUnix.Pipe.constructor | include/para/process/detail/ipc_pipe_unix.hpp:62-64 | the pipe keeps its kernel and its two descriptors |
| IpcPipeUnix.Pipe.CloseReadNothrow | include/para/process/detail/ipc_pipe_unix.hpp:53 | close(read end); true exactly when close did not return -1, and the descriptor is then closed |
| IpcPipeUnix.Pipe.CloseWriteNothrow | include/para/process/detail/ipc_pipe_unix.hpp:44 | close(write end); true exactly when close did not return -1, and the descriptor is then closed |
| IpcPipeUnix.Pipe.CloseRead | include/para/process/detail/ipc_pipe_unix.hpp:55-59 | raises pipe_error with errno exactly when close returned -1 |
| IpcPipeUnix.Pipe.CloseWrite | include/para/process/detail/ipc_pipe_unix.hpp:46-50 | raises pipe_error exactly when close returned -1, with the read-end message the code uses |
| IpcPipeUnix.Pipe.Destroy | include/para/process/detail/ipc_pipe_unix.hpp:38-41 | the destructor closes read then write and ignores both results |
| IpcPipeUnix.Pipe.DoRedirect | include/para/process/detail/ipc_pipe_unix.hpp:73-78 | dup2(end, stream); the stream then refers to the pipe end when dup2 succeeded |
| IpcPipeUnix.Pipe.RedirectStdin | include/para/process/detail/ipc_pipe_unix.hpp:69 | stdin is redirected from the read end |
| IpcPipeUnix.Pipe.RedirectStdout | include/para/process/detail/ipc_pipe_unix.hpp:71 | stdout is redirected to the write end |
| IpcPipeUnix.Create | include/para/process/detail/ipc_pipe_unix.hpp:30-35 | raises pipe_error exactly when pipe() returned -1; otherwise both new descriptors are open |
| IpcPipeUnix.CloseReadTwice | include/para/process/detail/ipc_pipe_unix.hpp:53-59 | closing the same end twice issues two close calls on the same descriptor |
| IpcPipeWin32.Pipe.constructor | include/para/process/detail/ipc_pipe_win32.hpp:39-40 | the pipe keeps its kernel and its two handles |
| IpcPipeWin32.Pipe.CloseReadNothrow | include/para/process/detail/ipc_pipe_win32.hpp:54 | CloseHandle(read); true exactly when it returned non-zero, and the handle is then closed |
| IpcPipeWin32.Pipe.CloseWriteNothrow | include/para/process/detail/ipc_pipe_win32.hpp:55 | CloseHandle(write); true exactly when it returned non-zero, and the handle is then closed |
| IpcPipeWin32.Pipe.CloseRead | include/para/process/detail/ipc_pipe_win32.hpp:42-46 | raises pipe_error with GetLastError() exactly when CloseHandle returned 0 |
| IpcPipeWin32.Pipe.CloseWrite | include/para/process/detail/ipc_pipe_win32.hpp:48-52 | raises pipe_error exactly when CloseHandle returned 0, with the read-end message the code uses |
| IpcPipeWin32.Pipe.Destroy | include/para/process/detail/ipc_pipe_win32.hpp:34-37 | closes both handles and ignores the results |
| IpcPipeWin32.Pipe.DisableInherit | include/para/process/detail/ipc_pipe_win32.hpp:58-62 | raises pipe_error exactly when SetHandleInformation returned 0; otherwise the handle is no longer inheritable |
| IpcPipeWin32.Create | include/para/process/detail/ipc_pipe_win32.hpp:20-32 | CreatePipe with inheritable handles; raises exactly when it returned 0; otherwise both handles are open and inheritable |
| RedirectionUnix.RedirectStdinHelper | include/para/process/detail/redirection_unix.hpp:23-26 | closes the write end without checking, then dup2s the read end onto stdin and returns dup2's raw result |
| RedirectionUnix.RedirectStdoutHelper | include/para/process/detail/redirection_unix.hpp:29-32 | closes the read end without checking, then dup2s the write end onto stdout and returns dup2's raw result |
| RedirectionUnix.Redirect | include/para/process/detail/redirection_unix.hpp:42-88 | the dup2 calls of each redirector, in order; success is decided as each redirector's code decides it, and errno comes from the last call |
| RedirectionUnix.RedirectBothEvents | include/para/process/detail/redirection_unix.hpp:86-88 | the two-pipe redirect does redirect_stdout first, and redirect_stdin only when the stdout dup2 returned non-zero |
| RedirectionUnix.CloseChildEnds | include/para/process/detail/redirection_unix.hpp:46-93 | the parent closes the child's ends in order, stops at the first failure, and raises pipe_error exactly when one failed |
| RedirectionUnix.ForkStart | include/para/process/detail/redirection_unix.hpp:48-100 | in the child: closes the parent's ends, stops at the first failure, and raises pipe_error exactly when one failed |
| RedirectionUnix.RedirectThenClose | include/para/process/detail/redirection_unix.hpp:48-75 | the redirect-then-close sequence of one pipe, with the same stop-at-failure rule |
| RedirectionUnix.PostFork | include/para/process/detail/redirection_unix.hpp:53-105 | in the parent: closes the child's ends, raising pipe_error exactly when a close failed |
| RedirectionUnix.BothRedirectReadsRawInts | include/para/process/detail/redirection_unix.hpp:86-88 | the two-pipe redirect treats two -1 returns as success and a 0 return as failure, unlike the one-pipe redirects; so when the stdout dup2 returns 1 and the stdin dup2 returns 0, both successes, it reports failure |
| RedirectionUnix.BothRedirectFailsOnSuccess | include/para/process/detail/redirection_unix.hpp:86-88 | as written, when both dup2 calls succeed the two-pipe redirect issues all four calls and still reports failure |
| RedirectionUnix.IntendedRedirectSucceedsIffNoDup2Fails | include/para/process/detail/redirection_unix.hpp:40-88 | with each dup2 compared with -1, redirect succeeds exactly when no dup2 fails; the two-pipe form succeeds exactly when both one-pipe halves would; the one-pipe forms are unchanged |
| RedirectionUnix.CloseChildEndsClosesChildEnds | include/para/process/detail/redirection_unix.hpp:46-93 | every call close_child_ends makes closes one of the child's ends: the stdin pipe's read end or the stdout pipe's write end |
| RedirectionWin32.Redirector.StdinHandle | include/para/process/detail/redirection_win32.hpp:32-69 | the child's stdin is the pipe's read end when stdin is redirected, otherwise the parent's own standard input |
| RedirectionWin32.Redirector.StdoutHandle | include/para/process/detail/redirection_win32.hpp:33-68 | the child's stdout is the pipe's write end when stdout is redirected, otherwise the parent's own standard output |
| RedirectionWin32.NewStdinRedirect | include/para/process/detail/redirection_win32.hpp:19-26 | disables inheritance of the parent's write end and raises pipe_error when that failed |
| RedirectionWin32.NewStdoutRedirect | include/para/process/detail/redirection_win32.hpp:43-45 | disables inheritance of the parent's read end and raises pipe_error when that failed |
| RedirectionWin32.CloseChildEnds | include/para/process/detail/redirection_win32.hpp:31-66 | the calls of each redirector's close_child_ends, up to the first that fails; the stdin form ignores its result; raises pipe_error exactly when a checked close failed |
| RedirectionWin32.CloseBoth | include/para/process/detail/redirection_win32.hpp:61-66 | the two-pipe close: the stdout pipe's write end, then the stdin pipe's read end, each raising pipe_error when it fails, then CloseHandle again on both handles |
| RedirectionWin32.BothCloses | include/para/process/detail/redirection_win32.hpp:61-66 | the two-pipe close stops at the first failing pipe close and raises exactly then; when both succeed, each handle is closed twice |
| ForkHooks.HookEvents | include/para/process/unix_fork.hpp:22-27 | every hook call is logged at its hook point first; pre_fork and fork_end hooks and the null hooks do nothing more |
| ForkHooks.HookEndOf | include/para/process/detail/named_process_unix.hpp:77-96 | only fork_start and post_fork can raise; only the redirecting hooks' fork_start exits the child, with status 1 |
| ForkHooks.RunHook | include/para/process/detail/named_process_unix.hpp:77-96 | running a hook leaves exactly HookEvents in the trace and ends as HookEndOf says |
| ForkHooks.RunCalls | include/para/process/detail/redirection_unix.hpp:36-111 | the calls of a hook are issued in order up to the first failure, which raises pipe_error |
| ForkHooks.RunRedirectorHook | include/para/process/detail/redirection_unix.hpp:36-111 | a plain redirector's hook at a point: its calls for that point, raising pipe_error when one fails |
| ForkHooks.RunRedirectingHook | include/para/process/detail/named_process_unix.hpp:77-96 | the redirecting hooks: the child redirects or reports and exits; the parent closes the child's ends |
| ForkHooks.RedirectingForkStart | include/para/process/detail/named_process_unix.hpp:83-88 | the child continues exactly when the redirect succeeded; otherwise it reports (err_redirect, errno) and exits with 1 |
| ForkHooks.BothRedirectSuccessExits | include/para/process/detail/named_process_unix.hpp:83-88 | with the two-pipe redirector, a child whose dup2 calls both succeed reports err_redirect with the errno left behind and exits with status 1 |
| ForkHooks.ReportAndExit | include/para/process/detail/named_process_unix.hpp:84-87 | writes the failure report, closes the write end, then _exit(1) |
| ProcessUnix.SignalNumber | include/para/process/detail/process_unix.hpp:48-54 | each signal enum maps to its POSIX signal number |
| ProcessUnix.SignalNumbersDistinct | include/para/process/detail/process_unix.hpp:48-54 | two signals have the same number exactly when they are the same signal |
| ProcessUnix.DoWaitPid | include/para/process/detail/process_unix.hpp:66-75 | raises wait_error exactly when waitpid returned -1; otherwise the status decodes the word waitpid wrote |
| ProcessUnix.Process.NoInit | include/para/process/detail/process_unix.hpp:166 | the pid starts at 0 |
| ProcessUnix.Process.WithPid | include/para/process/detail/process_unix.hpp:92-104 | the object holds the given pid |
| ProcessUnix.Process.SetPid | include/para/process/detail/process_unix.hpp:169 | the pid is set to the given value |
| ProcessUnix.Process.Wait | include/para/process/detail/process_unix.hpp:126 | a blocking waitpid (flags 0) with the do_wait_pid outcome |
| ProcessUnix.Process.WaitNb | include/para/process/detail/process_unix.hpp:130 | waitpid with WNOHANG, with the do_wait_pid outcome |
| ProcessUnix.Process.DoSignal | include/para/process/detail/process_unix.hpp:173-175 | kill(pid, signal); true exactly when kill did not return -1 |
| ProcessUnix.Process.TerminateNothrow | include/para/process/detail/process_unix.hpp:145-147 | sends SIGTERM; true exactly when kill succeeded |
| ProcessUnix.Process.Terminate | include/para/process/detail/process_unix.hpp:139-143 | sends SIGTERM; raises signal_error with errno exactly when kill failed |
| ProcessUnix.Process.KillNothrow | include/para/process/detail/process_unix.hpp:156-158 | sends SIGKILL; true exactly when kill succeeded |
| ProcessUnix.Process.Kill | include/para/process/detail/process_unix.hpp:150-154 | sends SIGKILL; raises signal_error exactly when kill failed |
| ProcessUnix.Open | include/para/process/detail/process_unix.hpp:92-104 | pid 0 is refused with ESRCH and no call; any other pid is refused exactly when kill(p, 0) failed with ESRCH |
| ProcessUnix.Current | include/para/process/detail/process_unix.hpp:58 | the current process's pid, from getpid |
| ProcessWin32.Process.NoInit | include/para/process/detail/process_win32.hpp:109 | pid and handle start at 0 |
| ProcessWin32.Process.WithHandle | include/para/process/detail/process_win32.hpp:62 | the object holds the given pid and handle |
| ProcessWin32.Process.SetPid | include/para/process/detail/process_win32.hpp:111 | the pid is set to the given value |
| ProcessWin32.Process.SetProcessHandle | include/para/process/detail/process_win32.hpp:114 | the handle is set to the given value |
| ProcessWin32.Process.Destroy | include/para/process/detail/process_win32.hpp:64-70 | the handle is closed unless it is the current-process pseudo-handle |
| ProcessWin32.Process.Wait | include/para/process/detail/process_win32.hpp:72-83 | WAIT_FAILED raises wait_error; otherwise the status is the exit code with exited set |
| ProcessWin32.Process.KillNothrow | include/para/process/detail/process_win32.hpp:88-90 | true exactly when TerminateProcess returned 0, i.e. when it failed, as the code is written |
| ProcessWin32.Process.Kill | include/para/process/detail/process_win32.hpp:93-97 | raises signal_error exactly when TerminateProcess succeeded, as the code is written |
| ProcessWin32.Process.Terminate | include/para/process/detail/process_win32.hpp:100 | terminate() is kill() |
| ProcessWin32.Process.TerminateNothrow | include/para/process/detail/process_win32.hpp:101 | terminate(nothrow) is kill(nothrow) |
| ProcessWin32.Current | include/para/process/detail/process_win32.hpp:57-60 | the current process: its pid, and the pseudo-handle from GetCurrentProcess |
| ProcessWin32.Open | include/para/process/detail/process_win32.hpp:116-125 | OpenProcess returning NULL raises pid_error with GetLastError(); otherwise the handle is kept |
| ProcessWin32.WaitStatusSuccess | include/para/process/detail/process_win32.hpp:72-83 | a waited process is a success exactly when its exit code is 0 |
| UnixFork.RunTask | include/para/process/unix_fork.hpp:146 | a user function leaves one user-code mark and returns its value; an exec task issues the exec functor's calls and returns a code only when exec failed |
| UnixFork.Child | include/para/process/unix_fork.hpp:144-149 | in the child: fork_start, then the child's task, fork_end and exit with the code it returned; a hook that raises or exits ends it there |
| UnixFork.AfterForkStart | include/para/process/unix_fork.hpp:146-148 | the part of the child after a successful fork_start |
| UnixFork.RunTaskThenExit | include/para/process/unix_fork.hpp:146-148 | the child's task, the fork_end hook, then exit with the code it returned |
| UnixFork.Launch | include/para/process/unix_fork.hpp:140-153 | pre_fork, fork, then the child or the parent side; the pid is fork's return and errno is set when fork failed |
| UnixFork.PreForkThenFork | include/para/process/unix_fork.hpp:142-143 | pre_fork runs before fork, and an exception from it means no fork |
| UnixFork.ForkSide | include/para/process/unix_fork.hpp:144-152 | fork returning 0 runs the child; -1 returns at once; anything else runs post_fork |
| UnixFork.Parent | include/para/process/unix_fork.hpp:150-152 | the parent runs post_fork and keeps the pid |
| UnixFork.NewUnixFork | include/para/process/unix_fork.hpp:59-108 | the throwing constructors raise create_error exactly when fork returned -1; the nothrow ones never raise |
| UnixFork.ForkFailed | include/para/process/unix_fork.hpp:94-96 | true exactly when the pid is -1; NewUnixFork shows that is exactly when fork returned -1, and that the throwing constructors then raise create_error |
| UnixFork.HookEventsPoints | include/para/process/unix_fork.hpp:140-153 | a hook call logs only its own hook point |
| UnixFork.LaunchHookOrder | include/para/process/unix_fork.hpp:140-153 | the parent sees pre_fork then post_fork; a failed fork sees only pre_fork; the child sees pre_fork then fork_start, and fork_end when its task returned |
| UnixFork.ReturnsOnlyInParent | include/para/process/unix_fork.hpp:143-153 | launch returns normally only in the parent or on fork failure; the child always exits |
| UnixFork.ChildHookOrder | include/para/process/unix_fork.hpp:144-149 | the hook points of the child side are fork_start, then fork_end when the child's task returned |
| UnixFork.ChildHookOrderStopped | include/para/process/unix_fork.hpp:145 | a child whose fork_start ended it sees only fork_start |
| UnixFork.ChildHookOrderRan | include/para/process/unix_fork.hpp:145-148 | a child past fork_start sees fork_start, then fork_end when its task returned |
| UnixFork.TaskRunHookPoints | include/para/process/unix_fork.hpp:146-148 | the child's task and exit contribute only fork_end to the hook points |
| UnixNamedProcess.ExecCallFor | include/para/process/unix_named_process.hpp:115-128 | the program's tags choose the exec variant: a searching binary uses execvp, an environment uses execve, otherwise execv |
| UnixNamedProcess.ExecCallForSyscall | include/para/process/unix_named_process.hpp:115-128 | the chosen functor calls exactly the syscall its tags select |
| UnixNamedProcess.NewUnixNamedProcess | include/para/process/unix_named_process.hpp:77-94 | forks and runs the selected exec functor in the child, as unix_fork's launch does |
| UnixNamedProcess.NewWithOnFail | include/para/process/unix_named_process.hpp:77-81 | the user's on-fail functor is used for a failed exec |
| UnixNamedProcess.NewWithDefaultOnFail | include/para/process/unix_named_process.hpp:91-94 | the default on-fail functor returns errno |
| UnixNamedProcess.ExecFailureExitsWithErrno | include/para/process/unix_named_process.hpp:27-31 | with the default functor a failed exec exits the child with its errno |
| UnixNamedProcess.ForkFailureReturns | include/para/process/unix_fork.hpp:140-153 | when fork fails, launch returns normally, whatever the exec functor |
| NamedProcessUnix.ClassifyFailure | include/para/process/detail/named_process_unix.hpp:123-133 | no error exactly when the errno word is 0; otherwise the errno is the code, and the error is pipe_error exactly when a redirector is used and the stage is not err_exec, program_error otherwise |
| NamedProcessUnix.FinishParent | include/para/process/detail/named_process_unix.hpp:109-112 | the parent reads the failure pipe, destroys it, and raises a failed read as pipe_error or the reported failure as ClassifyFailure says |
| NamedProcessUnix.Run | include/para/process/detail/named_process_unix.hpp:104-134 | launch with the constructor's hooks and piped_error_onfail; in the parent, the read of the report and the failure pipe's destructor; an exception leaving launch still destroys the pipe |
| NamedProcessUnix.NewNamedProcessUnix | include/para/process/detail/named_process_unix.hpp:104-134 | a failure-pipe error raises before any fork; otherwise the trace and outcome are those of Run after the pipe is set up |
| NamedProcessUnix.ReportedFailureRaised | include/para/process/detail/named_process_unix.hpp:117-134 | a child's report with a non-zero errno makes the parent raise program_error for err_exec, or pipe_error for err_redirect when a redirector is used, with the errno as its code |
| NamedProcessUnix.EndOfFileIsSuccess | include/para/process/detail/named_process_unix.hpp:42-56 | end of file on the failure pipe (the child exec'd) raises nothing, whatever the stage word |
| NamedProcessUnix.ForkFailureLaunch | include/para/process/unix_fork.hpp:140-153 | when fork fails, launch runs only pre_fork and fork, and returns normally |
| Programs.ContainerStorage.constructor | include/para/process/programs.hpp:42-50 | the storage starts empty (a NULL container) |
| Programs.ContainerStorage.Get | include/para/process/programs.hpp:42-50 | get returns what was stored |
| Programs.ContainerStorage.Set | include/para/process/programs.hpp:42-50 | set replaces the stored container |
| Programs.IntegralStorage.constructor | include/para/process/programs.hpp:54-62 | the storage starts as NULL |
| Programs.IntegralStorage.Get | include/para/process/programs.hpp:54-62 | get returns what was stored |
| Programs.IntegralStorage.Set | include/para/process/programs.hpp:54-62 | set replaces the stored value |
| Programs.StorageRoundTrip | include/para/process/programs.hpp:42-62 | after set(x), get() returns x in both storages |
| Programs.Binary.constructor | include/para/process/programs.hpp:224-243 | the program name with no arguments and no environment |
| Programs.Binary.SetArgs | include/para/process/programs.hpp:233-234 | the arguments are replaced; name and environment are kept |
| Programs.Binary.SetEnv | include/para/process/programs.hpp:236-237 | the environment is replaced; name and arguments are kept |
| Programs.NewPathProgram | include/para/process/programs.hpp:251-271 | a searching program without an environment |
| Programs.NewEnvProgram | include/para/process/programs.hpp:251-271 | a non-searching program with an environment |
| Programs.NewProgram | include/para/process/programs.hpp:251-271 | a non-searching program without an environment |
| Programs.TagsOfBinaryDetails | include/para/process/programs.hpp:154-187 | the binary and environment tags each details combination carries |
| NamedProcessWin32.Quote | include/para/process/detail/named_process_win32.hpp:94-107 | an argument enclosed in double quotes and followed by a space, 3 characters longer than the argument |
| NamedProcessWin32.JoinedLength | include/para/process/detail/named_process_win32.hpp:94-107 | the command line is as long as each argument plus 3 (two quotes and a space after every argument, the last included), summed |
| NamedProcessWin32.JoinedArgument | include/para/process/detail/named_process_win32.hpp:94-107 | each argument appears quoted in the command line, in order |
| NamedProcessWin32.BuildCommandLine | include/para/process/detail/named_process_win32.hpp:94-107 | the built buffer is each quoted argument followed by a space, so the line ends with a space; a NULL argument list gives the empty line |
| NamedProcessWin32.NewStartupInfo | include/para/process/detail/named_process_win32.hpp:25-58 | STARTF_USESTDHANDLES is set only when a stream is redirected, and the std handles are the redirector's |
| NamedProcessWin32.CreateFailure | include/para/process/detail/named_process_win32.hpp:142-155 | ERROR_FILE_NOT_FOUND raises program_error, any other error create_error |
| NamedProcessWin32.HandleOutcome | include/para/process/detail/named_process_win32.hpp:157-208 | what the steps after CreateProcess end in, from the close, duplicate and resume replies |
| NamedProcessWin32.DupFailed | include/para/process/detail/named_process_win32.hpp:188-197 | a failed DuplicateHandle terminates the child and raises create_error |
| NamedProcessWin32.Resume | include/para/process/detail/named_process_win32.hpp:199-208 | ResumeThread, then the thread handle is closed; a 0 return raises |
| NamedProcessWin32.ResumeFailed | include/para/process/detail/named_process_win32.hpp:199-205 | a failed resume terminates the child and raises create_error |
| NamedProcessWin32.OpenAndResume | include/para/process/detail/named_process_win32.hpp:159-208 | the pid is kept, the handle duplicated, then the thread resumed |
| NamedProcessWin32.AfterCreate | include/para/process/detail/named_process_win32.hpp:157-208 | after a successful CreateProcess: close_child_ends, then the handle steps, raising at the first failure |
| NamedProcessWin32.Create | include/para/process/detail/named_process_win32.hpp:94-140 | CreateProcess suspended with inherited handles and the built command line |
| NamedProcessWin32.Launch | include/para/process/detail/named_process_win32.hpp:80-210 | the launch trace is LaunchEvents; a CreateProcess failure raises CreateFailure of its error |
| NamedProcessWin32.NewNamedProcessWin32 | include/para/process/detail/named_process_win32.hpp:68-77 | the constructor launches at once |
| NamedProcessWin32.SuccessfulLaunchCloses | include/para/process/detail/named_process_win32.hpp:187-208 | with null_redirector, a successful launch is CreateProcess with a zeroed STARTUPINFO, DuplicateHandle, then the returned process handle and the thread handle are closed around ResumeThread |
| NamedProcessWin32.SuccessfulLaunchClosesChildEnds | include/para/process/detail/named_process_win32.hpp:187-208 | with any redirector, a successful launch is CreateProcess, every close of close_child_ends, DuplicateHandle, then the closes around ResumeThread; the launch succeeds and the handles the child uses are among those closed |
| NamedProcessWin32.ResumeThreadCheck | include/para/process/detail/named_process_win32.hpp:199 | (DWORD)-1 from ResumeThread counts as success and 0 raises, as the code is written |
| Notes.FoldLetter | src/notes.hpp:20-23 | the letters a to g become upper case, and every other character is left as it is |
| Notes.ParseNote | src/notes.hpp:16-78 | the offset, or the error, is NoteOffset's |
| Notes.ApplyMarks | src/notes.hpp:61-77 | the loop over the octave marks: twelve half steps per mark when every character left is a mark, otherwise the unknown-modifier error |
| Notes.TestVectors | test/parse_notes.cpp:8-21 | the offsets the test file expects |
| Notes.CaseInsensitive | src/notes.hpp:20-23 | a note and its upper-case form parse alike |
| Notes.OneLetter | src/notes.hpp:45-48 | a single letter is its table offset |
| Notes.OctaveMark | src/notes.hpp:61-75 | one more octave mark moves the note twelve half steps |
| Notes.PitchClass | src/notes.hpp:50-77 | octave marks do not change the pitch class: a parsed offset is congruent modulo 12 to the letter plus accidental |
| Notes.SecondAccidental | src/notes.hpp:50-73 | a second accidental is an unknown modifier |
| Notes.FailureCases | src/notes.hpp:25-73 | a note fails exactly when it is empty, its letter is not a to g, or a character after the accidental is not an octave mark; the first two give the bad-note error |
| Notes.CorrectedNoteOffset | src/notes.hpp:30-38 | the parser with the half-step table: it fails exactly when the original fails, with the same error |
| Notes.EnharmonicMismatch | src/notes.hpp:30-38 | as written, "b#" and "c" get different offsets |
| Notes.CorrectedEnharmonic | src/notes.hpp:30-38 | with the half-step table, B sharp is C, E sharp is F, C flat is B and F flat is E, whatever octave marks follow |
| Notes.EnharmonicPair | src/notes.hpp:30-38 | with the half-step table, a letter with an accidental parses like the letter one half step away, under the same octave marks |
| SetEnvPath.EscapedLen | build-aux/setenvpath.c:125-134 | the escaped length is the length plus 2 when the string holds any space |
| SetEnvPath.EscapedLengthSpaces | build-aux/setenvpath.c:125-134 | the count does not grow with the number of spaces: two strings of equal length that both hold a space count alike |
| SetEnvPath.ListedLength | build-aux/setenvpath.c:145-162 | the fill loop writes exactly the allocated size: each argument, its two quotes and a following space |
| SetEnvPath.ListedIsSpaceJoined | build-aux/setenvpath.c:153-163 | what the fill loop writes is the quoted arguments joined by single spaces, plus the trailing space that the terminator overwrites |
| SetEnvPath.ComputeTotalLength | build-aux/setenvpath.c:145-150 | the allocated size is each argument's length plus 3, summed |
| SetEnvPath.AppendArgument | build-aux/setenvpath.c:153-162 | the buffer grows by the quoted argument and a space, and what was written before is kept |
| SetEnvPath.CreateArgs | build-aux/setenvpath.c:138-168 | the buffer is the space-joined quoted arguments followed by NUL, and fills exactly the allocated size |
| SetEnvPath.SpaceJoinedLength | build-aux/setenvpath.c:165-166 | the joined text is one shorter than the allocated size, as the source asserts |
| SetEnvPath.PathCopy | build-aux/setenvpath.c:49-61 | the saved copy of PATH, present exactly when PATH is set and not empty |
| SetEnvPath.InitialPutenv | build-aux/setenvpath.c:64-83 | the putenv expression starts as "PATH=", followed by the old value when there is one |
| SetEnvPath.PutenvExpressionShape | build-aux/setenvpath.c:219-249 | the expression is "PATH=", the old value, then ";" and each -p directory |
| SetEnvPath.AddedPath | build-aux/setenvpath.c:219-249 | each accepted -p directory lands in the expression in order |
| SetEnvPath.ScanFrom | build-aux/setenvpath.c:211-256 | the option scan: -h stops, -v is noted, -p needs an argument that is a directory, and the first other argument is the command; the directories found extend those given |
| SetEnvPath.ScanOptions | build-aux/setenvpath.c:211-256 | the argument loop computes ScanFrom from index 1, and builds the putenv expression from the directories it finds |
| SetEnvPath.ExtendPutenv | build-aux/setenvpath.c:232-248 | a directory is appended with a ';' before it |
| SetEnvPath.UpdateEnvironment | build-aux/setenvpath.c:86-104 | success exactly when putenv succeeded and PATH then differs from the old value |
| SetEnvPath.Shell | build-aux/setenvpath.c:183-192 | the string handed to system(): the command, then a space and the argument string when there is one |
| SetEnvPath.RunProcess | build-aux/setenvpath.c:170-197 | 255 when FindFirstFile does not find the command; otherwise system()'s status for the command, followed by a space and the arguments when there are any |
| SetEnvPath.Launch | build-aux/setenvpath.c:258-279 | a failing putenv or a missing command exits 255; otherwise the command runs with its arguments quoted and joined |
| SetEnvPath.ExitStatus | build-aux/setenvpath.c:200-287 | main exits 255 after -h, a -p without a directory, a failing putenv or a missing command; with no -p and a command it exits with run_process's status |
| SetEnvPath.SetEnvPathMain | build-aux/setenvpath.c:200-287 | the exit status is ExitStatus of the arguments and the host's answers |
| SetEnvPath.FailureExits | build-aux/setenvpath.c:212-268 | -h, a -p without an argument, and a missing command all exit with 255 |
| SetEnvPath.CommandAfterFlags | build-aux/setenvpath.c:211-256 | after a run of -v flags, the first argument that is not an option is the command, and the scan stops there |
| SetEnvPath.PathPairs | build-aux/setenvpath.c:219-249 | a sequence of "-p dir" pairs whose directories pass the check adds those directories in order |
| SetEnvPath.PathPairStep | build-aux/setenvpath.c:219-249 | one "-p dir" pair adds dir and resumes the scan after it |
| Settings.Settings.constructor | src/settings.hpp:108-116 | the default duration, channels, rate, distance, pause and verbosity, and no exit |
| Settings.Settings.Exit | src/settings.hpp:68 | exit() is true exactly when the status is EXIT_SUCCESS or EXIT_FAILURE |
| Settings.Settings.ExitStatus | src/settings.hpp:69 | the status is -1, 0 or 1, and -1 exactly when exit() is false |
| Settings.Settings.DumpToFile | src/settings.hpp:71 | true exactly when a non-empty dump file name was given |
| Settings.Settings.Loop | src/settings.hpp:62 | the loop flag; NewSettings shows it set exactly when --loop was given and parsing got past the pitch checks |
| Settings.Settings.DurationMs | src/settings.hpp:60 | the stored duration; NewSettings shows it is --time or 200 |
| Settings.Settings.VerbosityLevel | src/settings.hpp:63 | the stored level, always quiet, normal or verbose |
| Settings.Settings.SampleRate | src/settings.hpp:65 | the stored sample rate; NewSettings shows it is --rate or 44100 |
| Settings.Settings.Channels | src/settings.hpp:66 | the stored channel count; NewSettings shows it is --channels or 2 |
| Settings.Settings.Store | src/settings.cpp:46-77 | each option given with a value stores it; the others keep their values |
| Settings.Settings.StartChecks | src/settings.cpp:141-172 | --loop, then --start: number ≤ 0 raises, otherwise the count is decremented and number with end raises |
| Settings.Settings.Validate | src/settings.cpp:84-172 | the outcome is the first failing check's error, and the members touched are those of the checks reached |
| Settings.Settings.AfterPause | src/settings.cpp:125-172 | verbose, the concert pitch options, then the --start checks |
| Settings.Settings.ConcertPitch | src/settings.cpp:129-139 | both pitch options conflict; a note is parsed and its error raised, or its offset kept |
| Settings.NewSettings | src/settings.hpp:52-55 | defaults, then the stored values, then the checks; exit() exactly when --help was given |
| Settings.FirstError | src/settings.cpp:84-172 | parse_args raises nothing exactly when --help was given or every check passes; each error is one of the fixed messages or the concert pitch note's own parse error |
| Settings.HelpNeverRaises | src/settings.cpp:84-88 | with --help no check runs |
| Settings.TimeChecks | src/settings.cpp:105-110 | a negative --time raises; zero passes |
| Settings.VolumeNeverRaises | src/settings.cpp:112-119 | the volume's range check never raises |
| Settings.CheckOrder | src/settings.cpp:105-172 | when several checks fail, the earliest decides the error |
| Settings.ConcertPitchNoteErrors | src/settings.cpp:129-139 | a concert pitch note the parser rejects raises the parser's own message; one it accepts leaves the other checks as they would be without it |
| Sdl.AudioStatusName | src/sdl.hpp:73-84 | stopped, playing and paused have names; any other status raises logic_error |
| Sdl.StatusNamesDistinct | src/sdl.hpp:73-84 | different statuses have different names |
| Sdl.AudioSpec.constructor | src/sdl.hpp:107-117 | the fields hold the arguments, narrowed to their SDL widths, and the rest are zero |
| Sdl.AudioSpec.Channels | src/sdl.hpp:120 | the channel count is a byte |
| Sdl.AudioSpec.SetChannels | src/sdl.hpp:121 | the channel count is set, narrowed to a byte, and nothing else changes |
| Sdl.AudioSpec.BufferSamples | src/sdl.hpp:127 | the sample count is a 16-bit value |
| Sdl.AudioSpec.BufferSize | src/sdl.hpp:123-124 | the buffer size is a 32-bit unsigned value |
| Sdl.AudioSpec.Silence | src/sdl.hpp:133-134 | the silence value is a byte |
| Sdl.AudioSpec.Frequency | src/sdl.hpp:130 | the frequency read as Uint32 |
| Sdl.AudioSpec.SetFrequency | src/sdl.hpp:131 | the frequency is set and read back; nothing else changes |
| Sdl.AudioSpec.Period | src/sdl.hpp:137 | the buffer's playing time in whole milliseconds, rounded down |
| Sdl.Equal | src/sdl.hpp:145-153 | a spec equals itself, and equal specs have the same frequency, channel count and sample count |
| Sdl.NotEqual | src/sdl.hpp:155-157 | != holds exactly when == does not, and never between a spec and itself |
| Sdl.NotEqualIsNegation | src/sdl.hpp:145-157 | != is the negation of ==, and == is symmetric |
| Sdl.EqualIgnoresComputedFields | src/sdl.hpp:145-153 | == ignores the silence and size fields that SDL computes |
| Sdl.DefaultSpec | src/sdl.hpp:107-117 | the program's usual spec: 44100 Hz, 1024 samples, 2 channels, a 23 ms period |
| SyncData.PushContinue | src/sync_data.hpp:41 | quitting lets a push through; otherwise only more than 10 queued buffers do |
| SyncData.PopContinue | src/sync_data.hpp:42 | quitting lets a pop through; otherwise only a non-empty queue does |
| SyncData.Pushed | src/sync_data.hpp:74-77 | the new buffer is last; after a flush request it is alone, otherwise appended |
| SyncData.QueuePusher.constructor | src/sync_data.hpp:61 | no flush is pending |
| SyncData.QueuePusher.FlushNextPush | src/sync_data.hpp:63 | the next push flushes |
| SyncData.QueuePusher.Push | src/sync_data.hpp:66-79 | the queue becomes Pushed of the old queue, and the flush request is cleared |
| SyncData.PushesKeepOrder | src/sync_data.hpp:77 | pushes without a flush append their buffers in order |
| SyncData.FlushThenPush | src/sync_data.hpp:63-78 | a flush followed by two pushes leaves exactly those two buffers |
| SyncData.PushWaitsOnShortQueue | src/sync_data.hpp:41 | as written, push waits whenever the queue has at most 10 buffers and nobody is quitting |
| SyncData.RoomToPushBounds | src/sync_data.hpp:41 | with the corrected predicate an empty queue has room, and a push never grows the queue past the threshold |

## Left out

- Concurrency is not modelled: the monitor, its locks, and waiting on the queue predicates. Push is modelled as the update it makes once its predicate holds.
- `queue_pusher::pop` is left out because it does not compile as written.
- The generic `binary<Container>` template is left out because it does not compile as written. Only `binary<char**>` is modelled.
- Win32 `wait_nb` is left out because it is only declared, never defined.
- `select_onfail` and `select_exec_variant` are modelled only through `ExecCallFor`: they pick the same functors that the constructors build.
- Floating point is left out: `--concert-pitch` values and `offset_to_frequency`. Settings keeps the concert pitch note's offset instead of its frequency.
- Boost option parsing is abstracted into the set of options given. Left out with it: `print_help`, the version branch, verbose logging and the warning messages.
- `audio_spec` initialisation through SDL, and `defer_init`, are left out: they are calls into SDL.
- Debug assertions are modelled as compiled out (NDEBUG). This covers the 32768-character command-line assert on Windows and the asserts in `setenvpath.c`, including `assert(old_path_copy)`.
- The host is modelled as parameters (`Host`), not as behaviour:
  - `getenv`, `putenv`, `FindFirstFile`, `system` and the directory test of `validate_path` in `setenvpath.c`;
  - `GetStdHandle` and `GetCurrentProcess`, which are kernel constants;
  - the meaning of the wait macros (`WIFEXITED` and the others), which are abstract functions of the status word.
- `SECURITY_ATTRIBUTES` are left out beyond handles being inheritable.
- The result of `GetExitCodeProcess` is not modelled: the code ignores it.
- Short reads are not split into partial words: a read of the failure pipe shorter than the 8-byte payload leaves the buffer unchanged.
- Uninitialised members are modelled as 0, for example `audio_spec`'s `silence` and `size`.
- Containers handed to `programs` storages are copied values, so aliasing is not modelled.
- The Windows process object's destructor during a launch that raises is not modelled.
- Settings: `settings.cpp` uses members that `settings.hpp` does not declare: start and end note, increments, volume, note mode and concert pitch. The model gives them plain fields.
- NamedProcessWin32.NewNamedProcessWin32: states the trace and the CreateProcess failure case. The outcome after a successful CreateProcess is stated by `AfterCreate` and `HandleOutcome`, not repeated here.

## Findings

| source | as written | input that shows it | evidently intended | confidence | as-written member | corrected member |
|---|---|---|---|---|---|---|
| src/notes.hpp:30-38 | the letter table gives c = 4 and f = 9 half steps above a, so c is one half step too high, and so is f | "b#" parses to 3 and "c" to 4; "e#" to 8 and "f" to 9 | the half-step table 0, 2, 3, 5, 7, 8, 10, under which each enharmonic pair coincides | high, not executed | Notes.EnharmonicMismatch | Notes.CorrectedEnharmonic |
| src/sync_data.hpp:41 | push waits until `size() > 10 \|\| quitting` | a push onto an empty queue while not quitting waits forever, since only pop empties the queue | wait while the queue is full, i.e. push when `size() < 10` | medium, not executed | SyncData.PushWaitsOnShortQueue | SyncData.RoomToPushBounds |
| include/para/process/detail/redirection_unix.hpp:86-88 | the two-pipe redirect returns `redirect_stdout(out) && redirect_stdin(in)`, reading the raw dup2 results as truth values | both dup2 calls succeed: the stdout one returns 1 and the stdin one returns 0, so redirect() is false, and the child reports err_redirect and exits with status 1 | compare each dup2 result with -1, as the one-pipe redirectors do | high, not executed | ForkHooks.BothRedirectSuccessExits | RedirectionUnix.IntendedRedirectSucceedsIffNoDup2Fails |

The settings model keeps the note table as written: the concert pitch it stores is the offset the program actually computes. Likewise the fork hooks keep the two-pipe redirect as written, so that the traces of a launch are the ones the program makes; `IntendedRedirectActs` and `IntendedRedirectResult` give the corrected redirect beside it.
