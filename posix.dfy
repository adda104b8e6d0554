/** Process-wide vocabulary shared by the cron wrappers: exit codes from
    <sysexits.h>, signal and errno numbers (Linux values), signal
    dispositions, the log of observable steps a process takes, and the
    ways a routine or a whole program can end. */
module Posix {

  // Exit codes (<stdlib.h>, <sysexits.h>)
  const EXIT_SUCCESS: int := 0
  const EXIT_FAILURE: int := 1
  const EX_DATAERR: int := 65
  const EX_NOINPUT: int := 66
  const EX_UNAVAILABLE: int := 69
  const EX_OSERR: int := 71
  const EX_CANTCREAT: int := 73
  const EX_IOERR: int := 74

  // Signal numbers
  const SIGHUP: int := 1
  const SIGINT: int := 2
  const SIGQUIT: int := 3
  const SIGALRM: int := 14
  const SIGTERM: int := 15

  // errno values
  const EINTR: int := 4
  const EAGAIN: int := 11
  const EACCES: int := 13
  const EEXIST: int := 17

  /** How a waited-for child ended, in place of the bit-encoded wait status. */
  datatype WaitStatus = Exited(code: int) | Signaled(sig: int)

  /** The signal handlers the wrappers install. */
  datatype Handler = TerminationHandler | LockAlarmHandler | TimeoutAlarmHandler

  /** What a signal does when delivered: SIG_DFL, SIG_IGN or a handler run
      with the given additional signals blocked. */
  datatype Disposition = Default | Ignore | Catch(handler: Handler, mask: set<int>)

  /** The disposition of `sig`; a signal never set is at its default. */
  function ActionOf(actions: map<int, Disposition>, sig: int): Disposition
  {
    if sig in actions then actions[sig] else Default
  }

  /** The whole-file record lock requested with fcntl(F_SETLKW). */
  datatype LockType = ReadLock | WriteLock | Unlock
  datatype Whence = SeekSet | SeekCur | SeekEnd
  datatype Flock = Flock(lockType: LockType, whence: Whence, start: int, len: int, pid: int)

  /** Steps a process takes that the rest of the system can observe, in
      program order. Flag writes that a signal handler performs are steps
      too, because their order relative to the kill matters. */
  datatype Step =
    | Fork
    | Setsid
    | Exec(command: string)
    | MarkKilledByUs
    | GetPgid(pid: int)
    | KillPg(pgid: int, sig: int)
    | Raise(sig: int)
    | SigAction(sig: int, action: Disposition)
    | Alarm(seconds: int)
    | WaitPid(pid: int)
    | OpenLock(path: string)
    | LockWait(lock: Flock)
    | WritePid(text: string)
    | Fsync
    | CloseLock

  /** The result of a step that either lets the caller go on or ends the
      process through exit(code). */
  datatype Flow = Continue | Exit(code: int)

  /** How a routine (run_subprocess or a program's main) ends:
      Return(s): it returns s to its caller (for main: the process exit status);
      ReturnUnspecified: it returns a status this model does not determine
        (a variable never assigned, or a wait status left undecoded);
      Terminate(code): it calls exit(code);
      Killed(sig): the process dies of signal sig;
      Replaced: execvp succeeded and the process now runs the command;
      Waiting: the wait loop had not ended when the modelled attempts ran out. */
  datatype Outcome =
    | Return(status: int) | ReturnUnspecified | Terminate(code: int) | Killed(sig: int) | Replaced | Waiting

  datatype Option<T> = None | Some(value: T)

  /** A value, or the exit code the process ends with instead. */
  datatype Checked<T> = Ok(value: T) | Abort(code: int)
}
