/** runlock (runlock.c): run a command only while holding an exclusive
    fcntl lock on a lock file, waiting at most a few seconds for it.
    The results of open, fcntl(F_SETLKW) and getpid, the arrival of
    SIGALRM during the wait, and everything run_subprocess consumes are
    inputs. */
module RunLock {
  import opened Posix
  import opened CLib
  import opened Subprocess
  import opened Tempdir

  /** Seconds to wait for the lock when -t is not given. */
  const DefaultWait: int := 5

  /** memset to zero, then F_WRLCK from SEEK_SET: start 0 and length 0
      (to the end of the file), an exclusive lock on the whole file. */
  const WholeFileWriteLock: Flock := Flock(WriteLock, SeekSet, 0, 0, 0)

  /** A struct flock after memset to zero: on Linux l_type 0 is F_RDLCK
      and l_whence 0 is SEEK_SET. */
  const ZeroedFlock: Flock := Flock(ReadLock, SeekSet, 0, 0, 0)

  const LockAlarmAction: Disposition := Catch(LockAlarmHandler, {})

  /** The command line once getopt has run: -t, -f, then the command and
      its arguments. */
  datatype LockArgs = LockArgs(timeoutArg: Option<CString>, lockFile: Option<string>, argv: seq<string>)

  /** What fcntl(fd, F_SETLKW, &fl) did. */
  datatype FcntlResult = Granted | LockFailed(errno: int)

  /** Everything the system supplies during one run of runlock. */
  datatype LockEnv = LockEnv(tempdir: TempdirEnv, openOk: bool, alarmDuringLock: bool,
                             fcntl: FcntlResult, pid: int, fork: int, child: ChildRun,
                             attempts: seq<WaitAttempt>, kill: KillResult)

  /** How the blocking lock request ended. */
  datatype LockDecision = Acquired | GiveUp(code: int) | NotRetried

  /** The wait bound: 5 seconds, or the -t argument if strtol takes all of it. */
  function WaitBound(arg: Option<CString>): Checked<int>
  {
    if arg.None? then Ok(DefaultWait) else ParseSeconds(arg.value)
  }

  /** The lock file derived from the temp directory: directly inside it,
      named after the command's base name with ".pid" appended. */
  function DerivedLockPath(dir: string, command: string): (path: string)
    ensures |path| == |dir| + |Basename(command)| + 5
    ensures |path| > |dir| + 1 && path[..|dir|] == dir && path[|dir|] == '/'
    ensures path[|path| - 4..] == ".pid"
    ensures path[|dir| + 1..|path| - 4] == Basename(command)
    ensures Basename(command) != "/" ==> '/' !in path[|dir| + 1..]
  {
    var b := Basename(command);
    assert (dir + "/" + b + ".pid")[|dir| + 1..] == b + ".pid";
    dir + "/" + b + ".pid"
  }

  /** The lock file: the -f argument verbatim, or derived from make_tempdir. */
  function LockPath(lockFile: Option<string>, command: string, tempdir: TempdirEnv): (r: Checked<string>)
    ensures lockFile.Some? ==> r == Ok(lockFile.value)
    ensures lockFile.None? ==> (r.Ok? <==> TempdirOutcome(tempdir).Ok?)
    ensures lockFile.None? && r.Abort? ==> r.code == TempdirOutcome(tempdir).code
    ensures lockFile.None? && r.Ok? ==>
      r.value == DerivedLockPath(TempdirPath(tempdir.user.name), command)
  {
    match lockFile
    case Some(p) => Ok(p)
    case None =>
      match TempdirOutcome(tempdir)
      case Ok(dir) => Ok(DerivedLockPath(dir, command))
      case Abort(code) => Abort(code)
  }

  /** main's copy of the command once the lock path is known. glibc's
      basename, called to derive the path, writes a NUL over the first
      trailing slash of its argument, so the command then runs without
      its trailing slashes. */
  function LockedCommand(args: LockArgs): (command: string)
    requires |args.argv| > 0
    ensures Basename(command) == Basename(args.argv[0])
    ensures args.lockFile.Some? ==> command == args.argv[0]
    ensures args.lockFile.None? ==>
      command == args.argv[0] ||
      (command != [] && |command| < |args.argv[0]| && command == args.argv[0][..|command|] &&
       forall k :: |command| <= k < |args.argv[0]| ==> args.argv[0][k] == '/')
  {
    if args.lockFile.None? then BasenameResidue(args.argv[0]) else args.argv[0]
  }

  /** Without -f, "dir/cmd/" runs as "dir/cmd": the trailing slashes are
      gone from the command by the time it is executed. */
  lemma TrailingSlashesDropped(args: LockArgs, name: string, slashes: string)
    requires |args.argv| > 0 && args.lockFile.None? && args.argv[0] == name + slashes
    requires name != [] && name[|name| - 1] != '/'
    requires forall k :: 0 <= k < |slashes| ==> slashes[k] == '/'
    ensures LockedCommand(args) == name
  {
    ResidueDropsSlashes(name, slashes);
  }

  /** The switch on errno after fcntl, given whether the alarm has fired. */
  function ClassifyLock(res: FcntlResult, expired: bool): (d: LockDecision)
    ensures d == Acquired <==> res == Granted
    ensures d == NotRetried <==> res == LockFailed(EINTR) && !expired
    ensures d == GiveUp(EX_CANTCREAT) <==>
      res.LockFailed? && ((res.errno == EINTR && expired) || res.errno == EACCES || res.errno == EAGAIN)
    ensures d == GiveUp(EXIT_FAILURE) <==>
      res.LockFailed? && res.errno != EINTR && res.errno != EACCES && res.errno != EAGAIN
  {
    match res
    case Granted => Acquired
    case LockFailed(e) =>
      if e == EINTR then (if expired then GiveUp(EX_CANTCREAT) else NotRetried)
      else if e == EACCES || e == EAGAIN then GiveUp(EX_CANTCREAT)
      else GiveUp(EXIT_FAILURE)
  }

  /** What main has once the options are read and the lock path is known:
      the path, or the code it exits with first. */
  function Prepared(args: LockArgs, env: LockEnv): (r: Checked<string>)
    ensures WaitBound(args.timeoutArg).Abort? ==> r == Abort(EX_DATAERR)
    ensures WaitBound(args.timeoutArg).Ok? && |args.argv| == 0 ==> r == Abort(EXIT_FAILURE)
    ensures r.Ok? <==> WaitBound(args.timeoutArg).Ok? && |args.argv| > 0
                       && LockPath(args.lockFile, args.argv[0], env.tempdir).Ok?
    ensures r.Ok? ==> r == LockPath(args.lockFile, args.argv[0], env.tempdir)
    ensures r.Abort? ==> r.code in {EX_DATAERR, EX_OSERR, EX_IOERR, EXIT_FAILURE}
  {
    var t := WaitBound(args.timeoutArg);
    if t.Abort? then Abort(t.code)
    else if |args.argv| == 0 then Abort(EXIT_FAILURE)
    else LockPath(args.lockFile, args.argv[0], env.tempdir)
  }

  /** runlock gets as far as requesting the lock: a valid -t, a command,
      and a lock path. */
  predicate Proceeds(args: LockArgs, env: LockEnv)
  {
    Prepared(args, env).Ok?
  }

  /** The lock is granted, so the command is started. */
  predicate LockHeld(env: LockEnv)
  {
    env.openOk && ClassifyLock(env.fcntl, env.alarmDuringLock) == Acquired
  }

  predicate CommandRuns(args: LockArgs, env: LockEnv)
  {
    Proceeds(args, env) && LockHeld(env)
  }

  /** How main ends once the lock path is known. */
  function LockedOutcome(env: LockEnv, killed: bool): Outcome
  {
    if !env.openOk then Terminate(EX_NOINPUT)
    else match ClassifyLock(env.fcntl, env.alarmDuringLock)
      case GiveUp(code) => Terminate(code)
      case NotRetried => Return(0)
      case Acquired => RunOutcome(env.fork, env.child, env.attempts, killed)
  }

  /** How runlock ends. `killed` is killed_by_us when the command starts. */
  function LockOutcome(args: LockArgs, env: LockEnv, killed: bool): (r: Outcome)
    ensures WaitBound(args.timeoutArg).Abort? ==> r == Terminate(EX_DATAERR)
    ensures CommandRuns(args, env) ==> r == RunOutcome(env.fork, env.child, env.attempts, killed)
    ensures !CommandRuns(args, env) ==> r.Terminate? || r == Return(0)
    ensures !CommandRuns(args, env) && r == Return(0) ==>
      env.fcntl == LockFailed(EINTR) && !env.alarmDuringLock
    ensures Proceeds(args, env) && !env.openOk ==> r == Terminate(EX_NOINPUT)
    ensures r == Terminate(EX_CANTCREAT) <==>
      Proceeds(args, env) && env.openOk && ClassifyLock(env.fcntl, env.alarmDuringLock) == GiveUp(EX_CANTCREAT)
  {
    match Prepared(args, env)
    case Abort(code) => Terminate(code)
    case Ok(_) => LockedOutcome(env, killed)
  }

  /** The steps once the lock is held: clear the alarm, restore the
      previous SIGALRM action, write our pid, run the command, close.
      `held` is the signal table while the lock is held. */
  function LockedSteps(command: string, env: LockEnv, previous: Disposition,
                       held: map<int, Disposition>, killed: bool, fatal: bool): seq<Step>
  {
    var r := RunOutcome(env.fork, env.child, env.attempts, killed);
    [Alarm(0), SigAction(SIGALRM, previous), WritePid(FormatInt(env.pid) + "\n"), Fsync]
    + RunSteps(command, NoPreWait, held[SIGALRM := previous], env.fork, env.child, env.attempts, killed, fatal, env.kill)
    + (if r.Return? || r.ReturnUnspecified? then [CloseLock] else [])
  }

  /** The steps from installing the alarm handler to the lock decision. */
  function AcquireSteps(timeout: int, path: string, env: LockEnv): seq<Step>
  {
    [SigAction(SIGALRM, LockAlarmAction), Alarm(timeout), OpenLock(path)]
    + (if env.openOk then [LockWait(WholeFileWriteLock)] else [])
  }

  /** The steps after the lock request, for the signal table `actions`
      runlock started with: none unless the lock is held. */
  function HeldSteps(command: string, env: LockEnv, actions: map<int, Disposition>, killed: bool,
                     fatal: bool): seq<Step>
  {
    if LockHeld(env)
    then LockedSteps(command, env, ActionOf(actions, SIGALRM), actions[SIGALRM := LockAlarmAction], killed, fatal)
    else []
  }

  /** The log after main's steps from the alarm on, given the log `log`
      before them. */
  function LockTail(log: seq<Step>, command: string, timeout: int, path: string, env: LockEnv,
                    actions: map<int, Disposition>, killed: bool, fatal: bool): seq<Step>
  {
    log + AcquireSteps(timeout, path, env) + HeldSteps(command, env, actions, killed, fatal)
  }

  /** The log after runlock's main, given the log `log` before it and the
      flags killed_by_us and fatal_error_in_progress it starts with. */
  function LockSteps(log: seq<Step>, args: LockArgs, env: LockEnv,
                     actions: map<int, Disposition>, killed: bool, fatal: bool): seq<Step>
  {
    match Prepared(args, env)
    case Abort(_) => log
    case Ok(path) =>
      LockTail(log, LockedCommand(args), WaitBound(args.timeoutArg).value, path, env, actions, killed, fatal)
  }

  lemma NoForkInRepeat(s: Step, n: nat)
    requires s != Fork
    ensures multiset(Repeat(s, n))[Fork] == 0
  {
    assert Fork !in Repeat(s, n);
  }

  lemma NoForkInWaited(ret: WaitReturn, pid: int, k: KillResult)
    ensures multiset(WaitedSteps(ret, pid, k))[Fork] == 0
  {
    assert Fork !in WaitedSteps(ret, pid, k);
  }

  lemma NoForkInEnded(a: WaitAttempt, fatal: bool, pid: int, k: KillResult)
    ensures multiset(EndedSteps(a, fatal, pid, k))[Fork] == 0
  {
    match a {
      case Waited(ret) => NoForkInWaited(ret, pid, k);
      case Interrupted(sig, kill) =>
        assert Fork !in TerminationSteps(fatal, pid, sig, kill);
    }
  }

  lemma NoForkInReap(attempts: seq<WaitAttempt>, killed: bool, fatal: bool, pid: int, k: KillResult)
    ensures multiset(ReapSteps(attempts, killed, fatal, pid, k))[Fork] == 0
  {
    var n := WaitEnd(attempts, killed, 0);
    if n < |attempts| {
      NoForkInRepeat(WaitPid(pid), n + 1);
      NoForkInEnded(attempts[n], fatal, pid, k);
    } else {
      NoForkInRepeat(WaitPid(pid), n);
    }
  }

  lemma NoForkInParentSetup(actions: map<int, Disposition>, hook: PreWait)
    ensures multiset(InstallSteps(actions) + PreWaitSteps(hook))[Fork] == 0
  {
    assert Fork !in InstallStepFor(actions, SIGINT);
    assert Fork !in InstallStepFor(actions, SIGHUP);
    assert Fork !in InstallStepFor(actions, SIGTERM);
    assert Fork !in PreWaitSteps(hook);
  }

  /** run_subprocess forks exactly once. */
  lemma RunForksOnce(command: string, hook: PreWait, actions: map<int, Disposition>, fork: int,
                     child: ChildRun, attempts: seq<WaitAttempt>, killed: bool, fatal: bool, k: KillResult)
    ensures multiset(RunSteps(command, hook, actions, fork, child, attempts, killed, fatal, k))[Fork] == 1
  {
    var tail := if fork == 0 then ChildSteps(command, child)
                else if fork < 0 then [] else InstallSteps(actions) + PreWaitSteps(hook);
    var reap := if fork > 0 then ReapSteps(attempts, killed, fatal, fork, k) else [];
    if fork > 0 {
      NoForkInParentSetup(actions, hook);
      NoForkInReap(attempts, killed, fatal, fork, k);
    } else {
      assert Fork !in tail;
    }
    assert multiset(tail)[Fork] == 0 && multiset(reap)[Fork] == 0;
    assert RunSteps(command, hook, actions, fork, child, attempts, killed, fatal, k) == [Fork] + tail + reap;
  }

  /** The command runs exactly once when the lock is granted, and never
      otherwise. */
  lemma HeldForksOnceIffLocked(command: string, env: LockEnv, actions: map<int, Disposition>, killed: bool,
                               fatal: bool)
    ensures multiset(HeldSteps(command, env, actions, killed, fatal))[Fork] == (if LockHeld(env) then 1 else 0)
  {
    if LockHeld(env) {
      var previous := ActionOf(actions, SIGALRM);
      var held := actions[SIGALRM := LockAlarmAction];
      var r := RunOutcome(env.fork, env.child, env.attempts, killed);
      var head := [Alarm(0), SigAction(SIGALRM, previous), WritePid(FormatInt(env.pid) + "\n"), Fsync];
      var run := RunSteps(command, NoPreWait, held[SIGALRM := previous], env.fork, env.child, env.attempts,
                          killed, fatal, env.kill);
      var close: seq<Step> := if r.Return? || r.ReturnUnspecified? then [CloseLock] else [];
      RunForksOnce(command, NoPreWait, held[SIGALRM := previous], env.fork, env.child, env.attempts,
                   killed, fatal, env.kill);
      assert Fork !in head && Fork !in close;
      assert HeldSteps(command, env, actions, killed, fatal) == head + run + close;
    }
  }

  /** Starting from an empty log, the command runs exactly once when the
      lock is granted, and never otherwise. */
  lemma CommandRunsOnceIffLocked(args: LockArgs, env: LockEnv, actions: map<int, Disposition>, killed: bool,
                                 fatal: bool)
    ensures multiset(LockSteps([], args, env, actions, killed, fatal))[Fork] ==
      (if CommandRuns(args, env) then 1 else 0)
    ensures CommandRuns(args, env) ==> env.fcntl == Granted
  {
    if Proceeds(args, env) {
      var command := LockedCommand(args);
      var a := AcquireSteps(WaitBound(args.timeoutArg).value, Prepared(args, env).value, env);
      assert Fork !in a;
      HeldForksOnceIffLocked(command, env, actions, killed, fatal);
    }
  }

  lemma AppendAssoc(a: seq<Step>, b: seq<Step>, c: seq<Step>, d: seq<Step>)
    ensures a + b + c + d == a + (b + c + d)
  {
  }

  /** The global state of runlock.c and the locals of its main that it
      updates step by step, in the process that runs it. */
  class LockTool {
    var lockFilename: Option<string>
    var timeoutExpired: bool
    var timeout: int
    var fl: Flock
    const proc: Process

    constructor (p: Process)
      ensures proc == p && lockFilename == None && !timeoutExpired
    {
      proc := p;
      lockFilename := None;
      timeoutExpired := false;
      timeout := DefaultWait;
      fl := ZeroedFlock;
    }

    /** alarm_handler: only records that the wait bound has passed. */
    method AlarmHandler()
      modifies this
      ensures timeoutExpired
      ensures lockFilename == old(lockFilename) && timeout == old(timeout) && fl == old(fl)
    {
      timeoutExpired := true;
    }

    /** The lock request, the options and the command check of main. */
    method ParseArgs(args: LockArgs) returns (flow: Flow)
      modifies this
      ensures fl == WholeFileWriteLock
      ensures flow == (if WaitBound(args.timeoutArg).Abort? then Exit(WaitBound(args.timeoutArg).code)
                       else if |args.argv| == 0 then Exit(EXIT_FAILURE) else Continue)
      ensures flow == Continue ==> timeout == WaitBound(args.timeoutArg).value
      ensures lockFilename == (if args.lockFile.Some? then args.lockFile else old(lockFilename))
      ensures timeoutExpired == old(timeoutExpired)
    {
      fl := ZeroedFlock;
      fl := fl.(lockType := WriteLock);
      fl := fl.(whence := SeekSet);
      timeout := DefaultWait;
      if args.lockFile.Some? {
        lockFilename := args.lockFile;
      }
      if args.timeoutArg.Some? {
        var t := ParseSeconds(args.timeoutArg.value);
        if t.Abort? {
          return Exit(t.code);
        }
        timeout := t.value;
      }
      if |args.argv| == 0 {
        return Exit(EXIT_FAILURE);
      }
      flow := Continue;
    }

    /** Install alarm_handler, arm the alarm, open the lock file and ask
        for the lock; SIGALRM may arrive while the request blocks. */
    method AcquireLock(path: string, env: LockEnv) returns (isOpen: bool, d: LockDecision)
      requires !timeoutExpired && fl == WholeFileWriteLock
      modifies this, proc
      ensures isOpen == env.openOk
      ensures isOpen ==> d == ClassifyLock(env.fcntl, env.alarmDuringLock)
      ensures proc.steps == old(proc.steps) + AcquireSteps(timeout, path, env)
      ensures proc.actions == old(proc.actions)[SIGALRM := LockAlarmAction]
      ensures timeoutExpired == (env.openOk && env.alarmDuringLock)
      ensures lockFilename == old(lockFilename) && timeout == old(timeout) && fl == old(fl)
      ensures proc.killedByUs == old(proc.killedByUs) && proc.childpid == old(proc.childpid)
      ensures proc.fatalErrorInProgress == old(proc.fatalErrorInProgress) && proc.errno == old(proc.errno)
    {
      proc.actions := proc.actions[SIGALRM := LockAlarmAction];
      proc.steps := proc.steps + [SigAction(SIGALRM, LockAlarmAction)];
      proc.steps := proc.steps + [Alarm(timeout)];
      proc.steps := proc.steps + [OpenLock(path)];
      isOpen := env.openOk;
      d := NotRetried;
      if !isOpen {
        return;
      }
      proc.steps := proc.steps + [LockWait(fl)];
      if env.alarmDuringLock {
        AlarmHandler();
      }
      d := ClassifyLock(env.fcntl, timeoutExpired);
    }

    /** With the lock held: clear the alarm, restore the previous SIGALRM
        action, write the pid, run the command, close the descriptor. */
    method RunLocked(command: string, previous: Disposition, env: LockEnv) returns (r: Outcome)
      requires AllCaught(env.attempts, InstallTermination(proc.actions))
      modifies proc
      ensures r == RunOutcome(env.fork, env.child, env.attempts, old(proc.killedByUs))
      ensures proc.steps == old(proc.steps)
        + LockedSteps(command, env, previous, old(proc.actions), old(proc.killedByUs), old(proc.fatalErrorInProgress))
    {
      ghost var steps0 := proc.steps;
      ghost var head := [Alarm(0), SigAction(SIGALRM, previous), WritePid(FormatInt(env.pid) + "\n"), Fsync];
      ghost var run := RunSteps(command, NoPreWait, proc.actions[SIGALRM := previous], env.fork,
                                env.child, env.attempts, proc.killedByUs, proc.fatalErrorInProgress, env.kill);
      CaughtIgnoresOtherSignal(env.attempts, proc.actions, SIGALRM, previous);
      proc.actions := proc.actions[SIGALRM := previous];
      proc.steps := proc.steps + [Alarm(0), SigAction(SIGALRM, previous), WritePid(FormatInt(env.pid) + "\n"), Fsync];
      r := proc.RunSubprocess(command, NoPreWait, env.fork, env.child, env.attempts, env.kill);
      ghost var close: seq<Step> := [];
      if r.Return? || r.ReturnUnspecified? {
        proc.steps := proc.steps + [CloseLock];
        close := [CloseLock];
      }
      assert proc.steps == steps0 + head + run + close;
      AppendAssoc(steps0, head, run, close);
    }

    /** The options, the command check and the lock path; `command` is
        main's copy of the command afterwards. */
    method Prepare(args: LockArgs, env: LockEnv) returns (p: Checked<string>, command: string)
      requires lockFilename.None?
      modifies this
      ensures p == Prepared(args, env)
      ensures p.Ok? ==> lockFilename == Some(p.value) && timeout == WaitBound(args.timeoutArg).value
      ensures p.Ok? ==> command == LockedCommand(args)
      ensures fl == WholeFileWriteLock && timeoutExpired == old(timeoutExpired)
    {
      command := [];
      var flow := ParseArgs(args);
      if flow.Exit? {
        return Abort(flow.code), command;
      }
      command := args.argv[0];
      if lockFilename.None? {
        var dir := MakeTempdir(env.tempdir);
        if dir.Abort? {
          return Abort(dir.code), command;
        }
        lockFilename := Some(DerivedLockPath(dir.value, command));
        command := BasenameResidue(command);
      }
      p := Ok(lockFilename.value);
    }

    /** From the alarm to the end: take the lock and run the command. */
    method LockAndRun(command: string, env: LockEnv) returns (r: Outcome)
      requires lockFilename.Some? && !timeoutExpired && fl == WholeFileWriteLock
      requires AllCaught(env.attempts, InstallTermination(proc.actions))
      modifies this, proc
      ensures lockFilename == old(lockFilename) && timeout == old(timeout) && fl == old(fl)
      ensures r == LockedOutcome(env, old(proc.killedByUs))
      ensures proc.steps == LockTail(old(proc.steps), command, timeout, lockFilename.value, env, old(proc.actions),
                                     old(proc.killedByUs), old(proc.fatalErrorInProgress))
      ensures timeoutExpired == (env.openOk && env.alarmDuringLock)
    {
      ghost var actions0 := proc.actions;
      ghost var killed0 := proc.killedByUs;
      ghost var fatal0 := proc.fatalErrorInProgress;
      ghost var steps0 := proc.steps;
      ghost var acquire := AcquireSteps(timeout, lockFilename.value, env);
      var previous := ActionOf(proc.actions, SIGALRM);
      var isOpen, d := AcquireLock(lockFilename.value, env);
      r := Finish(command, isOpen, d, previous, env, actions0, killed0, fatal0);
    }

    /** After the lock request: give up, or run the command under the lock.
        `actions0`, `killed0` and `fatal0` are the signal table,
        killed_by_us and fatal_error_in_progress runlock started with. */
    method Finish(command: string, isOpen: bool, d: LockDecision, previous: Disposition, env: LockEnv,
                  ghost actions0: map<int, Disposition>, ghost killed0: bool, ghost fatal0: bool) returns (r: Outcome)
      requires isOpen == env.openOk && (isOpen ==> d == ClassifyLock(env.fcntl, env.alarmDuringLock))
      requires previous == ActionOf(actions0, SIGALRM)
      requires proc.actions == actions0[SIGALRM := LockAlarmAction] && proc.killedByUs == killed0
      requires proc.fatalErrorInProgress == fatal0
      requires AllCaught(env.attempts, InstallTermination(actions0))
      modifies proc
      ensures r == LockedOutcome(env, killed0)
      ensures proc.steps == old(proc.steps) + HeldSteps(command, env, actions0, killed0, fatal0)
    {
      if isOpen && d == Acquired {
        CaughtIgnoresOtherSignal(env.attempts, actions0, SIGALRM, LockAlarmAction);
        r := RunLocked(command, previous, env);
      } else {
        r := if !isOpen then Terminate(EX_NOINPUT) else if d.GiveUp? then Terminate(d.code) else Return(0);
      }
    }

    /** main */
    method Execute(args: LockArgs, env: LockEnv) returns (r: Outcome)
      requires lockFilename.None? && !timeoutExpired
      requires AllCaught(env.attempts, InstallTermination(proc.actions))
      modifies this, proc
      ensures r == LockOutcome(args, env, old(proc.killedByUs))
      ensures proc.steps == LockSteps(old(proc.steps), args, env, old(proc.actions), old(proc.killedByUs),
                                      old(proc.fatalErrorInProgress))
      ensures fl == WholeFileWriteLock
      ensures Proceeds(args, env) ==>
        lockFilename == Some(Prepared(args, env).value) && timeout == WaitBound(args.timeoutArg).value
      ensures timeoutExpired == (Proceeds(args, env) && env.openOk && env.alarmDuringLock)
    {
      var p, command := Prepare(args, env);
      if p.Abort? {
        return Terminate(p.code);
      }
      r := LockAndRun(command, env);
    }
  }
}
