/** runalarm (runalarm.c): run a command and kill its process group if it
    has not finished when the timeout alarm goes off; a command that ran
    into the alarm is reported as killed by SIGALRM. The results of fork,
    the waitpid calls, killpg and the moment SIGALRM arrives are inputs. */
module RunAlarm {
  import opened Posix
  import opened CLib
  import opened Subprocess

  /** The timeout when -t is not given: one day. */
  const DefaultTimeout: int := 60 * 60 * 24

  /** The status reported for a command the alarm interrupted. */
  const TimedOutStatus: int := 128 + SIGALRM

  const TimeoutAlarmAction: Disposition := Catch(TimeoutAlarmHandler, {})

  /** The command line once getopt has run: -t, then the command and its
      arguments. */
  datatype AlarmArgs = AlarmArgs(timeoutArg: Option<CString>, argv: seq<string>)

  /** Everything the system supplies during one run of runalarm.
      alarmAfter = Some(n): SIGALRM is delivered once n waitpid calls have
      returned without ending the wait loop (n = 0: before the first one);
      it never arrives if the loop has ended by then. An n beyond the
      modelled attempts means the alarm arrives after the last of them.
      alarmKill is what the
      handler's group kill does, kill what the defensive kill after a
      foreign pid does. */
  datatype AlarmEnv = AlarmEnv(fork: int, child: ChildRun, attempts: seq<WaitAttempt>,
                               alarmAfter: Option<nat>, alarmKill: KillResult, kill: KillResult)

  /** How the wait phase of run_subprocess ended, and whether the alarm
      handler ran during it. */
  datatype Phase = Phase(outcome: Outcome, triggered: bool)

  /** The timeout: one day, or the -t argument if strtol takes all of it;
      without a command the program exits EXIT_FAILURE. */
  function Prepared(args: AlarmArgs): (r: Checked<int>)
    ensures args.timeoutArg.None? && |args.argv| > 0 ==> r == Ok(DefaultTimeout)
    ensures args.timeoutArg.Some? ==>
      (r.Ok? <==> ParseSeconds(args.timeoutArg.value).Ok? && |args.argv| > 0)
    ensures args.timeoutArg.Some? && ParseSeconds(args.timeoutArg.value).Abort? ==> r == Abort(EX_DATAERR)
    ensures r.Ok? ==> |args.argv| > 0
    ensures r.Abort? ==> r.code == EX_DATAERR || r.code == EXIT_FAILURE
  {
    var t := if args.timeoutArg.None? then Ok(DefaultTimeout) else ParseSeconds(args.timeoutArg.value);
    if t.Abort? then t
    else if |args.argv| == 0 then Abort(EXIT_FAILURE)
    else t
  }

  /** The number of waitpid calls made before the alarm can arrive. */
  function AlarmCut(attempts: seq<WaitAttempt>, n: nat): nat
  {
    if n < |attempts| then n else |attempts|
  }

  /** The wait loop and what follows it, with the alarm handler run where
      the alarm arrives. `killed` is killed_by_us before the first waitpid. */
  function WaitPhase(attempts: seq<WaitAttempt>, alarmAfter: Option<nat>, killed: bool, pid: int,
                     alarmKill: KillResult): (p: Phase)
    ensures alarmAfter.None? ==> p == Phase(ReapOutcome(attempts, killed, pid), false)
    ensures alarmAfter.Some? ==>
      var m := AlarmCut(attempts, alarmAfter.value);
      (p.triggered <==> WaitEnd(attempts[..m], killed, 0) == m) &&
      (!p.triggered ==> p.outcome == ReapOutcome(attempts[..m], killed, pid)) &&
      (p.triggered && alarmKill.sent ==> p.outcome == ReapOutcome(attempts[m..], true, pid))
    ensures p.triggered && !alarmKill.sent ==> p.outcome == Terminate(EX_OSERR)
    ensures p.outcome != Replaced
    ensures p.outcome.Terminate? ==> p.outcome.code == EX_OSERR
    ensures p.triggered ==> alarmAfter.Some?
  {
    match alarmAfter
    case None => Phase(ReapOutcome(attempts, killed, pid), false)
    case Some(n) =>
      var m := AlarmCut(attempts, n);
      var before := attempts[..m];
      if WaitEnd(before, killed, 0) < m then Phase(ReapOutcome(before, killed, pid), false)
      else if !alarmKill.sent then Phase(Terminate(EX_OSERR), true)
      else Phase(ReapOutcome(attempts[m..], true, pid), true)
  }

  /** The log after the wait phase, given the log `log` before it. */
  function WaitPhaseSteps(log: seq<Step>, attempts: seq<WaitAttempt>, alarmAfter: Option<nat>, killed: bool,
                          fatal: bool, pid: int, alarmKill: KillResult, kill: KillResult): seq<Step>
  {
    match alarmAfter
    case None => log + ReapSteps(attempts, killed, fatal, pid, kill)
    case Some(n) =>
      var m := AlarmCut(attempts, n);
      var before := attempts[..m];
      var i := WaitEnd(before, killed, 0);
      if i < m then log + Repeat(WaitPid(pid), i + 1) + EndedSteps(before[i], fatal, pid, kill)
      else if !alarmKill.sent then log + Repeat(WaitPid(pid), m) + KillSteps(pid, alarmKill)
      else log + Repeat(WaitPid(pid), m) + KillSteps(pid, alarmKill) + ReapSteps(attempts[m..], true, fatal, pid, kill)
  }

  /** run_subprocess returned to main (rather than exiting, exec'ing or
      still waiting). */
  predicate Returned(r: Outcome)
  {
    r.Return? || r.ReturnUnspecified?
  }

  /** The post-run override: a returned status is replaced by 128 + SIGALRM
      when the alarm fired. */
  function FinalStatus(r: Outcome, triggered: bool): (f: Outcome)
    ensures Returned(r) && triggered ==> f == Return(TimedOutStatus)
    ensures !triggered || !Returned(r) ==> f == r
  {
    if Returned(r) && triggered then Return(TimedOutStatus) else r
  }

  /** run_subprocess as runalarm drives it: the fork branches, then the
      wait phase in the parent. */
  function RunPhase(env: AlarmEnv, killed: bool): Phase
  {
    if env.fork > 0 then WaitPhase(env.attempts, env.alarmAfter, killed, env.fork, env.alarmKill)
    else Phase(ForkBranch(env.fork, env.child).outcome, false)
  }

  /** The alarm handler ran: SIGALRM arrived while the command was being waited for. */
  predicate AlarmFired(args: AlarmArgs, env: AlarmEnv, killed: bool)
  {
    Prepared(args).Ok? && RunPhase(env, killed).triggered
  }

  /** How runalarm ends. main's final exit(status) is reported as
      Return(status), like a return from main. */
  function AlarmOutcome(args: AlarmArgs, env: AlarmEnv, killed: bool): (r: Outcome)
    ensures Prepared(args).Abort? ==> r == Terminate(Prepared(args).code)
    ensures Prepared(args).Ok? && !AlarmFired(args, env, killed) ==>
      r == RunOutcome(env.fork, env.child, env.attempts, killed)
    ensures AlarmFired(args, env, killed) ==>
      r == Return(TimedOutStatus) || r == Terminate(EX_OSERR) || r.Killed? || r == Waiting
    ensures AlarmFired(args, env, killed) && Returned(RunPhase(env, killed).outcome) ==> r == Return(TimedOutStatus)
    ensures env.fork <= 0 ==> !AlarmFired(args, env, killed)
  {
    match Prepared(args)
    case Abort(code) => Terminate(code)
    case Ok(_) =>
      var p := RunPhase(env, killed);
      if env.fork > 0 && env.alarmAfter.Some? && !p.triggered then
        ReapPrefix(env.attempts, killed, AlarmCut(env.attempts, env.alarmAfter.value), env.fork);
        FinalStatus(p.outcome, p.triggered)
      else
        FinalStatus(p.outcome, p.triggered)
  }

  /** The log after runalarm's main, given the log `log` before it. */
  function AlarmSteps(log: seq<Step>, args: AlarmArgs, env: AlarmEnv, actions: map<int, Disposition>,
                      killed: bool, fatal: bool): seq<Step>
  {
    match Prepared(args)
    case Abort(_) => log
    case Ok(t) =>
      var spawned := log + [SigAction(SIGALRM, TimeoutAlarmAction)]
        + SpawnSteps(args.argv[0], SetTimeoutAlarm(t), actions[SIGALRM := TimeoutAlarmAction], env.fork, env.child);
      var waited := if env.fork > 0
        then WaitPhaseSteps(spawned, env.attempts, env.alarmAfter, killed, fatal, env.fork, env.alarmKill, env.kill)
        else spawned;
      if Returned(RunPhase(env, killed).outcome) then waited + [Alarm(0)] else waited
  }

  /** An alarm that does not fire while the command is waited for leaves
      the command's own status, once the waitpid calls before the one that
      reaps it failed with errors other than EINTR. */
  lemma NoAlarmKeepsStatus(args: AlarmArgs, env: AlarmEnv, killed: bool, j: nat, ws: WaitStatus)
    requires Prepared(args).Ok? && env.fork > 0 && !AlarmFired(args, env, killed)
    requires j < |env.attempts| && env.attempts[j] == Waited(Reaped(env.fork, ws))
    requires forall i :: 0 <= i < j ==>
               env.attempts[i].Waited? && env.attempts[i].ret.WaitFailed? && env.attempts[i].ret.errno != EINTR
    ensures AlarmOutcome(args, env, killed) == Return(ShellStatus(ws))
  {
    WaitEndFirst(env.attempts, killed, 0, j);
  }

  /** An alarm that arrives before the first waitpid, with the group kill
      sent and the child then reaped, makes runalarm report 128 + SIGALRM
      even though the child's own status was something else. */
  lemma AlarmBeforeWait(args: AlarmArgs, env: AlarmEnv, killed: bool)
    requires Prepared(args).Ok? && env.fork > 0
    requires env.alarmAfter == Some(0) && env.alarmKill.sent
    requires |env.attempts| > 0 && env.attempts[0] == Waited(Reaped(env.fork, Exited(0)))
    ensures AlarmOutcome(args, env, killed) == Return(TimedOutStatus)
  {
    var rest := env.attempts[0..];
    assert rest[0] == env.attempts[0];
    WaitEndFirst(rest, true, 0, 0);
  }

  /** The alarm is armed only in the parent, after fork and after the
      termination handlers are in place; the child never arms it. */
  lemma AlarmArmedAfterFork(command: string, t: int, actions: map<int, Disposition>, fork: int, child: ChildRun)
    ensures var s := SpawnSteps(command, SetTimeoutAlarm(t), actions, fork, child);
      s[0] == Fork && (Alarm(t) in s <==> fork > 0) && (fork > 0 ==> s[|s| - 1] == Alarm(t))
  {
    var s := SpawnSteps(command, SetTimeoutAlarm(t), actions, fork, child);
    if fork > 0 {
      assert s == [Fork] + InstallSteps(actions) + [Alarm(t)];
    } else {
      assert Alarm(t) !in s[1..];
    }
  }

  /** The global state of runalarm.c, in the process that runs it. */
  class AlarmTool {
    var timeout: int
    var alarmTriggered: bool
    const proc: Process

    constructor (p: Process)
      ensures proc == p && timeout == DefaultTimeout && !alarmTriggered
    {
      proc := p;
      timeout := DefaultTimeout;
      alarmTriggered := false;
    }

    /** alarm_handler: record the alarm and kill the command's group,
        leaving errno as it found it (unless the kill fails and the
        process exits). */
    method AlarmHandler(k: KillResult) returns (flow: Flow)
      modifies this, proc
      ensures alarmTriggered && proc.killedByUs
      ensures flow == (if k.sent then Continue else Exit(EX_OSERR))
      ensures proc.steps == old(proc.steps) + KillSteps(proc.childpid, k)
      ensures flow == Continue ==> proc.errno == old(proc.errno)
      ensures proc.childpid == old(proc.childpid) && proc.actions == old(proc.actions)
      ensures proc.fatalErrorInProgress == old(proc.fatalErrorInProgress) && timeout == old(timeout)
    {
      var savedErrno := proc.errno;
      alarmTriggered := true;
      flow := proc.KillProcessGroup(k);
      if flow.Exit? {
        return;
      }
      proc.errno := savedErrno;
    }

    /** The options and the command check. */
    method Prepare(args: AlarmArgs) returns (p: Checked<int>)
      requires timeout == DefaultTimeout
      modifies this
      ensures p == Prepared(args)
      ensures p.Ok? ==> timeout == p.value
      ensures alarmTriggered == old(alarmTriggered)
    {
      if args.timeoutArg.Some? {
        var t := ParseSeconds(args.timeoutArg.value);
        if t.Abort? {
          return Abort(t.code);
        }
        timeout := t.value;
      }
      if |args.argv| == 0 {
        return Abort(EXIT_FAILURE);
      }
      p := Ok(timeout);
    }

    /** The wait loop of run_subprocess with SIGALRM delivered where
        env.alarmAfter says, then what follows the loop. */
    method WaitWithAlarm(env: AlarmEnv) returns (r: Outcome)
      requires !alarmTriggered && AllCaught(env.attempts, proc.actions)
      modifies this, proc
      ensures Phase(r, alarmTriggered) ==
        WaitPhase(env.attempts, env.alarmAfter, old(proc.killedByUs), old(proc.childpid), env.alarmKill)
      ensures proc.steps == WaitPhaseSteps(old(proc.steps), env.attempts, env.alarmAfter, old(proc.killedByUs),
                                           old(proc.fatalErrorInProgress), old(proc.childpid), env.alarmKill, env.kill)
      ensures proc.actions == (if r.Killed? then old(proc.actions)[r.sig := Default] else old(proc.actions))
      ensures timeout == old(timeout)
    {
      match env.alarmAfter {
        case None =>
          r := proc.Reap(env.attempts, env.kill);
        case Some(n) =>
          var m := AlarmCut(env.attempts, n);
          var before := env.attempts[..m];
          var i := proc.WaitLoop(before);
          if i < m {
            assert before[i] == env.attempts[i];
            r := proc.Ended(before[i], env.kill);
            return;
          }
          var flow := AlarmHandler(env.alarmKill);
          if flow.Exit? {
            return Terminate(EX_OSERR);
          }
          assert forall j :: 0 <= j < |env.attempts[m..]| ==> env.attempts[m..][j] == env.attempts[m + j];
          r := proc.Reap(env.attempts[m..], env.kill);
      }
    }

    /** run_subprocess(command, args, set_timeout_alarm), with the alarm
        arriving as env says. */
    method Run(command: string, env: AlarmEnv) returns (r: Outcome)
      requires !alarmTriggered && AllCaught(env.attempts, InstallTermination(proc.actions))
      modifies this, proc
      ensures Phase(r, alarmTriggered) == RunPhase(env, old(proc.killedByUs))
      ensures proc.steps ==
        (var spawned := old(proc.steps) + SpawnSteps(command, SetTimeoutAlarm(timeout), old(proc.actions), env.fork, env.child);
         if env.fork > 0
         then WaitPhaseSteps(spawned, env.attempts, env.alarmAfter, old(proc.killedByUs), old(proc.fatalErrorInProgress),
                             env.fork, env.alarmKill, env.kill)
         else spawned)
      ensures timeout == old(timeout)
    {
      var s := proc.Spawn(command, SetTimeoutAlarm(timeout), env.fork, env.child);
      if s.Ends? {
        return s.outcome;
      }
      r := WaitWithAlarm(env);
    }

    /** main */
    method Execute(args: AlarmArgs, env: AlarmEnv) returns (r: Outcome)
      requires timeout == DefaultTimeout && !alarmTriggered
      requires AllCaught(env.attempts, InstallTermination(proc.actions))
      modifies this, proc
      ensures r == AlarmOutcome(args, env, old(proc.killedByUs))
      ensures proc.steps == AlarmSteps(old(proc.steps), args, env, old(proc.actions), old(proc.killedByUs),
                                       old(proc.fatalErrorInProgress))
      ensures alarmTriggered == AlarmFired(args, env, old(proc.killedByUs))
      ensures Prepared(args).Ok? ==> timeout == Prepared(args).value
    {
      var p := Prepare(args);
      if p.Abort? {
        return Terminate(p.code);
      }
      CaughtIgnoresOtherSignal(env.attempts, proc.actions, SIGALRM, TimeoutAlarmAction);
      proc.actions := proc.actions[SIGALRM := TimeoutAlarmAction];
      proc.steps := proc.steps + [SigAction(SIGALRM, TimeoutAlarmAction)];
      r := Run(args.argv[0], env);
      if Returned(r) {
        proc.steps := proc.steps + [Alarm(0)];
        if alarmTriggered {
          r := Return(TimedOutStatus);
        }
      }
    }
  }
}
