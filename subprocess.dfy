/** The supervisor shared by all three wrappers (subprocess.c): fork the
    command into its own session, make sure its process group dies with
    us, wait for it, and turn its wait status into a shell exit code.
    Every system call's result is an input; the effects the rest of the
    system can see are appended to the process's step log. */
module Subprocess {
  import opened Posix

  /** The result of killpg(getpgid(childpid), SIGTERM): the group id
      getpgid returned, whether the signal was sent, and errno afterwards
      (a system call may overwrite errno even when it succeeds). */
  datatype KillResult = KillResult(pgid: int, sent: bool, errnoAfter: int)

  /** What execvp does in the child: replace the image, or return a value. */
  datatype ExecResult = ExecReplaced | ExecReturned(value: int)

  /** The child's side of fork: whether setsid succeeded and what execvp did. */
  datatype ChildRun = ChildRun(setsidOk: bool, exec: ExecResult)

  /** The function run_subprocess calls before its first waitpid. The one
      hook in the repository is runalarm's set_timeout_alarm, alarm(timeout). */
  datatype PreWait = NoPreWait | SetTimeoutAlarm(seconds: int)

  /** What one call of waitpid(childpid, &status, 0) returns: a pid with a
      status, or -1 with an errno. */
  datatype WaitReturn = Reaped(pid: nat, status: WaitStatus) | WaitFailed(errno: int)

  /** One call of waitpid as the wait loop lives through it: the call
      returns, or, while it is blocked, SIGINT, SIGHUP or SIGTERM arrives
      and termination_handler runs, with `kill` what its group kill does.
      That handler never returns to the loop: it re-raises the signal with
      the default action (or exits if the kill fails). A signal the
      process ignores does not interrupt the call: the wait methods
      require every Interrupted attempt to be `Caught` below. */
  datatype WaitAttempt = Waited(ret: WaitReturn) | Interrupted(sig: int, kill: KillResult)

  /** Where run_subprocess is after fork: the parent goes on to wait, every
      other branch has already ended with the given outcome. */
  datatype SpawnResult = Parent | Ends(outcome: Outcome)

  /** The signals the termination handler is installed for, and the mask it
      runs with (which also holds SIGQUIT, a signal it is never installed for). */
  const TerminationMask: set<int> := {SIGINT, SIGHUP, SIGTERM, SIGQUIT}
  const TerminationAction: Disposition := Catch(TerminationHandler, TerminationMask)

  predicate IsTerminationSignal(sig: int)
  {
    sig == SIGINT || sig == SIGHUP || sig == SIGTERM
  }

  /** install_termination_handler for one signal: left alone when ignored. */
  function InstallFor(m: map<int, Disposition>, sig: int): map<int, Disposition>
  {
    if ActionOf(m, sig) == Ignore then m else m[sig := TerminationAction]
  }

  function InstallStepFor(m: map<int, Disposition>, sig: int): seq<Step>
  {
    if ActionOf(m, sig) == Ignore then [] else [SigAction(sig, TerminationAction)]
  }

  /** The signal actions after install_termination_handler. */
  function InstallTermination(m: map<int, Disposition>): (r: map<int, Disposition>)
    ensures forall s :: ActionOf(m, s) == Ignore ==> ActionOf(r, s) == Ignore
    ensures forall s :: IsTerminationSignal(s) && ActionOf(m, s) != Ignore ==>
      ActionOf(r, s) == TerminationAction
    ensures forall s :: !IsTerminationSignal(s) ==> ActionOf(r, s) == ActionOf(m, s)
  {
    InstallFor(InstallFor(InstallFor(m, SIGINT), SIGHUP), SIGTERM)
  }

  /** The sigaction calls that install_termination_handler makes. */
  function InstallSteps(m: map<int, Disposition>): seq<Step>
  {
    InstallStepFor(m, SIGINT) + InstallStepFor(m, SIGHUP) + InstallStepFor(m, SIGTERM)
  }

  /** Installing twice changes nothing more than installing once. */
  lemma InstallTerminationIdempotent(m: map<int, Disposition>)
    ensures InstallTermination(InstallTermination(m)) == InstallTermination(m)
  {
    var once := InstallTermination(m);
    var twice := InstallTermination(once);
    assert forall s :: ActionOf(twice, s) == ActionOf(once, s);
    assert twice.Keys == once.Keys;
  }

  /** kill_process_group: the flag is set first, then the group is looked up
      and signalled. */
  function KillSteps(childpid: int, k: KillResult): (r: seq<Step>)
    ensures |r| == 3 && r[0] == MarkKilledByUs && r[2] == KillPg(k.pgid, SIGTERM)
  {
    [MarkKilledByUs, GetPgid(childpid), KillPg(k.pgid, SIGTERM)]
  }

  /** What termination_handler(sig) does, given whether it was already in
      progress, the supervised pid and what the group kill did. */
  function TerminationSteps(reentered: bool, childpid: int, sig: int, k: KillResult): (r: seq<Step>)
  {
    ReentrySteps(reentered, sig) + GroupKillSteps(childpid, k)
    + (if childpid > 0 && !k.sent then [] else [SigAction(sig, Default), Raise(sig)])
  }

  /** The order termination_handler keeps: a re-entered handler raises the
      signal first; the group is killed exactly when a child is supervised;
      unless that kill fails, the handler ends by restoring the default
      action and raising the signal again, so the process dies of it. */
  lemma TerminationStepsShape(reentered: bool, childpid: int, sig: int, k: KillResult)
    ensures var r := TerminationSteps(reentered, childpid, sig, k);
      r != [] &&
      (r[0] == Raise(sig) <==> reentered) &&
      (KillPg(k.pgid, SIGTERM) in r <==> childpid > 0) &&
      (childpid <= 0 || k.sent ==> |r| >= 2 && r[|r| - 2..] == [SigAction(sig, Default), Raise(sig)]) &&
      (childpid > 0 && !k.sent ==> r[|r| - 1] == KillPg(k.pgid, SIGTERM))
  {
  }

  /** A handler entered again while already in progress raises the signal
      once more, and then carries on. */
  function ReentrySteps(reentered: bool, sig: int): seq<Step>
  {
    if reentered then [Raise(sig)] else []
  }

  /** The group is killed only when a child is being supervised. */
  function GroupKillSteps(childpid: int, k: KillResult): seq<Step>
  {
    if childpid > 0 then KillSteps(childpid, k) else []
  }

  /** The shell convention for a wait status: the exit code, or 128 plus
      the number of the signal that killed the child. */
  function ShellStatus(ws: WaitStatus): int
  {
    match ws
    case Exited(code) => code
    case Signaled(sig) => 128 + sig
  }

  /** A status waitpid can report: WEXITSTATUS gives an exit code from 0
      to 255, WTERMSIG a signal number from 1 to 127. */
  predicate KernelStatus(ws: WaitStatus)
  {
    match ws
    case Exited(code) => 0 <= code < 256
    case Signaled(sig) => 1 <= sig < 128
  }

  /** A reportable status whose shell code is below 128 or that is a
      signal: every one except an exit code from 128 to 255. */
  predicate ExitBelow128(ws: WaitStatus)
  {
    match ws
    case Exited(code) => 0 <= code < 128
    case Signaled(sig) => 1 <= sig < 128
  }

  /** Reading a shell status back: below 128 an exit code, from 128 a signal. */
  function StatusOfShellCode(code: int): (ws: WaitStatus)
    ensures 0 <= code < 256 ==> ShellStatus(ws) == code
    ensures 0 <= code < 128 <==> ws.Exited? && 0 <= ws.code < 128
  {
    if code < 128 then Exited(code) else Signaled(code - 128)
  }

  /** Exit codes below 128 and deaths by signal are told apart by the
      shell code: the code reads back as the status. */
  lemma ShellStatusRoundTrip(ws: WaitStatus)
    requires ExitBelow128(ws)
    ensures StatusOfShellCode(ShellStatus(ws)) == ws
  {
  }

  lemma ShellStatusInjective(a: WaitStatus, b: WaitStatus)
    requires ExitBelow128(a) && ExitBelow128(b)
    requires ShellStatus(a) == ShellStatus(b)
    ensures a == b
  {
    ShellStatusRoundTrip(a);
    ShellStatusRoundTrip(b);
  }

  /** Over every status waitpid can report, the code reads back exactly
      when the status is not an exit code from 128 up. */
  lemma ShellStatusRoundTripIff(ws: WaitStatus)
    requires KernelStatus(ws)
    ensures StatusOfShellCode(ShellStatus(ws)) == ws <==> ExitBelow128(ws)
  {
  }

  /** The convention is ambiguous from 129 up: a command that exits with
      128 + s gives the same code as one killed by signal s. */
  lemma ShellStatusCollision(s: int)
    requires 1 <= s < 128
    ensures KernelStatus(Exited(128 + s)) && KernelStatus(Signaled(s))
    ensures Exited(128 + s) != Signaled(s) && ShellStatus(Exited(128 + s)) == ShellStatus(Signaled(s))
  {
  }

  /** The wait loop stops after an attempt exactly when waitpid returned a
      pid, or it failed with EINTR while killed_by_us is set, or the
      termination handler ran during it. killed_by_us does not change
      while the loop runs: only a handler that returns could set it, and
      the termination handler does not return. */
  predicate EndsWait(a: WaitAttempt, killed: bool)
  {
    match a
    case Waited(ret) => ret.Reaped? || (ret.errno == EINTR && killed)
    case Interrupted(_, _) => true
  }

  /** The index of the attempt at which the wait loop stops, looking from
      attempt i on; |attempts| when none of them stops it. */
  function WaitEnd(attempts: seq<WaitAttempt>, killed: bool, i: nat): (r: nat)
    requires i <= |attempts|
    ensures i <= r <= |attempts|
    ensures r < |attempts| ==> EndsWait(attempts[r], killed)
    ensures forall j :: i <= j < r ==> !EndsWait(attempts[j], killed)
    decreases |attempts| - i
  {
    if i == |attempts| then i
    else if EndsWait(attempts[i], killed) then i
    else WaitEnd(attempts, killed, i + 1)
  }

  /** The loop stops at the first attempt that ends it, and at none when
      no attempt does. */
  lemma {:induction false} WaitEndFirst(attempts: seq<WaitAttempt>, killed: bool, i: nat, e: nat)
    requires i <= e <= |attempts|
    requires forall j :: i <= j < e ==> !EndsWait(attempts[j], killed)
    requires e < |attempts| ==> EndsWait(attempts[e], killed)
    ensures WaitEnd(attempts, killed, i) == e
    decreases e - i
  {
    if i < e {
      WaitEndFirst(attempts, killed, i + 1, e);
    }
  }

  /** The wait loop keeps going through every failure other than an
      EINTR seen with killed_by_us set. */
  lemma {:induction false} WaitSkipsRetries(attempts: seq<WaitAttempt>, killed: bool, i: nat)
    requires i <= |attempts|
    requires forall j :: i <= j < |attempts| ==>
      attempts[j].Waited? && attempts[j].ret.WaitFailed? && (attempts[j].ret.errno != EINTR || !killed)
    ensures WaitEnd(attempts, killed, i) == |attempts|
    decreases |attempts| - i
  {
    if i < |attempts| {
      WaitSkipsRetries(attempts, killed, i + 1);
    }
  }

  /** A loop that already stops within the first m attempts ends the same
      way whatever comes after them. */
  lemma ReapPrefix(attempts: seq<WaitAttempt>, killed: bool, m: nat, childpid: int)
    requires m <= |attempts| && WaitEnd(attempts[..m], killed, 0) < m
    ensures WaitEnd(attempts, killed, 0) == WaitEnd(attempts[..m], killed, 0)
    ensures ReapOutcome(attempts[..m], killed, childpid) == ReapOutcome(attempts, killed, childpid)
  {
    var n := WaitEnd(attempts[..m], killed, 0);
    assert forall j :: 0 <= j <= n ==> attempts[..m][j] == attempts[j];
    WaitEndFirst(attempts, killed, 0, n);
  }

  /** The wait loop stopped because the termination handler ran. */
  predicate WaitInterrupted(attempts: seq<WaitAttempt>, killed: bool)
  {
    var n := WaitEnd(attempts, killed, 0);
    n < |attempts| && attempts[n].Interrupted?
  }

  /** Only a signal termination_handler is installed for can interrupt
      the wait and run it: SIGINT, SIGHUP or SIGTERM, caught in `actions`. */
  predicate Caught(a: WaitAttempt, actions: map<int, Disposition>)
  {
    a.Interrupted? ==> IsTerminationSignal(a.sig) && ActionOf(actions, a.sig) == TerminationAction
  }

  predicate AllCaught(attempts: seq<WaitAttempt>, actions: map<int, Disposition>)
  {
    forall j :: 0 <= j < |attempts| ==> Caught(attempts[j], actions)
  }

  /** After install_termination_handler, the signals that can interrupt the
      wait are exactly SIGINT, SIGHUP and SIGTERM, unless the process
      inherited them ignored. */
  lemma CaughtAfterInstall(attempts: seq<WaitAttempt>, m: map<int, Disposition>)
    ensures AllCaught(attempts, InstallTermination(m)) <==>
      forall j :: 0 <= j < |attempts| && attempts[j].Interrupted? ==>
        IsTerminationSignal(attempts[j].sig) && ActionOf(m, attempts[j].sig) != Ignore
  {
    var r := InstallTermination(m);
    forall j | 0 <= j < |attempts| && attempts[j].Interrupted? && IsTerminationSignal(attempts[j].sig)
      ensures ActionOf(r, attempts[j].sig) == TerminationAction <==> ActionOf(m, attempts[j].sig) != Ignore
    {
      assert TerminationAction != Ignore;
    }
  }

  /** Changing the action of a signal other than the three leaves the
      interrupting signals caught after the install. */
  lemma CaughtIgnoresOtherSignal(attempts: seq<WaitAttempt>, m: map<int, Disposition>, sig: int, d: Disposition)
    requires !IsTerminationSignal(sig)
    requires AllCaught(attempts, InstallTermination(m))
    ensures AllCaught(attempts, InstallTermination(m[sig := d]))
  {
    CaughtAfterInstall(attempts, m);
    CaughtAfterInstall(attempts, m[sig := d]);
    forall s | IsTerminationSignal(s)
      ensures ActionOf(m[sig := d], s) == ActionOf(m, s)
    {
    }
  }

  /** How run_subprocess ends once the wait loop has stopped. */
  function ReapOutcome(attempts: seq<WaitAttempt>, killed: bool, childpid: int): (r: Outcome)
    ensures r == Waiting <==> WaitEnd(attempts, killed, 0) == |attempts|
    ensures var n := WaitEnd(attempts, killed, 0);
      n < |attempts| && attempts[n].Waited? && attempts[n].ret.Reaped? ==>
        (attempts[n].ret.pid == 0 ==> r == ReturnUnspecified) &&
        (attempts[n].ret.pid > 0 && attempts[n].ret.pid != childpid ==> r == Terminate(EX_OSERR)) &&
        (attempts[n].ret.pid > 0 && attempts[n].ret.pid == childpid ==>
          r == Return(ShellStatus(attempts[n].ret.status)))
    ensures var n := WaitEnd(attempts, killed, 0);
      n < |attempts| && attempts[n].Waited? && attempts[n].ret.WaitFailed? ==> r == ReturnUnspecified
    ensures var n := WaitEnd(attempts, killed, 0);
      n < |attempts| && attempts[n].Interrupted? ==>
        r == (if childpid > 0 && !attempts[n].kill.sent then Terminate(EX_OSERR) else Killed(attempts[n].sig))
    ensures r.Return? ==>
      exists j :: 0 <= j < |attempts| && attempts[j].Waited? && attempts[j].ret.Reaped? &&
        attempts[j].ret.pid == childpid && r.status == ShellStatus(attempts[j].ret.status)
    ensures r.Terminate? ==> r.code == EX_OSERR
    ensures r != Replaced
  {
    var n := WaitEnd(attempts, killed, 0);
    if n == |attempts| then Waiting else EndedOutcome(attempts[n], childpid)
  }

  /** What follows the wait loop, given the attempt that ended it. */
  function EndedOutcome(a: WaitAttempt, childpid: int): Outcome
  {
    match a
    case Waited(ret) => WaitedOutcome(ret, childpid)
    case Interrupted(sig, kill) => if childpid > 0 && !kill.sent then Terminate(EX_OSERR) else Killed(sig)
  }

  /** What follows the wait loop, given the waitpid call that ended it. */
  function WaitedOutcome(ret: WaitReturn, childpid: int): Outcome
  {
    match ret
    case Reaped(pid, st) =>
      if pid == 0 then ReturnUnspecified
      else if pid != childpid then Terminate(EX_OSERR)
      else Return(ShellStatus(st))
    case WaitFailed(_) => ReturnUnspecified
  }

  /** The group kill that ran after the loop stopped at `a`: the
      handler's own, or `k` for the defensive kill after a foreign pid. */
  function EndingKill(a: WaitAttempt, k: KillResult): KillResult
  {
    if a.Interrupted? then a.kill else k
  }

  function WaitedSteps(ret: WaitReturn, childpid: int, k: KillResult): seq<Step>
  {
    [Alarm(0)] + (if ret.Reaped? && ret.pid > 0 && ret.pid != childpid then KillSteps(childpid, k) else [])
  }

  /** The steps after the attempt that ended the loop; `fatal` is
      fatal_error_in_progress at that point. */
  function EndedSteps(a: WaitAttempt, fatal: bool, childpid: int, k: KillResult): seq<Step>
  {
    match a
    case Waited(ret) => WaitedSteps(ret, childpid, k)
    case Interrupted(sig, kill) => TerminationSteps(fatal, childpid, sig, kill)
  }

  function Repeat(s: Step, n: nat): (r: seq<Step>)
    ensures |r| == n && forall j :: 0 <= j < n ==> r[j] == s
  {
    if n == 0 then [] else Repeat(s, n - 1) + [s]
  }

  /** The steps of the wait loop and what follows it. */
  function ReapSteps(attempts: seq<WaitAttempt>, killed: bool, fatal: bool, childpid: int, k: KillResult): seq<Step>
  {
    var n := WaitEnd(attempts, killed, 0);
    if n == |attempts| then Repeat(WaitPid(childpid), n)
    else
      Repeat(WaitPid(childpid), n + 1) + EndedSteps(attempts[n], fatal, childpid, k)
  }

  /** The fork branches of run_subprocess. */
  function ForkBranch(fork: int, child: ChildRun): (r: SpawnResult)
    ensures r.Parent? <==> fork > 0
    ensures fork < 0 ==> r == Ends(Terminate(EX_OSERR))
    ensures fork == 0 && !child.setsidOk ==> r == Ends(Return(-1))
    ensures fork == 0 && child.setsidOk && child.exec.ExecReturned? && child.exec.value != 0 ==>
      r == Ends(Terminate(EX_NOINPUT))
    ensures fork == 0 && child.setsidOk && child.exec == ExecReturned(0) ==> r == Ends(Terminate(EX_UNAVAILABLE))
    ensures fork == 0 && child.setsidOk && child.exec == ExecReplaced ==> r == Ends(Replaced)
  {
    if fork == 0 then
      if !child.setsidOk then Ends(Return(-1))
      else match child.exec
        case ExecReplaced => Ends(Replaced)
        case ExecReturned(v) => Ends(Terminate(if v != 0 then EX_NOINPUT else EX_UNAVAILABLE))
    else if fork < 0 then Ends(Terminate(EX_OSERR))
    else Parent
  }

  /** How run_subprocess ends, for each fork result. */
  function RunOutcome(fork: int, child: ChildRun, attempts: seq<WaitAttempt>, killed: bool): (r: Outcome)
    ensures fork <= 0 ==> r != Waiting && r != ReturnUnspecified
    ensures fork < 0 ==> r == Terminate(EX_OSERR)
  {
    if fork > 0 then ReapOutcome(attempts, killed, fork) else ForkBranch(fork, child).outcome
  }

  /** The steps run_subprocess takes. */
  function RunSteps(command: string, hook: PreWait, actions: map<int, Disposition>, fork: int,
                    child: ChildRun, attempts: seq<WaitAttempt>, killed: bool, fatal: bool,
                    k: KillResult): seq<Step>
  {
    SpawnSteps(command, hook, actions, fork, child)
    + (if fork > 0 then ReapSteps(attempts, killed, fatal, fork, k) else [])
  }

  function ChildSteps(command: string, child: ChildRun): seq<Step>
  {
    if child.setsidOk then [Setsid, Exec(command)] else [Setsid]
  }

  function PreWaitSteps(hook: PreWait): seq<Step>
  {
    match hook
    case NoPreWait => []
    case SetTimeoutAlarm(t) => [Alarm(t)]
  }

  function SpawnSteps(command: string, hook: PreWait, actions: map<int, Disposition>,
                      fork: int, child: ChildRun): seq<Step>
  {
    [Fork] + (if fork == 0 then ChildSteps(command, child)
              else if fork < 0 then []
              else InstallSteps(actions) + PreWaitSteps(hook))
  }

  lemma StepsAssoc(a: seq<Step>, b: seq<Step>, c: seq<Step>)
    ensures a + b + c == a + (b + c)
  {
  }

  /** The waitpid loop on its own, with `calls` logging the calls.
      Returns the index of the attempt that ended the loop, or |attempts|. */
  method WaitCalls(attempts: seq<WaitAttempt>, childpid: int, killed: bool) returns (i: nat, calls: seq<Step>)
    ensures i == WaitEnd(attempts, killed, 0)
    ensures calls == Repeat(WaitPid(childpid), if i == |attempts| then i else i + 1)
  {
    calls := [];
    i := 0;
    while i < |attempts|
      invariant 0 <= i <= |attempts|
      invariant forall j :: 0 <= j < i ==> !EndsWait(attempts[j], killed)
      invariant calls == Repeat(WaitPid(childpid), i)
    {
      calls := calls + [WaitPid(childpid)];
      if attempts[i].Interrupted? {
        break;
      }
      var ret := attempts[i].ret;
      if ret.Reaped? {
        break;
      }
      if ret.errno == EINTR && killed {
        break;
      }
      i := i + 1;
    }
    WaitEndFirst(attempts, killed, 0, i);
  }

  /** All the global state of subprocess.c, together with the per-process
      state its functions touch: errno, the signal actions and the log. */
  class Process {
    var childpid: int
    var killedByUs: bool
    var fatalErrorInProgress: bool
    var errno: int
    var actions: map<int, Disposition>
    var steps: seq<Step>

    /** A process that has not forked yet, with the signal actions it inherited. */
    constructor (inherited: map<int, Disposition>)
      ensures childpid == -1 && !killedByUs && !fatalErrorInProgress
      ensures errno == 0 && actions == inherited && steps == []
    {
      childpid := -1;
      killedByUs := false;
      fatalErrorInProgress := false;
      errno := 0;
      actions := inherited;
      steps := [];
    }

    /** kill_process_group: SIGTERM to the child's whole group; a failed
        killpg ends the process with EX_OSERR. */
    method KillProcessGroup(k: KillResult) returns (flow: Flow)
      modifies this
      ensures killedByUs
      ensures flow == (if k.sent then Continue else Exit(EX_OSERR))
      ensures steps == old(steps) + KillSteps(childpid, k)
      ensures errno == k.errnoAfter
      ensures childpid == old(childpid) && fatalErrorInProgress == old(fatalErrorInProgress)
      ensures actions == old(actions)
    {
      killedByUs := true;
      steps := steps + [MarkKilledByUs];
      steps := steps + [GetPgid(childpid)];
      steps := steps + [KillPg(k.pgid, SIGTERM)];
      errno := k.errnoAfter;
      if !k.sent {
        return Exit(EX_OSERR);
      }
      flow := Continue;
    }

    /** termination_handler(sig), for SIGINT, SIGHUP and SIGTERM. */
    method HandleTermination(sig: int, k: KillResult) returns (flow: Flow)
      modifies this
      ensures flow == (if old(childpid) > 0 && !k.sent then Exit(EX_OSERR) else Continue)
      ensures steps == old(steps) + TerminationSteps(old(fatalErrorInProgress), old(childpid), sig, k)
      ensures fatalErrorInProgress
      ensures killedByUs == (old(killedByUs) || old(childpid) > 0)
      ensures errno == (if flow.Exit? then k.errnoAfter else old(errno))
      ensures actions == (if flow.Exit? then old(actions) else old(actions)[sig := Default])
      ensures childpid == old(childpid)
    {
      ghost var reentered := fatalErrorInProgress;
      ghost var reentry := ReentrySteps(reentered, sig);
      ghost var group := GroupKillSteps(childpid, k);
      if fatalErrorInProgress {
        steps := steps + [Raise(sig)];
      }
      fatalErrorInProgress := true;

      flow := KillGroupOfChild(k);
      if flow.Exit? {
        StepsAssoc(old(steps), reentry, group);
        assert TerminationSteps(reentered, old(childpid), sig, k) == reentry + group + [];
        return;
      }

      actions := actions[sig := Default];
      steps := steps + [SigAction(sig, Default), Raise(sig)];
      flow := Continue;
      StepsAssoc(old(steps), reentry, group);
      StepsAssoc(old(steps), reentry + group, [SigAction(sig, Default), Raise(sig)]);
    }

    /** The handler's group kill: only while a child is supervised, and
        with errno kept across it. */
    method KillGroupOfChild(k: KillResult) returns (flow: Flow)
      modifies this
      ensures flow == (if childpid > 0 && !k.sent then Exit(EX_OSERR) else Continue)
      ensures steps == old(steps) + GroupKillSteps(childpid, k)
      ensures killedByUs == (old(killedByUs) || childpid > 0)
      ensures errno == (if flow.Exit? then k.errnoAfter else old(errno))
      ensures childpid == old(childpid) && actions == old(actions)
      ensures fatalErrorInProgress == old(fatalErrorInProgress)
    {
      flow := Continue;
      if childpid > 0 {
        var savedErrno := errno;
        flow := KillProcessGroup(k);
        if flow.Exit? {
          return;
        }
        errno := savedErrno;
      }
    }

    /** install_termination_handler */
    method InstallTerminationHandler()
      modifies this
      ensures actions == InstallTermination(old(actions))
      ensures steps == old(steps) + InstallSteps(old(actions))
      ensures childpid == old(childpid) && killedByUs == old(killedByUs)
      ensures fatalErrorInProgress == old(fatalErrorInProgress) && errno == old(errno)
    {
      var m := actions;
      InstallOne(SIGINT);
      InstallOne(SIGHUP);
      InstallOne(SIGTERM);
      assert steps == old(steps) + InstallStepFor(m, SIGINT) + InstallStepFor(InstallFor(m, SIGINT), SIGHUP)
        + InstallStepFor(InstallFor(InstallFor(m, SIGINT), SIGHUP), SIGTERM);
    }

    /** Query the current action of `sig` and install the handler unless it is SIG_IGN. */
    method InstallOne(sig: int)
      requires IsTerminationSignal(sig)
      modifies this
      ensures actions == InstallFor(old(actions), sig)
      ensures steps == old(steps) + InstallStepFor(old(actions), sig)
      ensures childpid == old(childpid) && killedByUs == old(killedByUs)
      ensures fatalErrorInProgress == old(fatalErrorInProgress) && errno == old(errno)
    {
      var previous := ActionOf(actions, sig);
      if previous != Ignore {
        actions := actions[sig := TerminationAction];
        steps := steps + [SigAction(sig, TerminationAction)];
      }
    }

    /** The first half of run_subprocess: fork, then in the child detach
        and exec, in the parent install the handler and call the hook. */
    method Spawn(command: string, hook: PreWait, fork: int, child: ChildRun) returns (r: SpawnResult)
      modifies this
      ensures r == ForkBranch(fork, child)
      ensures childpid == fork
      ensures steps == old(steps) + SpawnSteps(command, hook, old(actions), fork, child)
      ensures actions == (if fork > 0 then InstallTermination(old(actions)) else old(actions))
      ensures killedByUs == old(killedByUs) && fatalErrorInProgress == old(fatalErrorInProgress)
      ensures errno == old(errno)
    {
      childpid := fork;
      steps := steps + [Fork];
      if childpid == 0 {
        r := ExecChild(command, child);
        StepsAssoc(old(steps), [Fork], ChildSteps(command, child));
        return;
      } else if childpid < 0 {
        return Ends(Terminate(EX_OSERR));
      }
      InstallTerminationHandler();
      CallPreWait(hook);
      StepsAssoc(old(steps), [Fork], InstallSteps(old(actions)));
      StepsAssoc(old(steps) + [Fork], InstallSteps(old(actions)), PreWaitSteps(hook));
      StepsAssoc(old(steps), [Fork], InstallSteps(old(actions)) + PreWaitSteps(hook));
      r := Parent;
    }

    /** The child's side of fork: detach into a new session, then exec. */
    method ExecChild(command: string, child: ChildRun) returns (r: SpawnResult)
      modifies this
      ensures r == ForkBranch(0, child)
      ensures steps == old(steps) + ChildSteps(command, child)
      ensures childpid == old(childpid) && killedByUs == old(killedByUs)
      ensures fatalErrorInProgress == old(fatalErrorInProgress) && errno == old(errno) && actions == old(actions)
    {
      steps := steps + [Setsid];
      if !child.setsidOk {
        return Ends(Return(-1));
      }
      steps := steps + [Exec(command)];
      match child.exec {
        case ExecReplaced =>
          return Ends(Replaced);
        case ExecReturned(v) =>
          if v != 0 {
            return Ends(Terminate(EX_NOINPUT));
          }
          return Ends(Terminate(EX_UNAVAILABLE));
      }
    }

    /** The parent calls the pre-wait hook, when there is one. */
    method CallPreWait(hook: PreWait)
      modifies this
      ensures steps == old(steps) + PreWaitSteps(hook)
      ensures childpid == old(childpid) && killedByUs == old(killedByUs)
      ensures fatalErrorInProgress == old(fatalErrorInProgress) && errno == old(errno) && actions == old(actions)
    {
      match hook {
        case NoPreWait =>
        case SetTimeoutAlarm(t) =>
          steps := steps + [Alarm(t)];
      }
    }

    /** The second half of run_subprocess in the parent: the waitpid loop,
        then what follows it. */
    method Reap(attempts: seq<WaitAttempt>, k: KillResult) returns (r: Outcome)
      requires AllCaught(attempts, actions)
      modifies this
      ensures r == ReapOutcome(attempts, old(killedByUs), old(childpid))
      ensures steps == old(steps) + ReapSteps(attempts, old(killedByUs), old(fatalErrorInProgress), old(childpid), k)
      ensures var n := WaitEnd(attempts, old(killedByUs), 0);
        var interrupted := WaitInterrupted(attempts, old(killedByUs));
        fatalErrorInProgress == (old(fatalErrorInProgress) || interrupted) &&
        killedByUs == (old(killedByUs) || r.Terminate? || (interrupted && old(childpid) > 0)) &&
        errno == (if r.Terminate? then EndingKill(attempts[n], k).errnoAfter else old(errno))
      ensures actions == (if r.Killed? then old(actions)[r.sig := Default] else old(actions))
      ensures childpid == (if r.Return? || r.ReturnUnspecified? then -1 else old(childpid))
      ensures r.Killed? ==> IsTerminationSignal(r.sig)
    {
      var i := WaitLoop(attempts);
      if i == |attempts| {
        return Waiting;
      }
      assert Caught(attempts[i], actions);
      r := Ended(attempts[i], k);
    }

    /** while ((pid = waitpid(childpid, &status, 0)) < 0): retried after
        every failure except EINTR with killed_by_us set. Returns the index
        of the attempt that ended the loop, or |attempts| if none did. */
    method WaitLoop(attempts: seq<WaitAttempt>) returns (i: nat)
      modifies this
      ensures i == WaitEnd(attempts, killedByUs, 0)
      ensures steps == old(steps) + Repeat(WaitPid(childpid), if i == |attempts| then i else i + 1)
      ensures childpid == old(childpid) && errno == old(errno) && killedByUs == old(killedByUs)
      ensures actions == old(actions) && fatalErrorInProgress == old(fatalErrorInProgress)
    {
      var calls;
      i, calls := WaitCalls(attempts, childpid, killedByUs);
      steps := steps + calls;
    }

    /** What follows the attempt `a` that ended the wait loop: the
        termination handler, which never returns to run_subprocess, or
        the code after the loop. */
    method Ended(a: WaitAttempt, k: KillResult) returns (r: Outcome)
      requires Caught(a, actions)
      modifies this
      ensures r == EndedOutcome(a, old(childpid))
      ensures steps == old(steps) + EndedSteps(a, old(fatalErrorInProgress), old(childpid), k)
      ensures fatalErrorInProgress == (old(fatalErrorInProgress) || a.Interrupted?)
      ensures killedByUs == (old(killedByUs) || r.Terminate? || (a.Interrupted? && old(childpid) > 0))
      ensures errno == (if r.Terminate? then EndingKill(a, k).errnoAfter else old(errno))
      ensures actions == (if r.Killed? then old(actions)[r.sig := Default] else old(actions))
      ensures childpid == (if r.Return? || r.ReturnUnspecified? then -1 else old(childpid))
      ensures r.Killed? ==> IsTerminationSignal(r.sig)
    {
      match a {
        case Waited(ret) =>
          r := AfterWait(ret, k);
        case Interrupted(sig, kill) =>
          var flow := HandleTermination(sig, kill);
          r := if flow.Exit? then Terminate(flow.code) else Killed(sig);
      }
    }

    /** After the wait loop: alarm(0), then for a returned pid either the
        defensive kill and EX_OSERR (a pid that is not ours) or the decoded
        status, and childpid back to -1. */
    method AfterWait(ret: WaitReturn, k: KillResult) returns (r: Outcome)
      modifies this
      ensures r == WaitedOutcome(ret, old(childpid))
      ensures steps == old(steps) + WaitedSteps(ret, old(childpid), k)
      ensures killedByUs == (old(killedByUs) || r == Terminate(EX_OSERR))
      ensures childpid == (if r.Terminate? then old(childpid) else -1)
      ensures errno == (if r.Terminate? then k.errnoAfter else old(errno))
      ensures actions == old(actions) && fatalErrorInProgress == old(fatalErrorInProgress)
    {
      steps := steps + [Alarm(0)];
      r := ReturnUnspecified;
      if ret.Reaped? && ret.pid > 0 {
        if ret.pid != childpid {
          var _ := KillProcessGroup(k);
          return Terminate(EX_OSERR);
        }
        r := Return(ShellStatus(ret.status));
      }
      childpid := -1;
    }

    /** run_subprocess(command, args, hook). */
    method RunSubprocess(command: string, hook: PreWait, fork: int, child: ChildRun,
                         attempts: seq<WaitAttempt>, k: KillResult) returns (r: Outcome)
      requires AllCaught(attempts, InstallTermination(actions))
      modifies this
      ensures r == RunOutcome(fork, child, attempts, old(killedByUs))
      ensures steps == old(steps) + RunSteps(command, hook, old(actions), fork, child, attempts,
                                             old(killedByUs), old(fatalErrorInProgress), k)
      ensures actions == (if fork <= 0 then old(actions)
                          else if r.Killed? then InstallTermination(old(actions))[r.sig := Default]
                          else InstallTermination(old(actions)))
      ensures fatalErrorInProgress == (old(fatalErrorInProgress) || (fork > 0 && WaitInterrupted(attempts, old(killedByUs))))
      ensures childpid == (if fork > 0 && (r.Return? || r.ReturnUnspecified?) then -1 else fork)
      ensures killedByUs ==
        (old(killedByUs) || (fork > 0 && (r.Terminate? || WaitInterrupted(attempts, old(killedByUs)))))
      ensures errno == (if fork > 0 && r.Terminate?
                        then EndingKill(attempts[WaitEnd(attempts, old(killedByUs), 0)], k).errnoAfter
                        else old(errno))
      ensures fork > 0 && r.Killed? ==> IsTerminationSignal(r.sig)
    {
      var s := Spawn(command, hook, fork, child);
      if s.Ends? {
        return s.outcome;
      }
      r := Reap(attempts, k);
      StepsAssoc(old(steps), SpawnSteps(command, hook, old(actions), fork, child),
                 ReapSteps(attempts, old(killedByUs), old(fatalErrorInProgress), fork, k));
    }
  }
}
