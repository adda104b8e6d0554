# cronutils in Dafny

A model of the core of cronutils, three wrappers that make cron jobs
better behaved:

- **runalarm** runs a command and kills its whole process group when a
  timeout alarm goes off; a command cut short is reported with status
  128 + SIGALRM.
- **runlock** runs a command only while it holds an exclusive `fcntl`
  lock on a lock file, and gives up when the lock cannot be taken within a
  few seconds.
- **runstat** runs a command, then records its exit status, timestamps,
  elapsed time and resource usage as CSV lines in a statistics file and,
  optionally, as `PUTVAL` lines for collectd.

All three rely on the supervisor in `subprocess.c`: fork, detach the child
into its own session and `execvp` the command, install a termination handler
that takes the child's process group down with the parent, wait for the
child while retrying interrupted `waitpid` calls, and decode the wait status
with the shell convention (exit code, or 128 plus the signal). `tempdir.c`
supplies the per-user directory `/tmp/cronutils-<user>` and checks it
before trusting it.

System calls are not executed: their results are inputs. Asynchronous
signal delivery is modelled at the points where it changes the outcome.
The process-wide state is a Dafny class, `Subprocess.Process`: the
globals of `subprocess.c` plus errno, the signal dispositions and a log of
observable steps (fork, setsid, exec, the kill flag write, killpg, alarm,
sigaction, waitpid, the lock file operations). Each program's own globals
are a class around that process: `RunLock.LockTool` and
`RunAlarm.AlarmTool`. runstat's `main` keeps its state in locals: three
`char[PATH_MAX]` buffers (`RunStat.PathBuffer`, over an `array<char>`) and
the linked list of variables (`RunStat.Node`, `RunStat.VarList`).

Every method is proved against a specification function. `Execute` is
each program's `main`; its result and its step log are given by
`RunLock.LockOutcome`/`LockSteps`, `RunAlarm.AlarmOutcome`/`AlarmSteps`
and `RunStat.StatEnding`. Lemmas then state what the programs promise in
terms of those functions.

Files: `posix.dfy` (exit codes, signal and errno numbers, dispositions,
the step log, outcomes), `clib.dfy` (`strtol`, `%d`, POSIX `basename`),
`subprocess.dfy`, `tempdir.dfy`, `runlock.dfy`, `runalarm.dfy`,
`runstat.dfy`.

## Model

| member | source | states |
|---|---|---|
| CLib.StrToL | runlock.c:97 | strtol in base 10: the end lies within the text, the value within LONG_MIN..LONG_MAX, nothing consumed means the value 0, and a non-zero end stops just past a digit and before any further digit (the value itself is stated by StrToLPrefix and StrToLNoDigits) |
| CLib.StrToLPrefix | runlock.c:97 | for any input made of white space, an optional sign, a non-empty digit run and a rest that does not start with a digit, strtol returns the signed value of the digits, saturated at LONG_MIN/LONG_MAX, and ends just past the digits |
| CLib.StrToLNoDigits | runlock.c:97 | when white space and an optional sign are not followed by a digit, strtol returns 0 and reports that nothing was consumed |
| CLib.CInt | runalarm.c:76 | storing a long in an int: unchanged in range, otherwise congruent modulo 2^32 within the int range |
| CLib.ParseSeconds | runalarm.c:76-80 | a -t value is accepted exactly when strtol consumes all of it, otherwise the program exits EX_DATAERR; an accepted value is strtol's long stored in an int, so it lies in the int range |
| CLib.StrToLDecimal | runlock.c:97 | strtol reads the decimal text of any n up to LONG_MAX back as n and consumes all of it |
| CLib.DecimalValue | runlock.c:162 | the digits `%d` prints for n have the value n |
| CLib.ParseSecondsDecimal | runalarm.c:76-80 | the decimal text of n up to INT_MAX is accepted as n seconds |
| CLib.ParseSecondsRejectsSuffix | runalarm.c:77-80 | a number followed by any other character is rejected with EX_DATAERR |
| CLib.ParseSecondsEmpty | runalarm.c:76-77 | an empty -t argument is accepted as 0 seconds, because strtol stops at the terminator, which is the end of the argument |
| CLib.FormatInt | runlock.c:162 | `%d` yields a non-empty text of digits, with at most a leading minus sign and no NUL |
| CLib.Basename | runlock.c:123 | POSIX basename: "." for an empty path, "/" for slashes only, otherwise the last component of the path once its trailing slashes are removed, which holds no slash; a non-empty name without slashes is returned unchanged |
| CLib.BasenameJoin | runlock.c:122-123 | the basename of "<dir>/<name>" is name, for any non-empty name without a slash |
| CLib.BasenameResidue | runlock.c:123 | what glibc's basename leaves of its argument has the same basename, and is either the argument or a shorter prefix of it followed only by slashes |
| CLib.ResidueDropsSlashes | runlock.c:123 | a name that does not end in a slash, followed by any number of slashes, is left as exactly the name |
| Tempdir.TempdirPath | tempdir.c:46 | the directory is "/tmp/cronutils-" followed by the user name, and contains no NUL |
| Tempdir.TempdirPathInjective | tempdir.c:46 | different users get different directories |
| Tempdir.OwnerAccessIffSomeOwnerBit | tempdir.c:65 | the permission test passes exactly when one of the owner's read, write and execute bits is set |
| Tempdir.OwnerAccessIgnoresGroupAndOther | tempdir.c:65 | two modes with the same owner bits pass or fail the test together |
| Tempdir.CheckExisting | tempdir.c:52-69 | an existing path is trusted exactly when stat succeeds and shows a directory owned by the effective uid with an owner bit set; otherwise the first failed check decides: EX_OSERR, EX_IOERR, EXIT_FAILURE |
| Tempdir.TempdirOutcome | tempdir.c:41-75 | no passwd entry gives EX_OSERR; a created directory is returned; mkdir failing other than with EEXIST gives EX_OSERR; with EEXIST the path is returned exactly when the checks pass; every exit code is EX_OSERR, EX_IOERR or EXIT_FAILURE |
| Tempdir.MakeTempdir | tempdir.c:36-76 | the early-exit chain yields TempdirOutcome |
| Subprocess.InstallTermination | subprocess.c:65-80 | SIGINT, SIGHUP and SIGTERM get the termination handler with the four-signal mask unless they are ignored; ignored signals stay ignored and every other signal keeps its action |
| Subprocess.InstallTerminationIdempotent | subprocess.c:74-79 | installing the handler twice leaves the same actions as installing it once |
| Subprocess.KillSteps | subprocess.c:33-42 | killed_by_us is set before the group is looked up and killpg sends SIGTERM last |
| Subprocess.TerminationStepsShape | subprocess.c:45-62 | a re-entered handler raises the signal first; the group is killed exactly when a child exists; unless the kill fails, the handler ends by resetting the signal to its default and raising it again; a failed kill ends the process at the killpg |
| Subprocess.StatusOfShellCode | subprocess.c:136-145 | a shell code in 0..255 reads back as a status with that code; codes below 128 are exactly the normal exits below 128 |
| Subprocess.ShellStatusRoundTrip | subprocess.c:136-145 | decoding the shell code of an exit code below 128, or of a death by signal 1 to 127, gives the status back |
| Subprocess.ShellStatusInjective | subprocess.c:136-145 | two statuses, each an exit code below 128 or a death by signal 1 to 127, with the same shell code are equal |
| Subprocess.ShellStatusRoundTripIff | subprocess.c:136-145 | over every status waitpid can report (exit code 0 to 255, signal 1 to 127), the shell code reads back as the status exactly when it is not an exit code of 128 or more |
| Subprocess.ShellStatusCollision | subprocess.c:136-145 | an exit with code 128 + s and a death by signal s (1 to 127) are different statuses waitpid can report with the same shell code |
| Subprocess.WaitEnd | subprocess.c:118-126 | the loop stops at the first attempt where waitpid returns a pid, fails with EINTR while killed_by_us is set, or is interrupted by the termination handler; every earlier attempt keeps it going |
| Subprocess.WaitEndFirst | subprocess.c:118-126 | any index with those two properties is the one WaitEnd finds |
| Subprocess.ReapPrefix | subprocess.c:118-147 | a wait loop that stops within the first m attempts stops at the same call, and run_subprocess ends the same way, whatever the later attempts are |
| Subprocess.CaughtAfterInstall | subprocess.c:65-80 | once the handlers are installed, every interrupting signal has termination_handler exactly when it is SIGINT, SIGHUP or SIGTERM and was not inherited ignored |
| Subprocess.CaughtIgnoresOtherSignal | subprocess.c:74-79 | changing the action of a signal other than SIGINT, SIGHUP and SIGTERM (SIGALRM in runlock and runalarm) does not change which signals can interrupt the wait |
| Subprocess.WaitSkipsRetries | subprocess.c:119-125 | failures other than an interrupted call after the kill never end the loop |
| Subprocess.WaitCalls | subprocess.c:118-126 | the waitpid loop stops at WaitEnd and makes one call per attempt up to and including the one that ended it |
| Subprocess.ReapOutcome | subprocess.c:45-149 | keyed on the attempt n at which the loop stopped: none means still waiting; pid 0 or a failed call leave the status unspecified; a foreign pid exits EX_OSERR; the child's own pid returns the shell code of its status; a termination signal kills the process with that signal, or exits EX_OSERR when the group kill fails with a child present; a returned status always comes from a status waitpid reported for the child's pid |
| Subprocess.ForkBranch | subprocess.c:87-108 | the parent waits exactly when fork returned a pid; fork failure exits EX_OSERR; a child whose setsid fails returns -1; an execvp returning non-zero exits EX_NOINPUT and one returning 0 exits EX_UNAVAILABLE; a successful one replaces the process |
| Subprocess.RunOutcome | subprocess.c:82-150 | combines the fork branches with the wait: only a parent can be left waiting or return an unspecified status, and fork failure always exits EX_OSERR |
| Subprocess.Process.constructor | subprocess.c:29-31 | childpid starts at -1 and both flags clear |
| Subprocess.Process.KillProcessGroup | subprocess.c:33-42 | sets killed_by_us, logs the lookup and the kill, and exits EX_OSERR when killpg fails |
| Subprocess.Process.HandleTermination | subprocess.c:45-62 | marks the fatal error in progress, kills the group when a child exists and keeps errno, resets the signal to its default, and logs TerminationSteps |
| Subprocess.Process.KillGroupOfChild | subprocess.c:53-58 | the handler kills the group only when childpid is positive, and keeps errno unless the kill fails |
| Subprocess.Process.InstallTerminationHandler | subprocess.c:65-80 | the actions become InstallTermination of the old ones; nothing else changes |
| Subprocess.Process.InstallOne | subprocess.c:74-79 | one signal: its action is queried and replaced unless it is ignored |
| Subprocess.Process.Spawn | subprocess.c:87-115 | records fork's result in childpid, takes the fork branch, and in the parent installs the handler and runs the pre-wait hook |
| Subprocess.Process.ExecChild | subprocess.c:88-104 | the child calls setsid, then execvp when setsid succeeded, and ends as ForkBranch says for fork result 0 |
| Subprocess.Process.CallPreWait | subprocess.c:113-115 | the hook runs only when there is one; set_timeout_alarm logs alarm(timeout) |
| Subprocess.Process.Reap | subprocess.c:45-149 | the wait loop and what follows it yield ReapOutcome and ReapSteps; fatal_error_in_progress is set exactly when the termination handler ran; killed_by_us is also set by the defensive kill or the handler's group kill; errno is the ending kill's when the process exits; the signal's action is reset to the default when it kills the process; childpid returns to -1 when the routine returns; only SIGINT, SIGHUP or SIGTERM with termination_handler installed can interrupt a wait, so only they can kill the process |
| Subprocess.Process.WaitLoop | subprocess.c:118-126 | the loop over the process's own flag stops at WaitEnd, logs one waitpid per call made, and changes nothing else |
| Subprocess.Process.Ended | subprocess.c:45-147 | after the attempt that ended the loop: a returned waitpid goes on as AfterWait; an interrupted one runs the termination handler, which kills the process with the signal or exits EX_OSERR, and sets fatal_error_in_progress; only a signal the handler is installed for interrupts, so the fatal signal is SIGINT, SIGHUP or SIGTERM |
| Subprocess.Process.AfterWait | subprocess.c:127-147 | alarm(0), then a foreign pid kills the group and exits EX_OSERR, the child's pid decodes the status, and anything else leaves it unspecified |
| Subprocess.Process.RunSubprocess | subprocess.c:82-150 | run_subprocess ends as RunOutcome and logs RunSteps; the parent's signal actions become InstallTermination of the old ones, with the fatal signal reset to its default; fatal_error_in_progress is set exactly when a parent's wait was interrupted by the termination handler; childpid is the fork result, back to -1 once a parent's run returns; killed_by_us is set by the defensive kill or the handler's group kill; errno is the ending kill's when a parent exits, otherwise unchanged; the wait can be interrupted only by SIGINT, SIGHUP or SIGTERM not inherited ignored, so only they kill a parent |
| RunLock.DerivedLockPath | runlock.c:122-123 | the derived lock file is "<dir>/<basename of command>.pid": it starts with the directory and a slash, the basename sits between that slash and the ".pid" ending, and there is no further slash unless the basename is "/" |
| RunLock.LockedCommand | runlock.c:121-168 | the command runlock executes has the basename of argv[0]; with -f it is argv[0] itself; without it, argv[0] or a prefix of it with only slashes cut off, as glibc's basename leaves it |
| RunLock.TrailingSlashesDropped | runlock.c:123-168 | without -f, a command "dir/cmd/" is executed as "dir/cmd" |
| RunLock.LockPath | runlock.c:121-127 | a -f path is used verbatim; otherwise the path is derived from make_tempdir, whose exit code is passed on when it fails |
| RunLock.ClassifyLock | runlock.c:140-159 | the switch on errno: a grant means acquired; an interrupted wait with the alarm fired, EACCES or EAGAIN give EX_CANTCREAT; an interrupted wait without the alarm falls through; any other errno gives EXIT_FAILURE |
| RunLock.Prepared | runlock.c:96-127 | a bad -t exits EX_DATAERR, a missing command EXIT_FAILURE, make_tempdir's failures pass through; otherwise the lock path |
| RunLock.LockOutcome | runlock.c:121-173 | the command runs exactly when a lock path exists and the lock is granted, and then runlock ends as run_subprocess does; otherwise it exits, or returns 0 only after an interrupted wait without the alarm; an unopenable file exits EX_NOINPUT; EX_CANTCREAT exactly when the lock is refused or the wait timed out |
| RunLock.RunForksOnce | subprocess.c:87-149 | run_subprocess forks exactly once |
| RunLock.HeldForksOnceIffLocked | runlock.c:140-170 | after the lock request the process forks once if the lock was granted and never otherwise |
| RunLock.CommandRunsOnceIffLocked | runlock.c:121-170 | over the whole program, the command is started once when it runs and never otherwise, and it only runs when fcntl granted the lock |
| RunLock.LockTool.constructor | runlock.c:35-36 | no lock file name and the expired flag clear |
| RunLock.LockTool.AlarmHandler | runlock.c:56-59 | the handler only sets timeout_expired |
| RunLock.LockTool.ParseArgs | runlock.c:75-106 | the lock request is a whole-file write lock from offset 0; -f sets the lock file name; a bad -t exits EX_DATAERR and a missing command EXIT_FAILURE; otherwise -t sets the wait bound |
| RunLock.LockTool.AcquireLock | runlock.c:130-140 | installs the alarm handler, arms the alarm, opens the file and waits for the lock, then classifies the result |
| RunLock.LockTool.RunLocked | runlock.c:160-169 | with the lock held: alarm(0), the old SIGALRM action restored, the pid written and synced, the command run, the file closed when the run returns; restoring SIGALRM leaves the signals that can interrupt the wait unchanged |
| RunLock.LockTool.Prepare | runlock.c:75-127 | option parsing, the command check and the lock path yield Prepared; the command left in main's copy is LockedCommand |
| RunLock.LockTool.LockAndRun | runlock.c:130-171 | from arming the alarm to closing the file the program ends as LockedOutcome |
| RunLock.LockTool.Finish | runlock.c:140-171 | the decision after the lock request ends as LockedOutcome |
| RunLock.LockTool.Execute | runlock.c:61-174 | runlock's main ends as LockOutcome and logs LockSteps; the lock request is the whole-file write lock; timeout_expired is set exactly when the alarm went off during the lock wait |
| RunAlarm.Prepared | runalarm.c:69-95 | the timeout is one day unless -t is given; a -t value strtol does not fully consume exits EX_DATAERR; a missing command exits EXIT_FAILURE |
| RunAlarm.WaitPhase | runalarm.c:43-51 | with no alarm the wait ends as in run_subprocess; with the alarm after m attempts it fires exactly when none of those m attempts ended the loop, otherwise the wait ends as run_subprocess does on those attempts; once it fired, a failed group kill exits EX_OSERR and a sent one leaves the wait to go on over the later attempts with killed_by_us set |
| RunAlarm.FinalStatus | runalarm.c:110-115 | after the alarm fired, a status the run returned is replaced by 128 + SIGALRM; otherwise nothing changes |
| RunAlarm.AlarmOutcome | runalarm.c:57-118 | a rejected command line exits with its code; when the alarm does not fire (absent, or arriving after the wait has ended) runalarm ends as run_subprocess does; after the alarm a returned status becomes 128 + SIGALRM; the alarm can only fire in a parent that forked |
| RunAlarm.NoAlarmKeepsStatus | runalarm.c:109-117 | when the alarm does not fire, a child reaped after failed waits gives the shell code of its own status |
| RunAlarm.AlarmBeforeWait | runalarm.c:111-115 | an alarm before the first wait, once the killed child is reaped, gives 128 + SIGALRM even when the child exited 0 |
| RunAlarm.AlarmArmedAfterFork | runalarm.c:53-55 | the alarm is set only in a parent, after fork and after the handler is installed, as the last step before waiting |
| RunAlarm.AlarmTool.constructor | runalarm.c:28-29 | the timeout starts at one day and the triggered flag clear |
| RunAlarm.AlarmTool.AlarmHandler | runalarm.c:43-51 | sets alarm_triggered, kills the group and keeps errno, or exits EX_OSERR when the kill fails |
| RunAlarm.AlarmTool.Prepare | runalarm.c:69-95 | option parsing and the command check yield Prepared and set the timeout |
| RunAlarm.AlarmTool.WaitWithAlarm | runalarm.c:43-55 | the wait loop with the alarm handler run at the modelled arrival ends as WaitPhase |
| RunAlarm.AlarmTool.Run | runalarm.c:109 | run_subprocess with set_timeout_alarm as the pre-wait hook ends as RunPhase |
| RunAlarm.AlarmTool.Execute | runalarm.c:57-118 | runalarm's main ends as AlarmOutcome and logs AlarmSteps; alarm_triggered ends set exactly when the alarm fired |
| RunStat.PathBuffer.constructor | runstat.c:94-96 | a buffer starts empty |
| RunStat.PathBuffer.StrnCat | runstat.c:114-115 | strncat appends at most n characters of the source and keeps the buffer NUL-terminated |
| RunStat.PathBuffer.Append | runstat.c:157-166 | an append bounded by the room left keeps what fits of the concatenation in PATH_MAX - 1 characters |
| RunStat.StatsPath | runstat.c:157-167 | the default path is at most PATH_MAX - 1 characters |
| RunStat.StatsPathFits | runstat.c:157-167 | when it fits, the default path is "<tempdir>/<command>.stat" with the full command, not its basename |
| RunStat.TempPath | runstat.c:170-171 | the mkstemp template is at most PATH_MAX - 1 characters |
| RunStat.TempPathKeepsTemplate | runstat.c:170-177 | with room for the suffix the template is the statistics path plus ".XXXXXX" and ends in six 'X' |
| RunStat.TempPathLosesTemplate | runstat.c:170-177 | a statistics path of PATH_MAX - 1 characters leaves the template equal to the path, without the suffix |
| RunStat.MakeVariable | runstat.c:80-86 | a variable keeps its name, kind and units (a NULL units stays NULL); its value is the formatted text cut to 1023 characters |
| RunStat.Push | runstat.c:75-88 | add_variable puts the new variable in front: one longer, and the old list unchanged behind it |
| RunStat.Node.constructor | runstat.c:75-87 | a node links a variable to the rest of the list |
| RunStat.VarList.constructor | runstat.c:107 | the list starts empty |
| RunStat.VarList.Add | runstat.c:69-89 | the new node becomes the head and its next is the old head; the contents become Push of the old ones |
| RunStat.CsvLine | runstat.c:238-244 | a CSV line is at most 1023 characters |
| RunStat.CsvLines | runstat.c:237-245 | one CSV line per variable, in list order |
| RunStat.CsvLineFields | runstat.c:238-243 | a line that fits ends in a newline and, split on commas, reads back as command, name, value and units, with empty units for NULL, when no field holds a comma |
| RunStat.WriteCsv | runstat.c:237-245 | the loop from the head yields CsvLines of the list |
| RunStat.CollectdType | runstat.c:278-288 | GAUGE maps to "gauge" and ABSOLUTE to "counter", both directions, and the type fits its buffer |
| RunStat.PutvalLine | runstat.c:289-294 | a PUTVAL line starts with `PUTVAL "` and ends with a newline |
| RunStat.IdentifierInjective | runstat.c:289-294 | within one run, two variables with the same identifier have the same kind and name |
| RunStat.IdentifierFields | runstat.c:289-292 | the identifier splits on '/' into the host, "runstat-<basename of command>" and "<type>-<name>", when host and name hold no slash and the basename is not "/" |
| RunStat.PutvalLineFields | runstat.c:289-294 | without its newline, a PUTVAL line splits on '"' into the command word, the identifier and " <end time>:<value>", which splits on ':' into the end time and the value, when the identifier and the value hold no quote and the value no colon |
| RunStat.PutvalLines | runstat.c:277-297 | one PUTVAL line per variable, in list order |
| RunStat.SendPutval | runstat.c:277-297 | the loop from the head yields PutvalLines of the list |
| RunStat.ElapsedAsWritten | runstat.c:191-192 | the field-wise difference has the right total number of nanoseconds |
| RunStat.ElapsedBorrowMissing | runstat.c:191-195 | readings 0.2 s apart across a second boundary give 1 s and -800000000 ns, which is not a normalised time |
| RunStat.Elapsed | runstat.c:191-195 | the corrected difference, with the borrow: the same total nanoseconds, normalised for normalised readings, and equal to the field-wise difference when no borrow is needed |
| RunStat.NormalizedUnique | runstat.c:191-192 | a duration has one normalised form |
| RunStat.CollectVariables | runstat.c:180-234 | the list holds exit_status, the two timestamps and the elapsed time as runstat.c computes it (ElapsedAsWritten, no borrow), then the sixteen getrusage variables when getrusage succeeds |
| RunStat.RusageVariablesShape | runstat.c:198-234 | the getrusage block adds sixteen variables in front and ctx_switch-involuntary ends up at the head |
| RunStat.BaseVariablesShape | runstat.c:180-195 | the fixed block has four variables, exit_status oldest, and at the head elapsed_time in seconds formatted from the field-wise difference of the two readings |
| RunStat.StatusListedLast | runstat.c:180-245 | the list has 4 or 20 variables; exit_status, added first, is the last one and gives the last CSV line |
| RunStat.OptionText | runstat.c:113-123 | an option value is copied whole when it fits in PATH_MAX - 1 characters; no option leaves the buffer empty |
| RunStat.StatsFileFor | runstat.c:157-167 | a non-empty -f value is the statistics path; otherwise the default path in the per-user directory, or make_tempdir's exit code |
| RunStat.StatEnding | runstat.c:132-302 | no command exits EXIT_FAILURE; a run that does not return ends runstat the same way; a status runstat returns is the run's own; CSV lines exist only after mkstemp got a valid template; PUTVAL lines only after the rename, with a socket name and a connection, one per CSV line |
| RunStat.Recorded | runstat.c:157-302 | after a returned run, runstat either returns that status or exits; CSV lines only after mkstemp got a valid template; PUTVAL lines only after the rename, with a socket name and a connection, one per CSV line |
| RunStat.Record | runstat.c:157-302 | the steps after the run yield Recorded |
| RunStat.StatusPassesThrough | runstat.c:151-302 | when everything after the run succeeds, runstat returns the command's status and the last CSV line reports it |
| RunStat.LongStatsPathFails | runstat.c:170-177 | a statistics path that fills the buffer and does not end in six 'X' makes runstat exit EX_OSERR after the run |
| RunStat.AppendsClip | runstat.c:157-166 | four bounded appends keep what fits of the whole default path |
| RunStat.DefaultStatsPath | runstat.c:157-167 | the four appends leave StatsPath in the buffer |
| RunStat.CopyOption | runstat.c:113-123 | an option copied into a fresh buffer holds OptionText |
| RunStat.TempTemplate | runstat.c:170-171 | the template buffer holds TempPath of the statistics path |
| RunStat.StatsFile | runstat.c:157-167 | the statistics path buffer holds StatsFileFor, or make_tempdir's exit code is returned |
| RunStat.Execute | runstat.c:91-303 | runstat's main ends and reports as StatEnding and logs run_subprocess's steps; fatal_error_in_progress ends set exactly when the termination handler interrupted the wait |

## Left out

- Kernel behaviour of system calls: fork, setsid, execvp, waitpid, getpgid, killpg, alarm, sigaction, raise, open, fcntl, write, fsync, close, mkstemp, rename, socket and connect are not executed; their results are inputs.
- Asynchronous signals arrive only at modelled points: SIGINT, SIGHUP or SIGTERM while waitpid blocks, only when termination_handler is installed for it, as the wait methods require of every interrupted attempt (the handler runs and the process dies of the signal, or exits EX_OSERR when the group kill fails), runlock's SIGALRM during the lock wait, and runalarm's SIGALRM between waitpid calls. A signal at any other moment, and arbitrary interleavings, are concurrency and are not covered.
- Mutual exclusion between two processes holding the same lock belongs to the kernel's lock table and is not modelled; only what one process does with fcntl's answer is.
- The bit encoding of wait statuses (WIFEXITED, WEXITSTATUS, WTERMSIG) is replaced by an Exited/Signaled datatype.
- The status run_subprocess returns when the wait loop stops without reaping, or with pid 0, is uninitialised in the source; the model reports it as unspecified. runstat's exit_status line then prints an input value standing for whatever the variable held.
- Logging (syslog, openlog, setlogmask, perror), usage text, -h and -d, and the getopt loop: each program starts from its option values already collected. A repeated -f or -C in runstat is therefore not covered.
- Numeric formatting: the wall-clock timestamps, the getrusage values and the elapsed time reach the model as already formatted text; `%d` of a status or pid is modelled.
- Allocation failures (malloc, asprintf, strdup) that exit EX_OSERR are not modelled.
- The subprocess.h header holds only prototypes and is not part of this model.
- The trailing-slash truncation of the command without -f (RunLock.LockedCommand) is glibc's basename; other C libraries may leave the argument unchanged.
- SIGQUIT appears only in the termination handler's mask; no delivery of it is modelled, and no interrupted attempt can carry it.
- runalarm ends with exit(status); the model reports that as returning the status.
- The host name's truncation to HOST_NAME_MAX, the socket path's truncation to the sun_path size, and the recv after each PUTVAL line are not modelled; the connection's success is an input.
- The name mkstemp chooses, and the file contents renamed into place, are not modelled; the CSV lines written are.
- Integer widths: elapsed seconds and statuses are unbounded integers; only the -t conversion models long and int ranges.

## Findings

| source | as written | input that shows it | evidently intended | confidence | as-written member | corrected member |
|---|---|---|---|---|---|---|
| runstat.c:191-192 | seconds and nanoseconds are subtracted separately, with no borrow | start 0 s + 900000000 ns, end 1 s + 100000000 ns: 1 s and -800000000 ns, printed "1.-800000000" | 0 s and 200000000 ns, printed "0.200000000" | not executed | RunStat.ElapsedBorrowMissing | RunStat.Elapsed |

The collected elapsed_time variable keeps the value as runstat.c computes it (RunStat.ElapsedAsWritten); RunStat.Elapsed is the corrected definition, with its normalisation proved.
