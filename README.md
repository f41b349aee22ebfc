# qutebrowser utility commands: the `:debug-profile` state machine, `:later` and `:repeat`

This Dafny project models the part of qutebrowser's `qutebrowser/misc/utilcmds.py`
that has state and preconditions worth stating. The rest of that file is thin
call-throughs to the GUI, the message bus and the log.

- **`:debug-profile <cmd> [arg]`** (`Profiler.debug_profile`, `Profiler._show_snakeviz`,
  `Profiler.cleanup_proc`). Two handles are kept: the application's profiling
  session (`app.profile`: absent, or a `cProfile.Profile` that is sampling or
  paused) and the handle of a SnakeViz visualiser process (`Profiler._proc`). The
  command dispatches on a string tag: `start`, `stop`, `reset`, `dump`, `show`,
  `kill`, or anything else.
  - `Profiling.Profiler` is a class whose fields are those two handles. It has a
    third field, a count of the sessions created so far. That count stands for
    object identity: each new session gets the next number as its `id`.
  - Its methods mirror the source branch by branch. Each is proved against a
    specification function: `Dispatch`, `ShowSpec` or `CleanupSpec`.
  - `Run` folds `Dispatch` over a series of invocations. `ProfilingProperties`
    proves what the command promises, both for one invocation and for series of
    them.
- **`:repeat times command`**: `UtilCmds.Repeat` checks the count, then loops. Each
  pass calls `CommandRunner.RunSafely`. The runner (`Runners.CommandRunner`) records
  the command strings it is given in a ghost trace.
- **`:later ms command`**: `UtilCmds.Later` checks the delay, then sets up a
  `UtilCmds.Timer` step by step. The steps are: make it single-shot, set the
  interval (this can overflow), connect `run_safely(command)` and `deleteLater` to
  `timeout`, and start it. On the overflow path the timer is disposed of.

Modelling choices:
- Things the commands read from their surroundings are passed in as ordinary
  parameters: whether `snakeviz` can be imported and whether the program is
  frozen (`Profiling.Env`), the window id, and the command runner.
- The timer's interval limit is `UtilCmds.MaxInterval = 2^31 - 1`. `later`
  depends on `qutebrowser/utils/usertypes.py` for this limit, and that file is
  not part of this model. The value is the range of the C `int` that Qt's
  interval is converted to.

Consequences of the code's order of checks, and one departure from it:
- `_show_snakeviz` has its own "No profile recorded!" check (lines 252-253).
  But the guard at lines 289-290 runs first for every tag except `start`.
  So through `:debug-profile` that error is never reported
  (`NoProfileErrorUnreachable`); `show` without a session fails with
  "Profiling was never started!".
- The same guard means that after a `reset`, `kill` fails with "Profiling was
  never started!", even while a visualiser is running (`RunWithoutStartIsInert`).
- Writing the statistics out (`dump_stats`, at line 303 for `dump` and line
  264 for `show`) disables the profiler. So a successful `dump` or `show`
  leaves the session paused (`DumpPausesSession`, `ShowErrorOrder`).
- Line 311 evidently means to raise a command error naming the unknown tag, but
  as written it crashes (see Findings). `Dispatch`, which the profiler class is
  proved against, models the intended error. `DispatchAsWritten` models the
  line as written, and `AsWrittenAgreesElsewhere` proves that this is the only
  place the two differ.

## Model

| member | source | states |
|---|---|---|
| `Profiling.Profiler.constructor` | qutebrowser/misc/utilcmds.py:207-210 | a new profiler holds no process handle; the session is assumed absent at start |
| `Profiling.Profiler.DebugProfile` | qutebrowser/misc/utilcmds.py:272-311 | the new state and the outcome are exactly those of the transition `Dispatch` gives for the old state and the invocation (line 311 with its intended command error) |
| `Profiling.Profiler.ShowSnakeviz` | qutebrowser/misc/utilcmds.py:243-264 | the new state and the outcome are those of `ShowSpec`: three checks in order, then the process handle is set, then the dump pauses sampling |
| `Profiling.Profiler.CleanupProc` | qutebrowser/misc/utilcmds.py:238-241 | the process handle is cleared and nothing else changes; a handle must exist, because the source calls `terminate` on it |
| `Profiling.Run` | qutebrowser/misc/utilcmds.py:272-311 | a series of invocations gives exactly one outcome per invocation |
| `ProfilingProperties.NoSessionFailsUnlessStart` | qutebrowser/misc/utilcmds.py:289-290 | with no session, every tag except `start` (including `kill` and unknown tags) fails with "Profiling was never started!" and leaves the state unchanged |
| `ProfilingProperties.StartEnablesSession` | qutebrowser/misc/utilcmds.py:292-295 | `start` succeeds and leaves a sampling session; it creates a fresh session only when none exists, and otherwise keeps the same session id; the process handle is untouched |
| `ProfilingProperties.StartTwiceIsStart` | qutebrowser/misc/utilcmds.py:292-295 | a second `start` changes nothing, so the session identity is kept |
| `ProfilingProperties.StopAndReset` | qutebrowser/misc/utilcmds.py:296-299 | `stop` pauses the same session; `reset` discards the session; neither touches the process handle |
| `ProfilingProperties.DumpPausesSession` | qutebrowser/misc/utilcmds.py:300-303 | `dump` fails with "No filename given!" exactly when no file name is given, and then changes nothing; a successful dump pauses sampling of the same session and leaves the process handle and the session count alone |
| `ProfilingProperties.KillReleasesProcess` | qutebrowser/misc/utilcmds.py:306-309 | with a session, `kill` fails with "No process running!" exactly when there is no handle; the handle is absent afterwards and the session is kept |
| `ProfilingProperties.ShowErrorOrder` | qutebrowser/misc/utilcmds.py:245-264 | `show` checks in this order: SnakeViz missing, then frozen, then no profile; it succeeds exactly when all three pass; a failure changes nothing; a success sets the handle, overwriting any earlier one, and keeps the same session, paused by the dump at line 264 |
| `ProfilingProperties.NoProfileErrorUnreachable` | qutebrowser/misc/utilcmds.py:252-253 | no invocation of `:debug-profile` reports "No profile recorded!", because the check at lines 289-290 runs first |
| `ProfilingProperties.UnknownTagFails` | qutebrowser/misc/utilcmds.py:310-311 | with a session, an unrecognised tag fails with a command error naming that tag, and the state is unchanged (this is the intended behaviour) |
| `ProfilingProperties.AsWrittenCrashesOnUnknownTag` | qutebrowser/misc/utilcmds.py:310-311 | with a session, the code as written (`DispatchAsWritten`) answers every unrecognised tag with an AttributeError crash and no state change, where the intended dispatch gives a command error naming the tag |
| `ProfilingProperties.AsWrittenAgreesElsewhere` | qutebrowser/misc/utilcmds.py:289-311 | with no session, or for any of the six known tags, the code as written and the intended dispatch give the same state and outcome |
| `ProfilingProperties.ResetThenStartIsFresh` | qutebrowser/misc/utilcmds.py:292-299 | after `reset`, a `start` creates a session different from the one that was discarded |
| `ProfilingProperties.ShowKillKill` | qutebrowser/misc/utilcmds.py:304-309 | after a successful `show`, `kill` succeeds, and a second `kill` fails with "No process running!" |
| `ProfilingProperties.RunWithoutStartIsInert` | qutebrowser/misc/utilcmds.py:289-290 | starting with no session, any series of invocations without `start` changes nothing, and each invocation fails with "Profiling was never started!" |
| `ProfilingProperties.RunWithoutResetKeepsSession` | qutebrowser/misc/utilcmds.py:292-311 | the session stays the same one (same id) through any series of invocations that has no `reset` |
| `ProfilingProperties.RunWithoutShowSpawnsNothing` | qutebrowser/misc/utilcmds.py:304-309 | only `show` ever acquires a process handle |
| `ProfilingProperties.RunPreservesValid` | qutebrowser/misc/utilcmds.py:292-295 | every invocation keeps any live session among those already created, and the count of created sessions never goes down |
| `ProfilingProperties.RunAppend` | qutebrowser/misc/utilcmds.py:272-311 | running two series one after the other is the same as running them joined, for both the final state and the outcomes |
| `ProfilingProperties.ReachableIsValid` | qutebrowser/misc/utilcmds.py:207-210 | every state reachable from a new profiler is consistent |
| `Runners.CommandRunner.RunSafely` | qutebrowser/misc/utilcmds.py:94 | each call adds exactly its command string to the runner's trace |
| `Runners.RepetitionsAreCopies` | qutebrowser/misc/utilcmds.py:93-94 | `n` runs of a command leave exactly `n` trace entries, each of them that command |
| `Runners.RepetitionsAdd` | qutebrowser/misc/utilcmds.py:93-94 | `m` runs followed by `n` runs are `m + n` runs |
| `UtilCmds.Repeat` | qutebrowser/misc/utilcmds.py:83-94 | a negative count is rejected with "A negative count doesn't make sense." and the runner is never called; otherwise the command is run exactly `times` times, in order, after whatever the runner had already run; `times = 0` adds nothing |
| `UtilCmds.RepeatTraceShape` | qutebrowser/misc/utilcmds.py:90-94 | after a successful `repeat`, the earlier trace is unchanged and exactly `times` new entries follow it, all the same command |
| `UtilCmds.CheckDelay` | qutebrowser/misc/utilcmds.py:61-72 | a delay is accepted exactly when it is between 0 and the largest interval the timer can hold; a negative delay is reported first, as "I can't run something in the past!"; a delay that is too large is reported as the numeric overflow error |
| `UtilCmds.Timer.SetInterval` | qutebrowser/misc/utilcmds.py:69-70 | setting the interval overflows exactly when it is above `MaxInterval`, and an overflow leaves the timer unchanged |
| `UtilCmds.Later` | qutebrowser/misc/utilcmds.py:54-79 | the outcome is `CheckDelay(ms)`; a negative delay creates no timer; an accepted delay gives a fresh single-shot, started timer with that interval, whose `timeout` runs the command and then disposes of the timer, so exactly that one command is pending; a delay too large for the timer gives a timer that is disposed of without being started or connected |
| `UtilCmds.LaterPendsOneCommand` | qutebrowser/misc/utilcmds.py:73-75 | a timer armed by `later` has exactly one command pending, the one it was given |

## Left out

- Profiling itself is not modelled: `cProfile.Profile`, `enable`/`disable` and `dump_stats`. The session is reduced to its identity and an "enabled" flag. Of `enable`, `disable` and `dump_stats`, only their effect on that flag is kept; `dump_stats` disables sampling before it writes. Writing the dump file is file I/O. So `dump` with a file name is modelled as a success that pauses the session (`Dumped`) and changes nothing else.
- The port probe (`_get_port`, a socket), the `GUIProcess` spawn, and the tab opened 500 ms later in `show` are not modelled. Only the change of the process handle is kept.
- `Profiling.Profiler.constructor`: creating the temporary directory and writing the launcher script (lines 211-228) is filesystem I/O and is not modelled. The application's `profile` attribute lives in the application object, which is not part of this model. It is assumed to be absent when the profiler is created.
- `Profiling.Profiler.ShowSnakeviz`: the process handle is a flag. A `show` that overwrites a live handle leaves the earlier process running but untracked, and this model does not follow such untracked processes. The same goes for their completion callbacks, which would call `cleanup_proc` on whatever handle is current at that moment.
- `Profiling.Profiler.CleanupProc`: calling `cleanup_proc` with no handle raises AttributeError in the source. The model requires a handle instead.
- When `later`'s timer fires, and how it then disposes of itself, is event-loop timing and is not modelled. Only the timer's set-up and its connected slots are.
- `later` and `repeat`: parsing and executing the command string is the command runner's job, and the runner is not part of this model. `run_safely` is modelled as recording the command string.
- `init`/`objreg` registration, `message_error`/`message_info`/`message_warning`, `debug_console`, `debug_all_objects` and `debug_cache_stats` are not modelled. They are registry lookups and call-throughs to the GUI and the log.
- `debug_crash`, `debug_trace` and `debug_pyeval` are not modelled. They crash on purpose or evaluate arbitrary Python, so nothing about them can be stated.

- `Profiling.Profiler.DebugProfile`, `Profiling.Profiler.ShowSnakeviz`, `ProfilingProperties.DumpPausesSession`, `ProfilingProperties.ShowErrorOrder`: a failed write in `dump_stats` is not modelled. The file is opened before sampling is disabled, so `dump ""` in the source raises FileNotFoundError and leaves sampling on. The model reports every `dump` with a file name as `Ok`, with sampling paused. The same applies to the dump at line 264 in `show`.
- `Profiling.Run` and the lemmas about series of invocations: the visualiser's `finished` signal is connected to `cleanup_proc` (line 259), so a process that exits clears its own handle. `Run` only chains `:debug-profile` invocations and has no event for that, so those lemmas hold only when no process exits in between. For example, `RunWithoutStartIsInert`'s "changes nothing" then does not cover the handle.
- `Profiling.Run`: one environment (`Env`) holds for the whole series. The source retries `import snakeviz` on every `show` (line 246), so SnakeViz could become available part-way through a series; `Run` does not model that. No lemma about series depends on the environment.

## Findings

| source | as written | input that shows it | evidently intended | confidence | as-written member | corrected member |
|---|---|---|---|---|---|---|
| qutebrowser/misc/utilcmds.py:311 | for an unrecognised tag, the code calls `cmdexc.commandError` (lower-case c); that name does not exist, so the call raises AttributeError | `:debug-profile restart` after `:debug-profile start` | raise `cmdexc.CommandError("Unknown sub-command restart!")`, and leave the state unchanged | not executed; the `cmdexc` module is not part of this model, but the rest of the file only ever uses `CommandError` | `ProfilingProperties.AsWrittenCrashesOnUnknownTag` | `ProfilingProperties.UnknownTagFails` |
