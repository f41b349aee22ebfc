/** What `:debug-profile` promises, stated about its specification. */
module ProfilingProperties {
  import opened Results
  import opened Profiling

  // ---------------------------------------------------------------------
  // One invocation

  /** Without a session every tag but `start` fails with "Profiling was
      never started!" and changes nothing: `kill` and unrecognised tags
      included, and whatever the process handle is. */
  lemma NoSessionFailsUnlessStart(s: ProfilerState, c: Invocation, env: Env)
    requires s.profile.Absent? && c.cmd != "start"
    ensures Dispatch(s, c, env) == Step(s, CommandError(NeverStartedMessage))
  {
  }

  /** `start` always succeeds and leaves the session sampling. Without a
      session it creates a fresh one; with one it keeps that very session.
      The process handle is not touched. */
  lemma StartEnablesSession(s: ProfilerState, arg: Option<string>, env: Env)
    requires Valid(s)
    ensures var t := Dispatch(s, Invocation("start", arg), env);
      t.outcome == Ok && Valid(t.state) &&
      t.state.profile.Session? && t.state.profile.enabled &&
      t.state.proc == s.proc &&
      (s.profile.Session? ==> t.state.profile.id == s.profile.id && t.state.created == s.created) &&
      (s.profile.Absent? ==> t.state.profile.id == s.created && t.state.created == s.created + 1)
  {
  }

  /** A second `start` is idempotent: it neither changes the state nor
      replaces the session. */
  lemma StartTwiceIsStart(s: ProfilerState, a1: Option<string>, a2: Option<string>, env: Env)
    ensures var once := Dispatch(s, Invocation("start", a1), env);
      Dispatch(once.state, Invocation("start", a2), env) == once
  {
  }

  /** `stop` pauses sampling of the existing session; `reset` discards the
      session. Neither touches the visualiser handle. */
  lemma StopAndReset(s: ProfilerState, arg: Option<string>, env: Env)
    requires s.profile.Session?
    ensures Dispatch(s, Invocation("stop", arg), env)
         == Step(s.(profile := Session(false, s.profile.id)), Ok)
    ensures Dispatch(s, Invocation("reset", arg), env) == Step(s.(profile := Absent), Ok)
  {
  }

  /** `dump` needs a file name; without one it fails and changes nothing.
      A dump pauses sampling of the same session (writing the statistics
      disables the profiler) and touches neither the process handle nor the
      session count. */
  lemma DumpPausesSession(s: ProfilerState, arg: Option<string>, env: Env)
    requires s.profile.Session?
    ensures var t := Dispatch(s, Invocation("dump", arg), env);
      (t.outcome == Ok <==> arg.Some?) &&
      (arg.None? ==> t == Step(s, CommandError(NoFilenameMessage))) &&
      (arg.Some? ==> t.state == s.(profile := Session(false, s.profile.id)))
  {
  }

  /** `kill` with a session: fails with "No process running!" when there is
      no handle, otherwise releases it. The session is kept either way. */
  lemma KillReleasesProcess(s: ProfilerState, arg: Option<string>, env: Env)
    requires s.profile.Session?
    ensures var t := Dispatch(s, Invocation("kill", arg), env);
      !t.state.proc && t.state.profile == s.profile && t.state.created == s.created &&
      (t.outcome == Ok <==> s.proc) &&
      (!s.proc ==> t.outcome == CommandError(NoProcessMessage))
  {
  }

  /** `show` reports its errors in a fixed order: SnakeViz missing, then
      frozen, then no profile; a failing `show` changes nothing. A successful
      one holds a process handle afterwards (replacing any earlier one
      without killing it) and keeps the session, which dumping it for the
      visualiser has paused. */
  lemma ShowErrorOrder(s: ProfilerState, env: Env)
    ensures !env.snakevizFound ==> ShowSpec(s, env) == Step(s, CommandError(SnakevizMissingMessage))
    ensures env.snakevizFound && env.frozen ==> ShowSpec(s, env) == Step(s, CommandError(FrozenMessage))
    ensures env.snakevizFound && !env.frozen && s.profile.Absent? ==>
      ShowSpec(s, env) == Step(s, CommandError(NoProfileMessage))
    ensures ShowSpec(s, env).outcome == Ok <==> env.snakevizFound && !env.frozen && s.profile.Session?
    ensures ShowSpec(s, env).outcome == Ok ==>
      ShowSpec(s, env).state == ProfilerState(Session(false, s.profile.id), true, s.created)
    ensures ShowSpec(s, env).outcome != Ok ==> ShowSpec(s, env).state == s
  {
  }

  /** Through `:debug-profile`, `show` never reports "No profile recorded!":
      the missing session is caught by the check every tag but `start`
      passes first. */
  lemma NoProfileErrorUnreachable(s: ProfilerState, c: Invocation, env: Env)
    ensures Dispatch(s, c, env).outcome != CommandError(NoProfileMessage)
  {
  }

  /** An unrecognised tag, with a session present, fails and changes
      nothing. */
  lemma UnknownTagFails(s: ProfilerState, c: Invocation, env: Env)
    requires s.profile.Session?
    requires !IsSubCommand(c.cmd)
    ensures Dispatch(s, c, env) == Step(s, CommandError("Unknown sub-command " + c.cmd + "!"))
  {
  }

  /** Line 311 as written: with a session, every unrecognised tag crashes
      with AttributeError (state unchanged) where the intended dispatch
      reports a command error naming the tag. */
  lemma AsWrittenCrashesOnUnknownTag(s: ProfilerState, c: Invocation, env: Env)
    requires s.profile.Session? && !IsSubCommand(c.cmd)
    ensures DispatchAsWritten(s, c, env) == Step(s, Crash("AttributeError"))
    ensures Dispatch(s, c, env) == Step(s, CommandError("Unknown sub-command " + c.cmd + "!"))
    ensures DispatchAsWritten(s, c, env) != Dispatch(s, c, env)
  {
  }

  /** Line 311 is the only difference: on every other input the code as
      written and the intended dispatch agree. */
  lemma AsWrittenAgreesElsewhere(s: ProfilerState, c: Invocation, env: Env)
    requires s.profile.Absent? || IsSubCommand(c.cmd)
    ensures DispatchAsWritten(s, c, env) == Dispatch(s, c, env)
  {
  }

  /** After `reset`, a `start` never brings the discarded session back. */
  lemma ResetThenStartIsFresh(s: ProfilerState, a1: Option<string>, a2: Option<string>, env: Env)
    requires Valid(s) && s.profile.Session?
    ensures var r := Dispatch(s, Invocation("reset", a1), env);
      var t := Dispatch(r.state, Invocation("start", a2), env);
      t.state.profile.Session? && t.state.profile.id != s.profile.id
  {
  }

  /** After a successful `show`, `kill` succeeds, and a following `kill`
      fails again with "No process running!". */
  lemma ShowKillKill(s: ProfilerState, a: Option<string>, env: Env)
    requires s.profile.Session? && env.snakevizFound && !env.frozen
    ensures var shown := Dispatch(s, Invocation("show", a), env);
      var killed := Dispatch(shown.state, Invocation("kill", a), env);
      var again := Dispatch(killed.state, Invocation("kill", a), env);
      shown.outcome == Ok && killed.outcome == Ok &&
      again == Step(killed.state, CommandError(NoProcessMessage))
  {
  }

  // ---------------------------------------------------------------------
  // Series of invocations

  /** Invocations without `start` on a profiler with no session all fail
      with "Profiling was never started!" and leave the state as it was:
      in particular a running visualiser can no longer be killed. */
  lemma {:induction false} RunWithoutStartIsInert(s: ProfilerState, cmds: seq<Invocation>, env: Env)
    requires s.profile.Absent?
    requires forall i :: 0 <= i < |cmds| ==> cmds[i].cmd != "start"
    ensures Run(s, cmds, env).final == s
    ensures forall i :: 0 <= i < |cmds| ==> Run(s, cmds, env).outcomes[i] == CommandError(NeverStartedMessage)
    decreases |cmds|
  {
    if cmds != [] {
      RunWithoutStartIsInert(s, cmds[1..], env);
      var rest := Run(s, cmds[1..], env);
      assert Run(s, cmds, env).outcomes == [CommandError(NeverStartedMessage)] + rest.outcomes;
    }
  }

  /** As long as no `reset` comes, the session that exists stays the same
      session (it may be paused and resumed). */
  lemma {:induction false} RunWithoutResetKeepsSession(s: ProfilerState, cmds: seq<Invocation>, env: Env)
    requires s.profile.Session?
    requires forall i :: 0 <= i < |cmds| ==> cmds[i].cmd != "reset"
    ensures Run(s, cmds, env).final.profile.Session?
    ensures Run(s, cmds, env).final.profile.id == s.profile.id
    ensures Run(s, cmds, env).final.created == s.created
    decreases |cmds|
  {
    if cmds != [] {
      RunWithoutResetKeepsSession(Dispatch(s, cmds[0], env).state, cmds[1..], env);
    }
  }

  /** Only `show` ever acquires a visualiser process handle. */
  lemma {:induction false} RunWithoutShowSpawnsNothing(s: ProfilerState, cmds: seq<Invocation>, env: Env)
    requires !s.proc
    requires forall i :: 0 <= i < |cmds| ==> cmds[i].cmd != "show"
    ensures !Run(s, cmds, env).final.proc
    decreases |cmds|
  {
    if cmds != [] {
      RunWithoutShowSpawnsNothing(Dispatch(s, cmds[0], env).state, cmds[1..], env);
    }
  }

  /** Every invocation keeps the session identities consistent: a live
      session is one that was created, and the count of created sessions
      never goes down. */
  lemma {:induction false} RunPreservesValid(s: ProfilerState, cmds: seq<Invocation>, env: Env)
    requires Valid(s)
    ensures Valid(Run(s, cmds, env).final)
    ensures Run(s, cmds, env).final.created >= s.created
    decreases |cmds|
  {
    if cmds != [] {
      RunPreservesValid(Dispatch(s, cmds[0], env).state, cmds[1..], env);
    }
  }

  /** Running one series after another is running them joined. */
  lemma {:induction false} RunAppend(s: ProfilerState, xs: seq<Invocation>, ys: seq<Invocation>, env: Env)
    ensures Run(s, xs + ys, env).final == Run(Run(s, xs, env).final, ys, env).final
    ensures Run(s, xs + ys, env).outcomes
         == Run(s, xs, env).outcomes + Run(Run(s, xs, env).final, ys, env).outcomes
    decreases |xs|
  {
    if xs != [] {
      assert (xs + ys)[0] == xs[0];
      assert (xs + ys)[1..] == xs[1..] + ys;
      RunAppend(Dispatch(s, xs[0], env).state, xs[1..], ys, env);
    } else {
      assert xs + ys == ys;
    }
  }

  /** From program start, every state any series of invocations reaches is
      consistent. */
  lemma ReachableIsValid(cmds: seq<Invocation>, env: Env)
    ensures Valid(Run(Initial, cmds, env).final)
  {
    RunPreservesValid(Initial, cmds, env);
  }
}
