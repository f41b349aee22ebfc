/** The `:debug-profile` command: a profiling session owned by the
    application and an optional SnakeViz visualiser process, driven by one
    sub-command tag per invocation. */
module Profiling {
  import opened Results

  const NeverStartedMessage := "Profiling was never started!"
  const NoFilenameMessage := "No filename given!"
  const NoProcessMessage := "No process running!"
  const SnakevizMissingMessage := "SnakeViz was not found!"
  const FrozenMessage := "Can't run :profile-show when frozen!"
  const NoProfileMessage := "No profile recorded!"

  /** The application's profiling session. `id` stands for the identity of
      the `cProfile.Profile` object, `enabled` for whether it is sampling. */
  datatype Profile = Absent | Session(enabled: bool, id: nat)

  /** The environment `show` consults: whether the `snakeviz` package can be
      imported, and whether the program runs frozen (`sys.frozen`). */
  datatype Env = Env(snakevizFound: bool, frozen: bool)

  /** One `:debug-profile cmd [arg]` invocation. */
  datatype Invocation = Invocation(cmd: string, arg: Option<string>)

  /** The profiler's abstract state: the session, whether a visualiser
      process handle is held, and how many sessions have been created so far
      (the next fresh session identity). */
  datatype ProfilerState = ProfilerState(profile: Profile, proc: bool, created: nat)

  /** The new state and the outcome of one invocation. */
  datatype Step = Step(state: ProfilerState, outcome: Outcome)

  /** The state the profiler is in when the program starts. */
  const Initial := ProfilerState(Absent, false, 0)

  /** Every live session was created at some earlier point. */
  predicate Valid(s: ProfilerState)
  {
    s.profile.Session? ==> s.profile.id < s.created
  }

  // ---------------------------------------------------------------------
  // Specification of each sub-command

  /** `start`: create a session if there is none, then enable it. */
  function StartSpec(s: ProfilerState): Step
  {
    var p := if s.profile.Absent? then Session(false, s.created) else s.profile;
    var created := if s.profile.Absent? then s.created + 1 else s.created;
    Step(ProfilerState(p.(enabled := true), s.proc, created), Ok)
  }

  /** The visualiser's completion callback, `cleanup_proc`: the process
      handle is released. */
  function CleanupSpec(s: ProfilerState): ProfilerState
  {
    s.(proc := false)
  }

  /** `dump_stats`: writing the profile out first disables sampling
      (`create_stats` calls `disable`); the session itself is kept. */
  function Dumped(p: Profile): Profile
    requires p.Session?
  {
    p.(enabled := false)
  }

  /** `_show_snakeviz`: three checks in a fixed order, then the visualiser
      is spawned and its handle stored, then the profile is dumped for it. */
  function ShowSpec(s: ProfilerState, env: Env): Step
  {
    if !env.snakevizFound then Step(s, CommandError(SnakevizMissingMessage))
    else if env.frozen then Step(s, CommandError(FrozenMessage))
    else if s.profile.Absent? then Step(s, CommandError(NoProfileMessage))
    else Step(ProfilerState(Dumped(s.profile), true, s.created), Ok)
  }

  /** What an unrecognised tag is meant to report: a command error naming it. */
  function UnknownSubCommand(cmd: string): Outcome
  {
    CommandError("Unknown sub-command " + cmd + "!")
  }

  /** What line 311 of the source really does with an unrecognised tag: the
      call `cmdexc.commandError` names no attribute of that module, so the
      branch raises AttributeError before any message is formatted. */
  function UnknownSubCommandAsWritten(cmd: string): Outcome
  {
    Crash("AttributeError")
  }

  /** One `:debug-profile` invocation. A missing session fails every tag
      other than `start` before the tag is looked at. */
  function Dispatch(s: ProfilerState, c: Invocation, env: Env): Step
  {
    if s.profile.Absent? && c.cmd != "start" then Step(s, CommandError(NeverStartedMessage))
    else if c.cmd == "start" then StartSpec(s)
    else if c.cmd == "stop" then Step(s.(profile := s.profile.(enabled := false)), Ok)
    else if c.cmd == "reset" then Step(s.(profile := Absent), Ok)
    else if c.cmd == "dump" then
      (if c.arg.None? then Step(s, CommandError(NoFilenameMessage))
       else Step(s.(profile := Dumped(s.profile)), Ok))
    else if c.cmd == "show" then ShowSpec(s, env)
    else if c.cmd == "kill" then
      (if !s.proc then Step(s, CommandError(NoProcessMessage)) else Step(CleanupSpec(s), Ok))
    else Step(s, UnknownSubCommand(c.cmd))
  }

  /** The six tags `:debug-profile` knows. */
  predicate IsSubCommand(cmd: string)
  {
    cmd in {"start", "stop", "reset", "dump", "show", "kill"}
  }

  /** `debug_profile` exactly as written, line 311 included: an unrecognised
      tag ends in AttributeError. The rest of the model uses `Dispatch`,
      which gives that branch its evidently intended command error. */
  function DispatchAsWritten(s: ProfilerState, c: Invocation, env: Env): Step
  {
    if s.profile.Absent? && c.cmd != "start" then Step(s, CommandError(NeverStartedMessage))
    else if c.cmd == "start" then StartSpec(s)
    else if c.cmd == "stop" then Step(s.(profile := s.profile.(enabled := false)), Ok)
    else if c.cmd == "reset" then Step(s.(profile := Absent), Ok)
    else if c.cmd == "dump" then
      (if c.arg.None? then Step(s, CommandError(NoFilenameMessage))
       else Step(s.(profile := Dumped(s.profile)), Ok))
    else if c.cmd == "show" then ShowSpec(s, env)
    else if c.cmd == "kill" then
      (if !s.proc then Step(s, CommandError(NoProcessMessage)) else Step(CleanupSpec(s), Ok))
    else Step(s, UnknownSubCommandAsWritten(c.cmd))
  }

  /** The final state and the outcomes of a series of invocations. */
  datatype Trace = Trace(final: ProfilerState, outcomes: seq<Outcome>)

  /** Runs the invocations one after the other, in a fixed environment. */
  function Run(s: ProfilerState, cmds: seq<Invocation>, env: Env): (t: Trace)
    ensures |t.outcomes| == |cmds|
    decreases |cmds|
  {
    if cmds == [] then Trace(s, [])
    else
      var first := Dispatch(s, cmds[0], env);
      var rest := Run(first.state, cmds[1..], env);
      Trace(rest.final, [first.outcome] + rest.outcomes)
  }

  // ---------------------------------------------------------------------
  // The profiler object

  /** The `Profiler` object: `profile` is the application's `profile`
      attribute, `proc` whether `_proc` holds a process. */
  class Profiler {
    var profile: Profile
    var proc: bool
    var created: nat

    function State(): ProfilerState
      reads this
    {
      ProfilerState(profile, proc, created)
    }

    constructor ()
      ensures State() == Initial
    {
      profile, proc, created := Absent, false, 0;
    }

    /** `cleanup_proc`: terminates the process and drops the handle. The
        source demands a handle (it calls `terminate` on it). */
    method CleanupProc()
      requires proc
      modifies this
      ensures State() == CleanupSpec(old(State()))
      ensures !proc
    {
      proc := false;
    }

    /** `_show_snakeviz`. */
    method ShowSnakeviz(env: Env) returns (r: Outcome)
      modifies this
      ensures Step(State(), r) == ShowSpec(old(State()), env)
    {
      if !env.snakevizFound {
        return CommandError(SnakevizMissingMessage);
      }
      if env.frozen {
        return CommandError(FrozenMessage);
      } else if profile.Absent? {
        return CommandError(NoProfileMessage);
      }
      proc := true;
      profile := Dumped(profile);
      r := Ok;
    }

    /** `debug_profile(cmd, arg)`. */
    method DebugProfile(cmd: string, arg: Option<string>, env: Env) returns (r: Outcome)
      modifies this
      ensures Step(State(), r) == Dispatch(old(State()), Invocation(cmd, arg), env)
    {
      if profile.Absent? && cmd != "start" {
        return CommandError(NeverStartedMessage);
      }
      if cmd == "start" {
        if profile.Absent? {
          profile := Session(false, created);
          created := created + 1;
        }
        profile := profile.(enabled := true);
        r := Ok;
      } else if cmd == "stop" {
        profile := profile.(enabled := false);
        r := Ok;
      } else if cmd == "reset" {
        profile := Absent;
        r := Ok;
      } else if cmd == "dump" {
        if arg.None? {
          return CommandError(NoFilenameMessage);
        }
        profile := Dumped(profile);
        r := Ok;
      } else if cmd == "show" {
        r := ShowSnakeviz(env);
      } else if cmd == "kill" {
        if !proc {
          return CommandError(NoProcessMessage);
        }
        CleanupProc();
        r := Ok;
      } else {
        r := UnknownSubCommand(cmd);
      }
    }
  }
}
