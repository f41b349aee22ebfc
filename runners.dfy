/** The command runner the utility commands hand their command strings to.
    Parsing and executing a command is outside this model: a runner only
    records, in a ghost trace, which command strings it was asked to run. */
module Runners {

  /** A command runner bound to one browser window. */
  class CommandRunner {
    const winId: int
    /** Every command string passed to RunSafely, oldest first. */
    ghost var trace: seq<string>

    constructor (winId: int)
      ensures this.winId == winId && trace == []
    {
      this.winId := winId;
      trace := [];
    }

    /** Runs one command string, reporting rather than propagating its
        errors, so that a caller can go on after a failing command. */
    method RunSafely(command: string)
      modifies this
      ensures trace == old(trace) + [command]
    {
      trace := trace + [command];
    }
  }

  /** The trace left by running `command` `n` times in a row. */
  function Repetitions(command: string, n: nat): seq<string>
  {
    if n == 0 then [] else Repetitions(command, n - 1) + [command]
  }

  /** Running a command `n` times records exactly `n` invocations, each of
      that same command. */
  lemma {:induction false} RepetitionsAreCopies(command: string, n: nat)
    ensures |Repetitions(command, n)| == n
    ensures forall i :: 0 <= i < n ==> Repetitions(command, n)[i] == command
  {
    if n > 0 {
      RepetitionsAreCopies(command, n - 1);
    }
  }

  /** Repetitions compose: `m` runs followed by `n` runs are `m + n` runs. */
  lemma {:induction false} RepetitionsAdd(command: string, m: nat, n: nat)
    ensures Repetitions(command, m) + Repetitions(command, n) == Repetitions(command, m + n)
  {
    if n > 0 {
      RepetitionsAdd(command, m, n - 1);
      assert Repetitions(command, m) + Repetitions(command, n)
          == (Repetitions(command, m) + Repetitions(command, n - 1)) + [command];
    }
  }
}
