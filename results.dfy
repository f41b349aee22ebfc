/** Values shared by the utility commands: optional arguments and the
    outcome a user-invoked command reports back to the command dispatcher. */
module Results {

  /** An optional value, as Python's `None`-or-value arguments. */
  datatype Option<+T> = None | Some(value: T)

  /** What a command invocation ends in.
      - Ok: the command returned normally;
      - CommandError(msg): it raised a `cmdexc.CommandError`, which the
        dispatcher shows to the user as an error message;
      - Crash(exception): it raised some other Python exception, which the
        dispatcher does not expect (a crash report). */
  datatype Outcome = Ok | CommandError(msg: string) | Crash(exception: string)
  {
    predicate Failed() { !Ok? }
  }
}
