/** The two argument-checking utility commands, `:later` and `:repeat`. */
module UtilCmds {
  import opened Results
  import opened Runners

  const PastMessage := "I can't run something in the past!"
  const TooLargeMessage := "Numeric argument is too large for internal int representation."
  const NegativeCountMessage := "A negative count doesn't make sense."

  /** The largest interval, in milliseconds, a timer can hold: the interval
      is converted to a C `int`, and a larger value raises OverflowError. */
  const MaxInterval: nat := 0x7FFF_FFFF

  // ---------------------------------------------------------------------
  // :repeat

  /** `:repeat times command`: runs `command` `times` times in a row on the
      window's command runner, or rejects a negative count before running
      anything. */
  method Repeat(times: int, command: string, runner: CommandRunner) returns (r: Outcome)
    modifies runner
    ensures times < 0 ==> r == CommandError(NegativeCountMessage) && runner.trace == old(runner.trace)
    ensures times >= 0 ==> r == Ok && runner.trace == old(runner.trace) + Repetitions(command, times)
  {
    if times < 0 {
      return CommandError(NegativeCountMessage);
    }
    var i := 0;
    while i < times
      invariant 0 <= i <= times
      invariant runner.trace == old(runner.trace) + Repetitions(command, i)
    {
      runner.RunSafely(command);
      i := i + 1;
    }
    r := Ok;
  }

  /** After a successful `:repeat`, the runner saw exactly `times` new
      invocations, every one of them `command`, and nothing before them
      was disturbed. */
  lemma RepeatTraceShape(before: seq<string>, command: string, times: nat)
    ensures |before + Repetitions(command, times)| == |before| + times
    ensures (before + Repetitions(command, times))[..|before|] == before
    ensures forall i :: |before| <= i < |before| + times ==> (before + Repetitions(command, times))[i] == command
  {
    RepetitionsAreCopies(command, times);
  }

  // ---------------------------------------------------------------------
  // :later

  /** A slot connected to a timer's `timeout` signal. */
  datatype Slot =
    | RunSafely(winId: int, command: string)  // commandrunner.run_safely(command)
    | DeleteLater                             // timer.deleteLater

  /** A timer object as `:later` sets it up. Firing it is left to the event
      loop, which is outside this model. */
  class Timer {
    const name: string
    var singleShot: bool
    var interval: nat
    var started: bool
    /** deleteLater was called: the timer is disposed of by the event loop. */
    var deleteScheduled: bool
    /** The slots connected to `timeout`, in connection order. */
    var onTimeout: seq<Slot>

    constructor (name: string)
      ensures this.name == name
      ensures !singleShot && interval == 0 && !started && !deleteScheduled && onTimeout == []
    {
      this.name := name;
      singleShot, interval, started := false, 0, false;
      deleteScheduled, onTimeout := false, [];
    }

    method SetSingleShot(b: bool)
      modifies this
      ensures singleShot == b
      ensures interval == old(interval) && started == old(started)
      ensures deleteScheduled == old(deleteScheduled) && onTimeout == old(onTimeout)
    {
      singleShot := b;
    }

    /** Sets the interval, or reports an overflow (and changes nothing) when
        `ms` does not fit the timer's interval representation. */
    method SetInterval(ms: nat) returns (overflow: bool)
      modifies this
      ensures overflow <==> ms > MaxInterval
      ensures interval == if overflow then old(interval) else ms
      ensures singleShot == old(singleShot) && started == old(started)
      ensures deleteScheduled == old(deleteScheduled) && onTimeout == old(onTimeout)
    {
      overflow := ms > MaxInterval;
      if !overflow {
        interval := ms;
      }
    }

    method Connect(slot: Slot)
      modifies this
      ensures onTimeout == old(onTimeout) + [slot]
      ensures singleShot == old(singleShot) && interval == old(interval)
      ensures started == old(started) && deleteScheduled == old(deleteScheduled)
    {
      onTimeout := onTimeout + [slot];
    }

    method Start()
      modifies this
      ensures started
      ensures singleShot == old(singleShot) && interval == old(interval)
      ensures deleteScheduled == old(deleteScheduled) && onTimeout == old(onTimeout)
    {
      started := true;
    }

    method DeleteLater()
      modifies this
      ensures deleteScheduled
      ensures singleShot == old(singleShot) && interval == old(interval)
      ensures started == old(started) && onTimeout == old(onTimeout)
    {
      deleteScheduled := true;
    }
  }

  /** What `:later` reports for a delay of `ms` milliseconds: a negative
      delay is refused first, then one the timer cannot represent. */
  function CheckDelay(ms: int): (r: Outcome)
    ensures r == Ok <==> 0 <= ms <= MaxInterval
    ensures ms < 0 ==> r == CommandError(PastMessage)
    ensures ms > MaxInterval ==> r == CommandError(TooLargeMessage)
  {
    if ms < 0 then CommandError(PastMessage)
    else if ms > MaxInterval then CommandError(TooLargeMessage)
    else Ok
  }

  /** The commands a timer will hand to a command runner when it fires. */
  function PendingCommands(slots: seq<Slot>): (cs: seq<string>)
    ensures |cs| <= |slots|
  {
    if slots == [] then []
    else (if slots[0].RunSafely? then [slots[0].command] else []) + PendingCommands(slots[1..])
  }

  /** `:later ms command`: arms a single-shot timer that runs `command` on
      window `winId` after `ms` milliseconds and then disposes of itself.
      A negative delay is refused before any timer exists; a delay too large
      for the timer is refused after the timer was made, and the timer is
      then disposed of without being started. */
  method Later(ms: int, command: string, winId: int) returns (r: Outcome, timer: Timer?)
    ensures r == CheckDelay(ms)
    ensures timer == null <==> ms < 0
    ensures timer != null ==> fresh(timer) && timer.name == "later" && timer.singleShot
    ensures r == Ok ==>
      timer.interval == ms && timer.started && !timer.deleteScheduled &&
      timer.onTimeout == [RunSafely(winId, command), DeleteLater] &&
      PendingCommands(timer.onTimeout) == [command]
    ensures 0 <= ms && r.Failed() ==>
      timer.deleteScheduled && !timer.started && timer.onTimeout == []
  {
    if ms < 0 {
      return CommandError(PastMessage), null;
    }
    timer := new Timer("later");
    timer.SetSingleShot(true);
    var overflow := timer.SetInterval(ms);
    if overflow {
      timer.DeleteLater();
      return CommandError(TooLargeMessage), timer;
    }
    timer.Connect(RunSafely(winId, command));
    timer.Connect(DeleteLater);
    timer.Start();
    LaterPendsOneCommand(winId, command);
    r := Ok;
  }

  /** A timer armed by a successful `:later` has exactly one command pending,
      the one it was given, and disposes of itself once it has fired. */
  lemma LaterPendsOneCommand(winId: int, command: string)
    ensures PendingCommands([RunSafely(winId, command), DeleteLater]) == [command]
  {
    assert [RunSafely(winId, command), DeleteLater][1..] == [DeleteLater];
    assert [DeleteLater][1..] == [];
  }
}
