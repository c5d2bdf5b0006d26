/** The five-second countdown component: its state machine over idle, running and
    finished, the interval that drives the ticks, and what the view shows of it. */
module Timer {
  datatype Status = Idle | Running | Finished

  /** What `intervalRef.current` holds: nothing, the handle of the interval that is
      ticking, or the handle of an interval already cleared when the countdown ran out
      (the ref is not reset then). */
  datatype Interval = NoInterval | Active | Cleared

  /** The length of a countdown, in seconds. */
  const Duration := 5

  const BaseClass := "timer-display"
  const WarningClass := "timer-display warning"

  /** `getTimerDisplayClass`: the warning look in the last two seconds of a run. */
  function DisplayClass(timeLeft: int, status: Status): (c: string)
    ensures c == WarningClass <==> timeLeft <= 2 && status == Running
    ensures c == BaseClass <==> !(timeLeft <= 2 && status == Running)
  {
    if timeLeft <= 2 && status == Running then WarningClass else BaseClass
  }

  /** `getStatusMessage`. */
  function StatusMessage(status: Status): string {
    match status
    case Idle => "Ready to start"
    case Running => "Timer is running..."
    case Finished => "Time's up!"
  }

  /** Each status has its own message. */
  lemma StatusMessagesDistinct(a: Status, b: Status)
    ensures StatusMessage(a) == StatusMessage(b) <==> a == b
  {
    if a != b {
      assert StatusMessage(a)[4] != StatusMessage(b)[4];
    }
  }

  class Timer {
    var timeLeft: int
    var status: Status
    var interval: Interval

    /** The invariant every operation keeps: the counter stays within the countdown, a
        run has time left and a ticking interval, a finished countdown shows zero with
        its interval cleared, and an idle timer holds no interval. */
    predicate Valid()
      reads this
    {
      && 0 <= timeLeft <= Duration
      && (status == Running ==> timeLeft >= 1 && interval == Active)
      && (status == Finished ==> timeLeft == 0 && interval == Cleared)
      && (status == Idle ==> interval == NoInterval)
    }

    /** The Start button is disabled while running. */
    function StartDisabled(): bool
      reads this
    {
      status == Running
    }

    /** The Stop button is disabled while idle. */
    function StopDisabled(): bool
      reads this
    {
      status == Idle
    }

    /** A mounted timer shows the full countdown and is idle. */
    constructor ()
      ensures Valid()
      ensures timeLeft == Duration && status == Idle && interval == NoInterval
    {
      timeLeft := Duration;
      status := Idle;
      interval := NoInterval;
    }

    /** `startTimer`: does nothing while a run is on (exactly when the button is
        disabled); otherwise restarts the countdown with a fresh interval. */
    method Start()
      requires Valid()
      modifies this
      ensures Valid()
      ensures old(StartDisabled()) ==> unchanged(this)
      ensures !old(StartDisabled()) ==> status == Running && timeLeft == Duration && interval == Active
    {
      if status == Running {
        return;
      }
      status := Running;
      timeLeft := Duration;
      interval := Active;
    }

    /** One firing of the interval: a second goes by, and the last one finishes the run
        and clears the interval. */
    method Tick()
      requires Valid() && interval == Active
      modifies this
      ensures Valid()
      ensures old(timeLeft) <= 1 ==> status == Finished && timeLeft == 0 && interval == Cleared
      ensures old(timeLeft) > 1 ==> status == Running && timeLeft == old(timeLeft) - 1 && interval == Active
    {
      if timeLeft <= 1 {
        status := Finished;
        if interval != NoInterval {
          interval := Cleared;
        }
        timeLeft := 0;
      } else {
        timeLeft := timeLeft - 1;
      }
    }

    /** `stopTimer`: clears and forgets the interval and goes idle, keeping the counter. */
    method Stop()
      requires Valid()
      modifies this
      ensures Valid() && StopDisabled()
      ensures status == Idle && interval == NoInterval && timeLeft == old(timeLeft)
    {
      if interval != NoInterval {
        interval := NoInterval;
      }
      status := Idle;
    }

    /** `resetTimer`: stops, then shows the full countdown again. */
    method Reset()
      requires Valid()
      modifies this
      ensures Valid()
      ensures status == Idle && interval == NoInterval && timeLeft == Duration
    {
      Stop();
      timeLeft := Duration;
      status := Idle;
    }
  }

  /** A full run: five ticks after Start, the counter goes 5, 4, ..., 0, the last tick
      finishes the run, and the warning look is on exactly for the last two seconds. */
  method FullRun() returns (lefts: seq<int>, statuses: seq<Status>, classes: seq<string>)
    ensures lefts == [5, 4, 3, 2, 1, 0]
    ensures statuses == [Running, Running, Running, Running, Running, Finished]
    ensures classes == [BaseClass, BaseClass, BaseClass, WarningClass, WarningClass, BaseClass]
  {
    var t := new Timer();
    t.Start();
    lefts, statuses := [t.timeLeft], [t.status];
    t.Tick();
    lefts, statuses := lefts + [t.timeLeft], statuses + [t.status];
    t.Tick();
    lefts, statuses := lefts + [t.timeLeft], statuses + [t.status];
    t.Tick();
    lefts, statuses := lefts + [t.timeLeft], statuses + [t.status];
    t.Tick();
    lefts, statuses := lefts + [t.timeLeft], statuses + [t.status];
    t.Tick();
    lefts, statuses := lefts + [t.timeLeft], statuses + [t.status];
    classes := seq(6, i requires 0 <= i < 6 => DisplayClass(lefts[i], statuses[i]));
  }
}
