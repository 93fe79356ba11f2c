/** The queue of delayed commands: two-component clock readings and deadlines. */
module Timers {
  import opened Connections

  /** A reading of the clock, or a deadline, in seconds and microseconds. */
  datatype Time = Time(sec: int, usec: int)

  /** The order proc compares by: seconds first, then microseconds. */
  predicate AtMost(a: Time, b: Time) {
    a.sec < b.sec || (a.sec == b.sec && a.usec <= b.usec)
  }

  /** The deadline of a command delayed at `now`; microseconds are added without carry. */
  function Deadline(now: Time, interval: Time): Time {
    Time(now.sec + interval.sec, now.usec + interval.usec)
  }

  datatype Delay = Delay(at: Time, cmd: CmdId)

  /** A connect timeout: it concerns the connection only while its sequence is the recorded one. */
  datatype ConnTimeout = ConnTimeout(name: string, sequence: nat, timeout: int)

  // ---- How long a delayed command waits.

  const SECOND: int := 1_000_000

  /** A clock reading as the clock gives it. */
  predicate Reading(t: Time) { 0 <= t.usec < SECOND }

  function Micros(t: Time): int { t.sec * SECOND + t.usec }

  function Min(a: int, b: int): int { if a < b then a else b }

  /** A command delayed at `now` is due after the seconds of the interval and its microseconds, but at the
      latest when the second is over in which these run out. */
  lemma DueExactly(now: Time, interval: Time, t: Time)
    requires Reading(now) && Reading(t) && interval.usec >= 0
    ensures AtMost(Deadline(now, interval), t) <==>
      Micros(t) - Micros(now) >= interval.sec * SECOND + Min(interval.usec, SECOND - now.usec)
  {
    var d := t.sec - now.sec - interval.sec;
    assert Micros(t) - Micros(now) == interval.sec * SECOND + d * SECOND + t.usec - now.usec;
  }

  /** Whenever it comes due, a command delayed at `now` has waited for the whole interval. */
  ghost predicate WaitsInFull(now: Time, interval: Time) {
    forall t: Time :: Reading(t) && AtMost(Deadline(now, interval), t) ==> Micros(t) - Micros(now) >= Micros(interval)
  }

  /** That holds just when the microseconds do not run over the second. */
  lemma WaitsInFullWhen(now: Time, interval: Time)
    requires Reading(now) && interval.usec >= 0
    ensures WaitsInFull(now, interval) <==> now.usec + interval.usec <= SECOND
  {
    if now.usec + interval.usec <= SECOND {
      forall t: Time | Reading(t) && AtMost(Deadline(now, interval), t)
        ensures Micros(t) - Micros(now) >= Micros(interval)
      {
        DueExactly(now, interval, t);
      }
    } else {
      var t := Time(now.sec + interval.sec + 1, 0);
      assert AtMost(Deadline(now, interval), t);
      assert Micros(t) - Micros(now) < Micros(interval);
    }
  }

  /** With the default interval of 100 milliseconds a command may be due after one microsecond. */
  lemma DueAtOnce()
    ensures var now, t := Time(1, 999_999), Time(2, 0);
      AtMost(Deadline(now, Time(0, 100_000)), t) && Micros(t) - Micros(now) == 1
  {
  }
}
