/** `ShouldRemind`: is a session's start inside the reminder window? */
module Remind {
  import opened Domain

  const Minute: int := 60_000_000_000

  /**
   * The trigger fires when the time left until `start` lies in the window
   * (0, threshold minutes]; the time left is returned either way.
   */
  function ShouldRemind(now: Time, start: Time, threshold: int): (r: (bool, int))
    ensures r.1 == start - now
    ensures r.0 <==> 0 < start - now <= threshold * Minute
  {
    var diff := start - now;
    if diff > 0 && diff <= threshold * Minute then (true, diff) else (false, diff)
  }

  /** A session that has started, or a threshold of zero or less, never triggers. */
  lemma NeverForPastStartOrEmptyWindow(now: Time, start: Time, threshold: int)
    requires start <= now || threshold <= 0
    ensures !ShouldRemind(now, start, threshold).0
  {
  }

  /** Widening the window keeps a reminder that fired. */
  lemma WiderWindowStillFires(now: Time, start: Time, threshold: int, wider: int)
    requires threshold <= wider
    ensures ShouldRemind(now, start, threshold).0 ==> ShouldRemind(now, start, wider).0
  {
  }

  /** The table of the reminder's unit test: a 30-minute window at a fixed instant. */
  lemma TestTable(now: Time)
    ensures ShouldRemind(now, now + 29 * Minute, 30).0
    ensures !ShouldRemind(now, now + 31 * Minute, 30).0
    ensures ShouldRemind(now, now + 30 * Minute, 30).0
    ensures !ShouldRemind(now, now - 5 * Minute, 30).0
  {
  }
}
