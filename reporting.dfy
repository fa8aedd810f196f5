/**
 * The periodic statistics report shared, in duplicated form, by the client and the server:
 * every five seconds `report_stats` reads the clock, and when time has moved on since the
 * last report it emits the window's rates and zeroes the window counters.
 */
module Reporting {

  import opened Options

  /**
   * What one report is computed from: the packets and bytes counted in the window and the
   * window's length in microseconds. The packets/s and Mbps figures divide these as floats.
   */
  datatype Window = Window(packets: nat, bytes: nat, elapsedMicros: int)

  /**
   * `elapsed = now - last_stats_time; if elapsed > 0`. While `last_stats_time` is still
   * `None` the subtraction raises `TypeError`, which the loop's `except` swallows: no report.
   */
  predicate Due(lastStatsTime: Option<int>, now: int)
  {
    lastStatsTime.Some? && now - lastStatsTime.value > 0
  }
}
