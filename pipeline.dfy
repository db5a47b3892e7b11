/** The two components composed as src/cli.ts composes them: flatten, then reduce. */
module Pipeline {
  import opened Wrappers
  import opened Events
  import opened Flatten
  import opened Reducer

  /**
   * The report for a raw log: the reducer's result over the flattened log.
   * The flattened log is sorted by time, so the reported tracked time is
   * never negative, whatever the raw log.
   */
  ghost function Report(events: seq<Event>, ttl: Time, currentTime: Option<Time>): (r: BillingState)
    ensures r.trackedTime >= 0.0
  {
    TrackedTimeNonNegative(FlattenedLog(events, ttl, currentTime));
    Billing(FlattenedLog(events, ttl, currentTime))
  }
}
