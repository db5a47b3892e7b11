/**
 * The vocabulary of the session log (src/utils.ts): the six event kinds,
 * the coarse session state and the billing record the reducer returns.
 */
module Events {
  import opened Wrappers

  /** Coarse session state reported with the billing metrics. */
  datatype AppState = Idle | InProgress | Paused

  /** Timestamps and durations; exact rationals, so `ttl / 2` needs no rounding. */
  type Time = real

  /**
   * One entry of the log. Every kind carries the timestamp `c`; only the
   * device events (connect and disconnect) name a device `d` and a user `u`.
   */
  datatype Event =
    | Start(c: Time)
    | End(c: Time)
    | Pause(c: Time)
    | Unpause(c: Time)
    | Connect(c: Time, u: int, d: string)
    | Disconnect(c: Time, u: int, d: string)

  /** The one-letter discriminator `t` of the wire format. */
  function Tag(e: Event): char
  {
    match e
    case Start(_) => 's'
    case End(_) => 'e'
    case Pause(_) => 'p'
    case Unpause(_) => 'u'
    case Connect(_, _, _) => 'c'
    case Disconnect(_, _, _) => 'd'
  }

  // The kind predicates look at the tag alone, as the source does.

  predicate IsDeviceEvent(e: Event)
    ensures IsDeviceEvent(e) <==> e.Connect? || e.Disconnect?
  {
    Tag(e) == 'c' || Tag(e) == 'd'
  }

  predicate IsConnectEvent(e: Event)
    ensures IsConnectEvent(e) <==> e.Connect?
  {
    Tag(e) == 'c'
  }

  predicate IsDisconnectEvent(e: Event)
    ensures IsDisconnectEvent(e) <==> e.Disconnect?
  {
    Tag(e) == 'd'
  }

  predicate IsPauseEvent(e: Event)
    ensures IsPauseEvent(e) <==> e.Pause?
  {
    Tag(e) == 'p'
  }

  predicate IsUnpauseEvent(e: Event)
    ensures IsUnpauseEvent(e) <==> e.Unpause?
  {
    Tag(e) == 'u'
  }

  predicate IsStartEvent(e: Event)
    ensures IsStartEvent(e) <==> e.Start?
  {
    Tag(e) == 's'
  }

  predicate IsEndEvent(e: Event)
    ensures IsEndEvent(e) <==> e.End?
  {
    Tag(e) == 'e'
  }

  /** A connect or disconnect event: the only kinds that carry `d` and `u`. */
  type DeviceEvent = e: Event | IsDeviceEvent(e) witness Connect(0.0, 0, "")

  /** The metrics record returned by the reducer. */
  datatype BillingState = BillingState(
    state: AppState,
    trackedTime: Time,
    lastActive: Option<Time>,
    stateTime: Option<Time>)

  /** Non-decreasing timestamps. */
  predicate SortedByTime(s: seq<Event>)
  {
    forall i, j :: 0 <= i < j < |s| ==> s[i].c <= s[j].c
  }

  /** Every event satisfies exactly one of the six kind predicates. */
  lemma ExactlyOneKind(e: Event)
    ensures (if IsStartEvent(e) then 1 else 0) + (if IsEndEvent(e) then 1 else 0)
          + (if IsPauseEvent(e) then 1 else 0) + (if IsUnpauseEvent(e) then 1 else 0)
          + (if IsConnectEvent(e) then 1 else 0) + (if IsDisconnectEvent(e) then 1 else 0) == 1
    ensures IsDeviceEvent(e) <==> IsConnectEvent(e) || IsDisconnectEvent(e)
  {
  }
}
