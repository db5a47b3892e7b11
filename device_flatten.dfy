/**
 * Collapsing the connect/disconnect stream of one device
 * (flattenDeviceStream in src/flatten.ts).
 *
 * The loop keeps the last emitted event and the time of the latest connect
 * seen. Connects that come within `ttl` of the previous connect are merged,
 * repeated disconnects are dropped, and a gap of at least `ttl` after a
 * connect is closed by a synthetic disconnect half a `ttl` after the latest
 * connect seen, which may be one of the merged connects.
 */
module DeviceFlatten {
  import opened Wrappers
  import opened Events

  /**
   * The loop's state: the events emitted so far and `lastConnected`. The
   * source's `lastEvent` is always the last emitted event, so it is not
   * kept separately.
   */
  datatype Scan = Scan(emitted: seq<DeviceEvent>, lastConnected: Option<Time>)

  /** Time of a synthetic disconnect: half a ttl after the connect it closes. */
  function Midpoint(lastConnected: Time, ttl: Time): Time
  {
    lastConnected + ttl / 2.0
  }

  function Last(s: seq<DeviceEvent>): DeviceEvent
    requires s != []
  {
    s[|s| - 1]
  }

  /** The state after the first event, which is always emitted. */
  function StartScan(first: DeviceEvent): Scan
  {
    Scan([first], if IsConnectEvent(first) then Some(first.c) else None)
  }

  /** One iteration of the loop. */
  function Step(s: Scan, e: DeviceEvent, ttl: Time): (r: Scan)
    requires s.emitted != []
    ensures r.emitted != []
  {
    var last := Last(s.emitted);
    if IsConnectEvent(e) then
      if IsConnectEvent(last) && s.lastConnected.Some? then
        if e.c - s.lastConnected.value < ttl then Scan(s.emitted, Some(e.c))
        else Scan(s.emitted + [Disconnect(Midpoint(s.lastConnected.value, ttl), e.u, e.d), e], Some(e.c))
      else Scan(s.emitted + [e], Some(e.c))
    else if IsConnectEvent(last) && s.lastConnected.Some? && e.c - s.lastConnected.value >= ttl then
      Scan(s.emitted + [Disconnect(Midpoint(s.lastConnected.value, ttl), e.u, e.d)], s.lastConnected)
    else if !IsDisconnectEvent(last) then Scan(s.emitted + [e], s.lastConnected)
    else s
  }

  /**
   * The rules of one step: a connect within `ttl` of the latest connect,
   * right after a connect, is dropped; a disconnect right after a disconnect
   * is dropped; a gap of at least `ttl` after a connect is closed by a
   * synthetic disconnect half a ttl after that connect, carrying the new
   * event's user and device, and a connect is still emitted after it, while a
   * disconnect is replaced by it. Otherwise the event is emitted. A connect
   * always moves `lastConnected` to its own time; a disconnect never does.
   */
  lemma StepRules(s: Scan, e: DeviceEvent, ttl: Time)
    requires s.emitted != []
    ensures var last := Last(s.emitted); var lc := s.lastConnected; var r := Step(s, e, ttl);
      && (IsConnectEvent(e) ==> r.lastConnected == Some(e.c))
      && (IsDisconnectEvent(e) ==> r.lastConnected == lc)
      && (IsConnectEvent(last) && lc.Some? && IsConnectEvent(e) && e.c - lc.value < ttl ==> r.emitted == s.emitted)
      && (IsConnectEvent(last) && lc.Some? && IsConnectEvent(e) && e.c - lc.value >= ttl
          ==> r.emitted == s.emitted + [Disconnect(Midpoint(lc.value, ttl), e.u, e.d), e])
      && (IsConnectEvent(last) && lc.Some? && IsDisconnectEvent(e) && e.c - lc.value >= ttl
          ==> r.emitted == s.emitted + [Disconnect(Midpoint(lc.value, ttl), e.u, e.d)])
      && (IsConnectEvent(last) && lc.Some? && IsDisconnectEvent(e) && e.c - lc.value < ttl ==> r.emitted == s.emitted + [e])
      && (IsDisconnectEvent(last) && IsConnectEvent(e) ==> r.emitted == s.emitted + [e])
      && (IsDisconnectEvent(last) && IsDisconnectEvent(e) ==> r.emitted == s.emitted)
  {
  }

  /** The loop over the remaining events; what was emitted is never taken back. */
  function Run(s: Scan, rest: seq<DeviceEvent>, ttl: Time): (r: Scan)
    requires s.emitted != []
    ensures r.emitted != []
    decreases |rest|
  {
    if rest == [] then s else Run(Step(s, rest[0], ttl), rest[1..], ttl)
  }

  /** After the loop: a trailing disconnect when the device still looks connected at `currentTime`. */
  function Finish(s: Scan, ttl: Time, currentTime: Option<Time>): (r: seq<DeviceEvent>)
    requires s.emitted != []
    ensures s.emitted <= r
  {
    var last := Last(s.emitted);
    if IsConnectEvent(last) && s.lastConnected.Some? && currentTime.Some?
       && currentTime.value - s.lastConnected.value >= ttl
    then s.emitted + [Disconnect(Midpoint(s.lastConnected.value, ttl), last.u, last.d)]
    else s.emitted
  }

  /** What was emitted is never taken back. */
  lemma {:induction false} RunKeepsEmitted(s: Scan, rest: seq<DeviceEvent>, ttl: Time)
    requires s.emitted != []
    ensures s.emitted <= Run(s, rest, ttl).emitted
    decreases |rest|
  {
    if rest != [] {
      RunKeepsEmitted(Step(s, rest[0], ttl), rest[1..], ttl);
    }
  }

  /** The flattened stream: empty for an empty input, and otherwise it starts with the first input event. */
  function Flattened(events: seq<DeviceEvent>, ttl: Time, currentTime: Option<Time>): (r: seq<DeviceEvent>)
    ensures r == [] <==> events == []
    ensures r != [] ==> r[0] == events[0]
  {
    if events == [] then []
    else
      RunKeepsEmitted(StartScan(events[0]), events[1..], ttl);
      Finish(Run(StartScan(events[0]), events[1..], ttl), ttl, currentTime)
  }

  lemma RunUnfolds(s: Scan, events: seq<DeviceEvent>, i: nat, ttl: Time)
    requires i < |events| && s.emitted != []
    ensures Run(s, events[i..], ttl) == Run(Step(s, events[i], ttl), events[i + 1..], ttl)
  {
    assert events[i..][1..] == events[i + 1..];
  }

  /** One pass of the loop body: files `event` after the emitted events `result`. */
  method FlattenStep(result: seq<DeviceEvent>, lastConnected: Option<Time>, event: DeviceEvent, ttl: Time)
    returns (emitted: seq<DeviceEvent>, nowConnected: Option<Time>)
    requires result != []
    ensures Scan(emitted, nowConnected) == Step(Scan(result, lastConnected), event, ttl)
  {
    var lastEvent := result[|result| - 1];
    emitted, nowConnected := result, lastConnected;
    if IsConnectEvent(event) {
      var ignore := false;
      if IsConnectEvent(lastEvent) {
        if nowConnected.Some? {
          if event.c - nowConnected.value < ttl {
            ignore := true;
          } else {
            emitted := emitted + [Disconnect(nowConnected.value + ttl / 2.0, event.u, event.d)];
          }
        }
      }
      if !ignore {
        emitted := emitted + [event];
      }
      nowConnected := Some(event.c);
    } else if IsDisconnectEvent(event) {
      if IsConnectEvent(lastEvent) && nowConnected.Some? && event.c - nowConnected.value >= ttl {
        emitted := emitted + [Disconnect(nowConnected.value + ttl / 2.0, event.u, event.d)];
      } else if !IsDisconnectEvent(lastEvent) {
        emitted := emitted + [event];
      }
    }
  }

  method FlattenDeviceStream(events: seq<DeviceEvent>, ttl: Time, currentTime: Option<Time>)
    returns (result: seq<DeviceEvent>)
    ensures result == Flattened(events, ttl, currentTime)
  {
    if |events| == 0 {
      return [];
    }
    var lastEvent := events[0];
    result := [lastEvent];
    var lastConnected: Option<Time> := None;
    if IsConnectEvent(lastEvent) {
      lastConnected := Some(lastEvent.c);
    }
    ghost var target := Run(StartScan(events[0]), events[1..], ttl);
    for i := 1 to |events|
      invariant result != [] && lastEvent == Last(result)
      invariant Run(Scan(result, lastConnected), events[i..], ttl) == target
    {
      RunUnfolds(Scan(result, lastConnected), events, i, ttl);
      result, lastConnected := FlattenStep(result, lastConnected, events[i], ttl);
      lastEvent := result[|result| - 1];
    }
    assert events[|events|..] == [];
    if IsConnectEvent(lastEvent) && lastConnected.Some? && currentTime.Some? {
      if currentTime.value - lastConnected.value >= ttl {
        result := result + [Disconnect(lastConnected.value + ttl / 2.0, lastEvent.u, lastEvent.d)];
      }
    }
  }

  /** No two consecutive events are of the same kind. */
  predicate Alternating(s: seq<DeviceEvent>)
  {
    forall i :: 0 < i < |s| ==> IsConnectEvent(s[i - 1]) != IsConnectEvent(s[i])
  }

  /** What the loop keeps true: the emitted events alternate, and a connect emitted last has set `lastConnected`. */
  ghost predicate Coherent(s: Scan)
  {
    && s.emitted != []
    && Alternating(s.emitted)
    && (IsConnectEvent(Last(s.emitted)) ==> s.lastConnected.Some?)
  }

  lemma StepCoherent(s: Scan, e: DeviceEvent, ttl: Time)
    requires Coherent(s)
    ensures Coherent(Step(s, e, ttl))
  {
  }

  lemma {:induction false} RunCoherent(s: Scan, rest: seq<DeviceEvent>, ttl: Time)
    requires Coherent(s)
    ensures Coherent(Run(s, rest, ttl))
    decreases |rest|
  {
    if rest != [] {
      StepCoherent(s, rest[0], ttl);
      RunCoherent(Step(s, rest[0], ttl), rest[1..], ttl);
    }
  }

  /** The flattened stream never holds two connects or two disconnects in a row. */
  lemma FlattenedAlternates(events: seq<DeviceEvent>, ttl: Time, currentTime: Option<Time>)
    ensures Alternating(Flattened(events, ttl, currentTime))
  {
    if events != [] {
      RunCoherent(StartScan(events[0]), events[1..], ttl);
    }
  }

  /** The time of the latest connect of `s`, if it has one. */
  function LatestConnect(s: seq<DeviceEvent>): Option<Time>
  {
    if s == [] then None
    else if LatestConnect(s[1..]).Some? then LatestConnect(s[1..])
    else if IsConnectEvent(s[0]) then Some(s[0].c)
    else None
  }

  lemma {:induction false} RunLastConnected(s: Scan, rest: seq<DeviceEvent>, ttl: Time)
    requires s.emitted != []
    ensures Run(s, rest, ttl).lastConnected == if LatestConnect(rest).Some? then LatestConnect(rest) else s.lastConnected
    decreases |rest|
  {
    if rest != [] {
      RunLastConnected(Step(s, rest[0], ttl), rest[1..], ttl);
    }
  }

  /**
   * `lastConnected` ends as the time of the latest connect of the input,
   * whether or not that connect was emitted; disconnects never move it.
   */
  lemma LastConnectedIsLatestConnect(events: seq<DeviceEvent>, ttl: Time)
    requires events != []
    ensures Run(StartScan(events[0]), events[1..], ttl).lastConnected == LatestConnect(events)
  {
    RunLastConnected(StartScan(events[0]), events[1..], ttl);
  }

  /**
   * With a current time the result is the result without one, plus a
   * disconnect half a ttl after the latest connect exactly when the
   * stream ends on a connect and that connect is at least `ttl` old.
   */
  lemma TrailingDisconnect(events: seq<DeviceEvent>, ttl: Time, currentTime: Time)
    requires events != []
    ensures var plain := Flattened(events, ttl, None);
      var latest := LatestConnect(events);
      Flattened(events, ttl, Some(currentTime)) ==
        if IsConnectEvent(Last(plain)) && latest.Some? && currentTime - latest.value >= ttl
        then plain + [Disconnect(Midpoint(latest.value, ttl), Last(plain).u, Last(plain).d)]
        else plain
  {
    LastConnectedIsLatestConnect(events, ttl);
    RunCoherent(StartScan(events[0]), events[1..], ttl);
  }

  /** Some connect of `events` happened at time `t`. */
  ghost predicate ConnectAt(events: seq<DeviceEvent>, t: Time)
  {
    exists j :: 0 <= j < |events| && IsConnectEvent(events[j]) && events[j].c == t
  }

  /**
   * `x` is an input event, or a synthetic disconnect: half a ttl after
   * some input connect, for the user and device of some input event.
   */
  ghost predicate Grounded(x: DeviceEvent, events: seq<DeviceEvent>, ttl: Time)
  {
    || x in events
    || (&& IsDisconnectEvent(x)
        && (exists j :: 0 <= j < |events| && IsConnectEvent(events[j]) && x.c == Midpoint(events[j].c, ttl))
        && (exists k :: 0 <= k < |events| && x.u == events[k].u && x.d == events[k].d))
  }

  /** Everything the loop holds comes from `events`. */
  ghost predicate Sourced(s: Scan, events: seq<DeviceEvent>, ttl: Time)
  {
    && (forall x :: x in s.emitted ==> Grounded(x, events, ttl))
    && (s.lastConnected.Some? ==> ConnectAt(events, s.lastConnected.value))
  }

  lemma StepSourced(s: Scan, events: seq<DeviceEvent>, i: nat, ttl: Time)
    requires i < |events| && s.emitted != []
    requires Sourced(s, events, ttl)
    ensures Sourced(Step(s, events[i], ttl), events, ttl)
  {
    var e := events[i];
    var r := Step(s, e, ttl);
    if s.lastConnected.Some? {
      var j :| 0 <= j < |events| && IsConnectEvent(events[j]) && events[j].c == s.lastConnected.value;
      assert Grounded(Disconnect(Midpoint(s.lastConnected.value, ttl), e.u, e.d), events, ttl);
    }
    assert forall x :: x in r.emitted ==> x in s.emitted || x == e || (s.lastConnected.Some? && x == Disconnect(Midpoint(s.lastConnected.value, ttl), e.u, e.d));
  }

  lemma {:induction false} RunSourced(s: Scan, events: seq<DeviceEvent>, i: nat, ttl: Time)
    requires i <= |events| && s.emitted != []
    requires Sourced(s, events, ttl)
    ensures Sourced(Run(s, events[i..], ttl), events, ttl)
    decreases |events| - i
  {
    if i < |events| {
      StepSourced(s, events, i, ttl);
      assert events[i..][1..] == events[i + 1..];
      RunSourced(Step(s, events[i], ttl), events, i + 1, ttl);
    }
  }

  /**
   * Every flattened event is an input event or a synthetic disconnect half
   * a ttl after an input connect, carrying an input event's user and device.
   */
  lemma FlattenedGrounded(events: seq<DeviceEvent>, ttl: Time, currentTime: Option<Time>)
    ensures forall x :: x in Flattened(events, ttl, currentTime) ==> Grounded(x, events, ttl)
  {
    if events != [] {
      var s0 := StartScan(events[0]);
      assert Sourced(s0, events, ttl);
      RunSourced(s0, events, 1, ttl);
      var s := Run(s0, events[1..], ttl);
      RunCoherent(s0, events[1..], ttl);
      var last := Last(s.emitted);
      if IsConnectEvent(last) && s.lastConnected.Some? {
        assert Grounded(last, events, ttl);
        var j :| 0 <= j < |events| && IsConnectEvent(events[j]) && events[j].c == s.lastConnected.value;
        var k :| 0 <= k < |events| && events[k] == last;
        assert Grounded(Disconnect(Midpoint(s.lastConnected.value, ttl), last.u, last.d), events, ttl);
      }
    }
  }

  /** Flattening a stream of one device yields events of that device only. */
  lemma FlattenedKeepsDevice(events: seq<DeviceEvent>, ttl: Time, currentTime: Option<Time>, device: string)
    requires forall e :: e in events ==> e.d == device
    ensures forall x :: x in Flattened(events, ttl, currentTime) ==> x.d == device
  {
    FlattenedGrounded(events, ttl, currentTime);
  }

  /**
   * What the loop keeps true over a time-sorted input whose events so far
   * are at most `bound`: the emitted events are sorted and at most `bound`,
   * and a connect emitted last is no later than `lastConnected`.
   */
  ghost predicate Ordered(s: Scan, bound: Time)
  {
    && s.emitted != []
    && SortedByTime(s.emitted)
    && Last(s.emitted).c <= bound
    && (s.lastConnected.Some? ==> s.lastConnected.value <= bound)
    && (IsConnectEvent(Last(s.emitted)) ==> s.lastConnected.Some? && Last(s.emitted).c <= s.lastConnected.value)
  }

  lemma SnocSorted(s: seq<DeviceEvent>, x: DeviceEvent)
    requires s != [] && SortedByTime(s) && Last(s).c <= x.c
    ensures SortedByTime(s + [x])
  {
    forall i, j | 0 <= i < j < |s + [x]|
      ensures (s + [x])[i].c <= (s + [x])[j].c
    {
      if j == |s| {
        assert s[i].c <= Last(s).c;
      }
    }
  }

  lemma StepOrdered(s: Scan, e: DeviceEvent, bound: Time, ttl: Time)
    requires ttl >= 0.0 && bound <= e.c
    requires Ordered(s, bound)
    ensures Ordered(Step(s, e, ttl), e.c)
  {
    var last := Last(s.emitted);
    if IsConnectEvent(last) && s.lastConnected.Some? && e.c - s.lastConnected.value >= ttl {
      var d := Disconnect(Midpoint(s.lastConnected.value, ttl), e.u, e.d);
      SnocSorted(s.emitted, d);
      if IsConnectEvent(e) {
        SnocSorted(s.emitted + [d], e);
        assert Step(s, e, ttl).emitted == s.emitted + [d] + [e];
      }
    } else if IsConnectEvent(e) || !IsDisconnectEvent(last) {
      SnocSorted(s.emitted, e);
    }
  }

  /** What is left of `Ordered` once the bound is no longer needed. */
  ghost predicate Settled(s: Scan)
  {
    && s.emitted != []
    && SortedByTime(s.emitted)
    && (IsConnectEvent(Last(s.emitted)) ==> s.lastConnected.Some? && Last(s.emitted).c <= s.lastConnected.value)
  }

  lemma {:induction false} RunOrdered(s: Scan, rest: seq<DeviceEvent>, bound: Time, ttl: Time)
    requires ttl >= 0.0 && SortedByTime(rest)
    requires forall i :: 0 <= i < |rest| ==> bound <= rest[i].c
    requires Ordered(s, bound)
    ensures Settled(Run(s, rest, ttl))
    decreases |rest|
  {
    if rest != [] {
      StepOrdered(s, rest[0], bound, ttl);
      RunOrdered(Step(s, rest[0], ttl), rest[1..], rest[0].c, ttl);
    }
  }

  /** A time-sorted stream stays time-sorted when flattened with a non-negative ttl. */
  lemma FlattenedSorted(events: seq<DeviceEvent>, ttl: Time, currentTime: Option<Time>)
    requires ttl >= 0.0 && SortedByTime(events)
    ensures SortedByTime(Flattened(events, ttl, currentTime))
  {
    if events != [] {
      var s0 := StartScan(events[0]);
      assert Ordered(s0, events[0].c);
      RunOrdered(s0, events[1..], events[0].c, ttl);
      var s := Run(s0, events[1..], ttl);
      var last := Last(s.emitted);
      if IsConnectEvent(last) && s.lastConnected.Some? && currentTime.Some? {
        SnocSorted(s.emitted, Disconnect(Midpoint(s.lastConnected.value, ttl), last.u, last.d));
      }
    }
  }

  /**
   * Flattening is not idempotent. With ttl 4, connects at 0, 3 and 6 and a
   * disconnect at 8 flatten to a connect at 0 and the disconnect at 8, and
   * flattening that again puts the disconnect at 2.
   */
  lemma FlatteningIsNotIdempotent()
    ensures var once := Flattened([Connect(0.0, 1, "1"), Connect(3.0, 1, "1"), Connect(6.0, 1, "1"), Disconnect(8.0, 1, "1")], 4.0, None);
      once == [Connect(0.0, 1, "1"), Disconnect(8.0, 1, "1")]
      && Flattened(once, 4.0, None) == [Connect(0.0, 1, "1"), Disconnect(2.0, 1, "1")]
      && Flattened(once, 4.0, None) != once
  {
  }

  /**
   * A synthetic disconnect is placed half a ttl after the latest connect
   * seen, merged or not: with ttl 4, connects at 0, 3 and 8 give a
   * disconnect at 5, not at 2.
   */
  lemma LatestConnectExample()
    ensures Flattened([Connect(0.0, 1, "1"), Connect(3.0, 1, "1"), Connect(8.0, 1, "1")], 4.0, None)
      == [Connect(0.0, 1, "1"), Disconnect(5.0, 1, "1"), Connect(8.0, 1, "1")]
  {
  }

  /** A lone connect at least a ttl old is closed half a ttl after it. */
  lemma TrailingAfterSingleConnect(x: DeviceEvent, ttl: Time, currentTime: Time)
    requires IsConnectEvent(x) && currentTime - x.c >= ttl
    ensures Flattened([x], ttl, Some(currentTime)) == [x, Disconnect(Midpoint(x.c, ttl), x.u, x.d)]
  {
    assert [x][1..] == [];
    assert Run(StartScan(x), [], ttl) == StartScan(x);
  }

  // The device-stream examples of the test suite, all with ttl 4.

  /** Connects within ttl of each other collapse into the first. */
  lemma ConnectsCollapseExample()
    ensures Flattened([], 4.0, Some(4.0)) == []
    ensures Flattened([Connect(0.0, 1, "1"), Connect(1.0, 1, "1"), Connect(2.0, 1, "1"), Connect(3.0, 1, "1")], 4.0, Some(4.0))
      == [Connect(0.0, 1, "1")]
    ensures Flattened([Connect(0.0, 1, "1"), Connect(1.0, 1, "1"), Connect(2.0, 1, "1"), Disconnect(3.0, 1, "1")], 4.0, Some(4.0))
      == [Connect(0.0, 1, "1"), Disconnect(3.0, 1, "1")]
  {
  }

  /** A trailing disconnect is added only once `currentTime` is a ttl past the latest connect. */
  lemma TrailingDisconnectExample()
    ensures Flattened([Connect(0.0, 1, "1"), Connect(1.0, 1, "1"), Connect(2.0, 1, "1"), Connect(3.0, 1, "1")], 4.0, Some(10.0))
      == [Connect(0.0, 1, "1"), Disconnect(5.0, 1, "1")]
    ensures Flattened([Connect(3.0, 1, "1")], 4.0, Some(5.0)) == [Connect(3.0, 1, "1")]
  {
  }

  /** Gaps of at least ttl get a synthetic disconnect; repeated disconnects collapse. */
  lemma TimeoutExample()
    ensures Flattened([Connect(0.0, 1, "1"), Connect(5.0, 1, "1")], 4.0, Some(6.0))
      == [Connect(0.0, 1, "1"), Disconnect(2.0, 1, "1"), Connect(5.0, 1, "1")]
    ensures Flattened([Disconnect(0.0, 1, "1"), Disconnect(0.0, 1, "1"), Disconnect(0.0, 1, "1")], 4.0, Some(10.0))
      == [Disconnect(0.0, 1, "1")]
    ensures Flattened([Connect(0.0, 1, "1"), Disconnect(6.0, 1, "1")], 4.0, Some(10.0))
      == [Connect(0.0, 1, "1"), Disconnect(2.0, 1, "1")]
  {
  }

  /**
   * The device streams of the whole-log example: with ttl 4 and current
   * time 10, device 1 connected at 2 and 6 gets disconnects at 4 and 8, and
   * device 2 connected at 3 gets one at 5.
   */
  lemma AppStreamDevicesExample()
    ensures Flattened([Connect(2.0, 1, "1"), Connect(6.0, 1, "1")], 4.0, Some(10.0))
      == [Connect(2.0, 1, "1"), Disconnect(4.0, 1, "1"), Connect(6.0, 1, "1"), Disconnect(8.0, 1, "1")]
    ensures Flattened([Connect(3.0, 2, "2")], 4.0, Some(10.0)) == [Connect(3.0, 2, "2"), Disconnect(5.0, 2, "2")]
  {
  }
}
