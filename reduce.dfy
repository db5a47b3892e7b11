/**
 * The reducer (src/reduce.ts): a fold over a flattened event log that keeps
 * the devices currently connected (device id to user id), whether the
 * session is paused, and the start of the open billable interval, and that
 * yields the tracked time, the last time the session became active, the time
 * of the last processed event and the final session state.
 */
module Reducer {
  import opened Wrappers
  import opened Events

  /** At least two distinct user ids among the connected devices. */
  ghost predicate TwoUsers(connectedDevices: map<string, int>)
  {
    exists d1, d2 :: d1 in connectedDevices && d2 in connectedDevices && connectedDevices[d1] != connectedDevices[d2]
  }

  /**
   * `connected`: walks the devices in some order, remembers the first user
   * id and answers true as soon as another id shows up.
   */
  method Connected(connectedDevices: map<string, int>) returns (r: bool)
    ensures r <==> TwoUsers(connectedDevices)
  {
    var firstUserId: Option<int> := None;
    var rest := connectedDevices.Keys;
    ghost var seen: set<string> := {};
    while rest != {}
      invariant rest + seen == connectedDevices.Keys && rest !! seen
      invariant firstUserId.None? ==> seen == {}
      invariant firstUserId.Some? ==> exists k :: k in seen && connectedDevices[k] == firstUserId.value
      invariant firstUserId.Some? ==> forall k :: k in seen ==> connectedDevices[k] == firstUserId.value
      decreases rest
    {
      var deviceId :| deviceId in rest;
      var userId := connectedDevices[deviceId];
      if firstUserId.None? {
        firstUserId := Some(userId);
      } else if firstUserId.value != userId {
        return true;
      }
      rest := rest - {deviceId};
      seen := seen + {deviceId};
    }
    return false;
  }

  /** The variables of the reducer's loop. */
  datatype Tracker = Tracker(
    connectedDevices: map<string, int>,
    paused: bool,
    lastBothConnected: Option<Time>,
    lastActive: Option<Time>,
    trackedTime: Time,
    stateTime: Option<Time>)

  const Initial := Tracker(map[], false, None, None, 0.0, None)

  /** Adds the length of the open interval, which ends at `c`, and closes it. */
  function Close(t: Tracker, c: Time): Tracker
    requires t.lastBothConnected.Some?
  {
    t.(trackedTime := t.trackedTime + (c - t.lastBothConnected.value), lastBothConnected := None)
  }

  /** Opens an interval at `c`. */
  function Open(t: Tracker, c: Time): Tracker
  {
    t.(lastBothConnected := Some(c), lastActive := Some(c))
  }

  /**
   * One pass of the loop body. Every event but End also records its time in
   * `stateTime`; End leaves the loop before that assignment.
   */
  ghost function Apply(t: Tracker, e: Event): Tracker
  {
    if IsConnectEvent(e) then
      var devices := t.connectedDevices[e.d := e.u];
      var t' := t.(connectedDevices := devices, stateTime := Some(e.c));
      if !TwoUsers(t.connectedDevices) && TwoUsers(devices) && !t.paused then Open(t', e.c) else t'
    else if IsDisconnectEvent(e) then
      var devices := t.connectedDevices - {e.d};
      var t' := t.(connectedDevices := devices, stateTime := Some(e.c));
      if TwoUsers(t.connectedDevices) && t.lastBothConnected.Some? && !TwoUsers(devices) && !t.paused then Close(t', e.c) else t'
    else if IsPauseEvent(e) then
      var t' := t.(paused := true, stateTime := Some(e.c));
      if t.lastBothConnected.Some? && !t.paused then Close(t', e.c) else t'
    else if IsUnpauseEvent(e) then
      var t' := t.(paused := false, stateTime := Some(e.c));
      if TwoUsers(t.connectedDevices) then Open(t', e.c) else t'
    else if IsEndEvent(e) then
      if t.lastBothConnected.Some? && !t.paused then Close(t, e.c) else t
    else
      t.(stateTime := Some(e.c))
  }

  /** The loop over `events` from state `t`, leaving it right after the first End. */
  ghost function Run(t: Tracker, events: seq<Event>): Tracker
    decreases |events|
  {
    if events == [] then t
    else if IsEndEvent(events[0]) then Apply(t, events[0])
    else Run(Apply(t, events[0]), events[1..])
  }

  /** The session state derived from the final loop variables. */
  ghost function FinalState(t: Tracker): AppState
  {
    if t.paused then Paused
    else if TwoUsers(t.connectedDevices) then InProgress
    else Idle
  }

  /** What `reduce` returns for `events`. */
  ghost function Billing(events: seq<Event>): BillingState
  {
    var t := Run(Initial, events);
    BillingState(FinalState(t), t.trackedTime, t.lastActive, t.stateTime)
  }

  lemma RunUnfolds(t: Tracker, events: seq<Event>, i: nat)
    requires i < |events|
    ensures Run(t, events[i..]) == if IsEndEvent(events[i]) then Apply(t, events[i]) else Run(Apply(t, events[i]), events[i + 1..])
  {
    assert events[i..][1..] == events[i + 1..];
  }

  method Reduce(events: seq<Event>) returns (result: BillingState)
    ensures result == Billing(events)
  {
    var trackedTime: Time := 0.0;
    var connectedDevices: map<string, int> := map[];
    var lastBothConnected: Option<Time> := None;
    var lastActive: Option<Time> := None;
    var paused := false;
    var stateTime: Option<Time> := None;
    ghost var target := Run(Initial, events);
    for i := 0 to |events|
      invariant lastBothConnected.Some? ==> !paused
      invariant Run(Tracker(connectedDevices, paused, lastBothConnected, lastActive, trackedTime, stateTime), events[i..]) == target
    {
      var event := events[i];
      ghost var before := Tracker(connectedDevices, paused, lastBothConnected, lastActive, trackedTime, stateTime);
      RunUnfolds(before, events, i);
      if IsConnectEvent(event) {
        var prevConnected := Connected(connectedDevices);
        connectedDevices := connectedDevices[event.d := event.u];
        var nowConnected := Connected(connectedDevices);
        if !prevConnected && nowConnected && !paused {
          lastBothConnected := Some(event.c);
          lastActive := Some(event.c);
        }
      } else if IsDisconnectEvent(event) {
        var prevConnected := Connected(connectedDevices);
        connectedDevices := connectedDevices - {event.d};
        var nowConnected := Connected(connectedDevices);
        if prevConnected && lastBothConnected.Some? && !nowConnected && !paused {
          trackedTime := trackedTime + (event.c - lastBothConnected.value);
          lastBothConnected := None;
        }
      } else if IsPauseEvent(event) {
        if lastBothConnected.Some? && !paused {
          trackedTime := trackedTime + (event.c - lastBothConnected.value);
          lastBothConnected := None;
        }
        paused := true;
      } else if IsUnpauseEvent(event) {
        var nowConnected := Connected(connectedDevices);
        if nowConnected {
          lastBothConnected := Some(event.c);
          lastActive := Some(event.c);
        }
        paused := false;
      } else if IsEndEvent(event) {
        if lastBothConnected.Some? && !paused {
          trackedTime := trackedTime + (event.c - lastBothConnected.value);
          lastBothConnected := None;
        }
        assert Tracker(connectedDevices, paused, lastBothConnected, lastActive, trackedTime, stateTime) == target;
        break;
      }
      stateTime := Some(event.c);
    }
    assert events[|events|..] == [];
    assert Tracker(connectedDevices, paused, lastBothConnected, lastActive, trackedTime, stateTime) == target;
    var state := Idle;
    if paused {
      state := Paused;
    } else {
      var nowConnected := Connected(connectedDevices);
      if nowConnected {
        state := InProgress;
      }
    }
    result := BillingState(state, trackedTime, lastActive, stateTime);
  }

  /** An empty log: nothing tracked, never active, no event time, idle. */
  lemma EmptyLog()
    ensures Billing([]) == BillingState(Idle, 0.0, None, None)
  {
  }

  /** The loop leaves at an End: an End anywhere in `s` makes what follows `s` irrelevant. */
  lemma {:induction false} RunStopsAtEnd(t: Tracker, s: seq<Event>, later: seq<Event>)
    requires exists j :: 0 <= j < |s| && IsEndEvent(s[j])
    ensures Run(t, s + later) == Run(t, s)
    decreases |s|
  {
    var j :| 0 <= j < |s| && IsEndEvent(s[j]);
    assert (s + later)[0] == s[0];
    if !IsEndEvent(s[0]) {
      assert (s + later)[1..] == s[1..] + later;
      assert s[1..][j - 1] == s[j];
      RunStopsAtEnd(Apply(t, s[0]), s[1..], later);
    }
  }

  /** Events after the first End have no effect on the result. */
  lemma EventsAfterEndIgnored(events: seq<Event>, n: nat)
    requires n < |events| && IsEndEvent(events[n])
    ensures Billing(events) == Billing(events[..n + 1])
  {
    assert events == events[..n + 1] + events[n + 1..];
    assert events[..n + 1][n] == events[n];
    RunStopsAtEnd(Initial, events[..n + 1], events[n + 1..]);
  }

  /** Running over a log with no End and then one more event. */
  lemma {:induction false} RunSnoc(t: Tracker, p: seq<Event>, e: Event)
    requires forall i :: 0 <= i < |p| ==> !IsEndEvent(p[i])
    ensures Run(t, p + [e]) == Apply(Run(t, p), e)
    decreases |p|
  {
    if p == [] {
      assert p + [e] == [e];
    } else {
      assert (p + [e])[1..] == p[1..] + [e];
      RunSnoc(Apply(t, p[0]), p[1..], e);
    }
  }

  /** Every event but End records its time; End leaves `stateTime` alone. */
  lemma StateTimeRecorded(t: Tracker, e: Event)
    ensures Apply(t, e).stateTime == if IsEndEvent(e) then t.stateTime else Some(e.c)
  {
  }

  lemma {:induction false} RunStateTime(t: Tracker, events: seq<Event>)
    requires forall i :: 0 <= i < |events| ==> !IsEndEvent(events[i])
    ensures Run(t, events).stateTime == if events == [] then t.stateTime else Some(events[|events| - 1].c)
    decreases |events|
  {
    if events != [] {
      RunStateTime(Apply(t, events[0]), events[1..]);
    }
  }

  /** Without an End, `stateTime` is the time of the last event. */
  lemma StateTimeWithoutEnd(events: seq<Event>)
    requires forall i :: 0 <= i < |events| ==> !IsEndEvent(events[i])
    ensures Billing(events).stateTime == if events == [] then None else Some(events[|events| - 1].c)
  {
    RunStateTime(Initial, events);
  }

  /**
   * With a first End at `n`, `stateTime` is the time of the event before it,
   * or null when the log starts with that End.
   */
  lemma StateTimeAtFirstEnd(events: seq<Event>, n: nat)
    requires n < |events| && IsEndEvent(events[n])
    requires forall i :: 0 <= i < n ==> !IsEndEvent(events[i])
    ensures Billing(events).stateTime == if n == 0 then None else Some(events[n - 1].c)
  {
    EventsAfterEndIgnored(events, n);
    assert events[..n + 1] == events[..n] + [events[n]];
    RunSnoc(Initial, events[..n], events[n]);
    RunStateTime(Initial, events[..n]);
  }

  /** The two ways an interval opens. */
  ghost predicate Opens(t: Tracker, e: Event)
  {
    || (IsConnectEvent(e) && !TwoUsers(t.connectedDevices) && TwoUsers(t.connectedDevices[e.d := e.u]) && !t.paused)
    || (IsUnpauseEvent(e) && TwoUsers(t.connectedDevices))
  }

  /**
   * An interval opens, setting both `lastBothConnected` and `lastActive` to
   * the event's time, exactly in the two cases of Opens; any other event
   * keeps `lastActive` and at most clears `lastBothConnected`.
   */
  lemma IntervalOpens(t: Tracker, e: Event)
    ensures Opens(t, e) ==> Apply(t, e).lastBothConnected == Some(e.c) && Apply(t, e).lastActive == Some(e.c)
    ensures !Opens(t, e) ==> Apply(t, e).lastActive == t.lastActive
    ensures !Opens(t, e) && Apply(t, e).lastBothConnected.Some? ==> Apply(t, e).lastBothConnected == t.lastBothConnected
  {
  }

  /** The three ways an open, unpaused interval closes. */
  ghost predicate Closes(t: Tracker, e: Event)
  {
    && t.lastBothConnected.Some?
    && !t.paused
    && (|| (IsDisconnectEvent(e) && TwoUsers(t.connectedDevices) && !TwoUsers(t.connectedDevices - {e.d}))
        || IsPauseEvent(e)
        || IsEndEvent(e))
  }

  /**
   * `trackedTime` changes only when an interval closes, and then grows by the
   * time since `lastBothConnected`.
   */
  lemma TrackedTimeOnClose(t: Tracker, e: Event)
    ensures Closes(t, e) ==> Apply(t, e).trackedTime == t.trackedTime + (e.c - t.lastBothConnected.value)
    ensures Closes(t, e) ==> Apply(t, e).lastBothConnected == None
    ensures !Closes(t, e) ==> Apply(t, e).trackedTime == t.trackedTime
  {
  }

  /** The loop invariant: an open interval is never paused. */
  ghost predicate OpenUnpaused(t: Tracker)
  {
    t.lastBothConnected.Some? ==> !t.paused
  }

  lemma {:induction false} RunOpenUnpaused(t: Tracker, events: seq<Event>)
    requires OpenUnpaused(t)
    ensures OpenUnpaused(Run(t, events))
    decreases |events|
  {
    if events != [] && !IsEndEvent(events[0]) {
      RunOpenUnpaused(Apply(t, events[0]), events[1..]);
    }
  }

  /** After any log, including every prefix the loop goes through, an open interval is not paused. */
  lemma OpenIntervalNeverPaused(events: seq<Event>)
    ensures OpenUnpaused(Run(Initial, events))
  {
    RunOpenUnpaused(Initial, events);
  }

  /** The final state is PAUSED if paused, else IN_PROGRESS if two users are connected, else IDLE. */
  lemma FinalStateMeaning(events: seq<Event>)
    ensures var t := Run(Initial, events);
      && (Billing(events).state == Paused <==> t.paused)
      && (Billing(events).state == InProgress <==> !t.paused && TwoUsers(t.connectedDevices))
      && (Billing(events).state == Idle <==> !t.paused && !TwoUsers(t.connectedDevices))
  {
  }

  /** Every connect in `events` carries `uid`. */
  ghost predicate OneUser(events: seq<Event>, uid: int)
  {
    forall i :: 0 <= i < |events| && IsConnectEvent(events[i]) ==> events[i].u == uid
  }

  /** Nothing tracked so far, never active, and every connected device belongs to `uid`. */
  ghost predicate Unbilled(t: Tracker, uid: int)
  {
    && (forall d :: d in t.connectedDevices ==> t.connectedDevices[d] == uid)
    && t.lastBothConnected == None
    && t.lastActive == None
    && t.trackedTime == 0.0
  }

  lemma {:induction false} RunUnbilled(t: Tracker, events: seq<Event>, uid: int)
    requires Unbilled(t, uid) && OneUser(events, uid)
    ensures Unbilled(Run(t, events), uid)
    decreases |events|
  {
    if events != [] {
      var e := events[0];
      assert !TwoUsers(t.connectedDevices);
      if IsConnectEvent(e) {
        assert !TwoUsers(t.connectedDevices[e.d := e.u]);
      }
      if !IsEndEvent(e) {
        RunUnbilled(Apply(t, e), events[1..], uid);
      }
    }
  }

  /**
   * One user, on any number of devices, never opens an interval: nothing is
   * tracked, the session is never active and it is never in progress.
   */
  lemma SingleUserNeverBills(events: seq<Event>, uid: int)
    requires OneUser(events, uid)
    ensures Billing(events).trackedTime == 0.0
    ensures Billing(events).lastActive == None
    ensures Billing(events).state != InProgress
  {
    RunUnbilled(Initial, events, uid);
  }

  /** `trackedTime` is not negative and an open interval started no later than the next event. */
  ghost predicate Timely(t: Tracker, events: seq<Event>)
  {
    && t.trackedTime >= 0.0
    && (t.lastBothConnected.Some? && events != [] ==> t.lastBothConnected.value <= events[0].c)
  }

  lemma {:induction false} RunTimely(t: Tracker, events: seq<Event>)
    requires SortedByTime(events) && Timely(t, events)
    ensures Run(t, events).trackedTime >= 0.0
    decreases |events|
  {
    if events != [] && !IsEndEvent(events[0]) {
      var rest := events[1..];
      assert SortedByTime(rest) by {
        forall i, j | 0 <= i < j < |rest| ensures rest[i].c <= rest[j].c {
          assert rest[i] == events[i + 1] && rest[j] == events[j + 1];
        }
      }
      if rest != [] {
        assert events[0].c <= rest[0].c;
      }
      RunTimely(Apply(t, events[0]), rest);
    }
  }

  /** On a log sorted by time, which is what the flattener produces, `trackedTime` is never negative. */
  lemma TrackedTimeNonNegative(events: seq<Event>)
    requires SortedByTime(events)
    ensures Billing(events).trackedTime >= 0.0
  {
    RunTimely(Initial, events);
  }

  /** Every connect in `events` carries the user `owner` gives its device. */
  ghost predicate Owned(events: seq<Event>, owner: string -> int)
  {
    forall i :: 0 <= i < |events| && IsConnectEvent(events[i]) ==> events[i].u == owner(events[i].d)
  }

  /** Devices carry their owners, and an interval is open exactly while two users are connected and not paused. */
  ghost predicate Accounting(t: Tracker, owner: string -> int)
  {
    && (forall d :: d in t.connectedDevices ==> t.connectedDevices[d] == owner(d))
    && (t.lastBothConnected.Some? <==> !t.paused && TwoUsers(t.connectedDevices))
  }

  /** Connecting a device to the user it already carries, or a new device, keeps two users connected. */
  lemma TwoUsersGrows(m: map<string, int>, d: string, u: int)
    requires d in m ==> m[d] == u
    requires TwoUsers(m)
    ensures TwoUsers(m[d := u])
  {
    var d1, d2 :| d1 in m && d2 in m && m[d1] != m[d2];
    assert m[d := u][d1] == m[d1] && m[d := u][d2] == m[d2];
  }

  lemma {:induction false} RunAccounting(t: Tracker, events: seq<Event>, owner: string -> int)
    requires Accounting(t, owner) && Owned(events, owner)
    requires forall i :: 0 <= i < |events| ==> !IsEndEvent(events[i])
    ensures Accounting(Run(t, events), owner)
    decreases |events|
  {
    if events != [] {
      var e := events[0];
      if IsConnectEvent(e) && TwoUsers(t.connectedDevices) {
        TwoUsersGrows(t.connectedDevices, e.d, e.u);
      }
      RunAccounting(Apply(t, e), events[1..], owner);
    }
  }

  /**
   * When every device always carries the same user and no End has been seen,
   * the session is IN_PROGRESS exactly while an interval is open.
   */
  lemma InProgressIffOpen(events: seq<Event>, owner: string -> int)
    requires Owned(events, owner)
    requires forall i :: 0 <= i < |events| ==> !IsEndEvent(events[i])
    ensures Billing(events).state == InProgress <==> Run(Initial, events).lastBothConnected.Some?
  {
    RunAccounting(Initial, events, owner);
  }

  /** Both users connected from 1 to 3 are tracked for 2. */
  lemma TrackedIntervalExample()
    ensures Billing([Connect(0.0, 1, "1"), Connect(1.0, 2, "2"), Disconnect(3.0, 2, "2")]).trackedTime == 2.0
  {
    var m := map["1" := 1, "2" := 2];
    assert m["1"] != m["2"];
  }

  /** A pause from 3 to 4 is not tracked; the End at 6 closes the interval. */
  lemma PauseExample()
    ensures Billing([Connect(0.0, 1, "1"), Connect(1.0, 2, "2"), Pause(3.0), Unpause(4.0), End(6.0)]).trackedTime == 4.0
  {
    var m := map["1" := 1, "2" := 2];
    assert m["1"] != m["2"];
  }

  /** Unpausing makes the session active again. */
  lemma LastActiveExample()
    ensures Billing([Connect(0.0, 1, "1"), Connect(1.0, 2, "2"), Pause(2.0), Unpause(3.0)]).lastActive == Some(3.0)
  {
    var m := map["1" := 1, "2" := 2];
    assert m["1"] != m["2"];
  }

  /** Unpausing with one user left keeps the earlier active time. */
  lemma LastActiveOneUserExample()
    ensures Billing([Connect(0.0, 1, "1"), Connect(1.0, 2, "2"), Pause(2.0), Disconnect(3.0, 1, "1"), Unpause(4.0)]).lastActive == Some(1.0)
  {
    var m := map["1" := 1, "2" := 2];
    assert m["1"] != m["2"];
  }

  /** The state time is that of the last event, and a pause leaves the session paused. */
  lemma PausedExample()
    ensures Billing([Start(0.0), Pause(1.0)]) == BillingState(Paused, 0.0, None, Some(1.0))
  {
  }

  /** Two users connected while paused: still paused. */
  lemma PausedWithTwoUsersExample()
    ensures Billing([Start(0.0), Connect(1.0, 1, "1"), Pause(2.0), Connect(3.0, 2, "2")]).state == Paused
  {
  }

  /** A user disconnecting leaves the session idle. */
  lemma IdleAfterDisconnectExample()
    ensures Billing([Connect(0.0, 1, "1"), Connect(1.0, 2, "2"), Disconnect(2.0, 2, "2")]).state == Idle
  {
    var m := map["1" := 1, "2" := 2];
    assert m["1"] != m["2"];
  }
}
