/**
 * The whole flattening pipeline (flattenEventStream in src/flatten.ts):
 * sort the log by time, split it into device buckets and retained global
 * events, flatten every bucket, and sort the concatenation again.
 */
module Flatten {
  import opened Wrappers
  import opened Events
  import opened Partition
  import opened DeviceFlatten

  /** Inserts `x` before the first event that is not earlier than it. */
  function Insert(x: Event, s: seq<Event>): (r: seq<Event>)
    ensures multiset(r) == multiset(s) + multiset{x}
  {
    if s == [] || x.c <= s[0].c then [x] + s
    else
      assert s == [s[0]] + s[1..];
      [s[0]] + Insert(x, s[1..])
  }

  /** Inserting an event no earlier than `b` into events no earlier than `b` keeps them all no earlier than `b`. */
  lemma {:induction false} InsertBounded(x: Event, s: seq<Event>, b: Time)
    requires b <= x.c && forall i :: 0 <= i < |s| ==> b <= s[i].c
    ensures forall i :: 0 <= i < |Insert(x, s)| ==> b <= Insert(x, s)[i].c
  {
    if s != [] && s[0].c < x.c {
      InsertBounded(x, s[1..], b);
      assert Insert(x, s) == [s[0]] + Insert(x, s[1..]);
    }
  }

  lemma {:induction false} InsertSorted(x: Event, s: seq<Event>)
    requires SortedByTime(s)
    ensures SortedByTime(Insert(x, s))
  {
    if s != [] && s[0].c < x.c {
      var t := Insert(x, s[1..]);
      InsertSorted(x, s[1..]);
      InsertBounded(x, s[1..], s[0].c);
      assert Insert(x, s) == [s[0]] + t;
    }
  }

  /**
   * Sorting by time, as the comparator `a.c - b.c` does: the result is
   * sorted and holds the same events, each as often.
   */
  function SortByTime(s: seq<Event>): (r: seq<Event>)
    ensures SortedByTime(r)
    ensures multiset(r) == multiset(s)
  {
    if s == [] then []
    else
      assert s == [s[0]] + s[1..];
      InsertSorted(s[0], SortByTime(s[1..]));
      Insert(s[0], SortByTime(s[1..]))
  }

  /** Timestamps strictly increasing: no two events at the same time. */
  predicate StrictlyTimed(s: seq<Event>)
  {
    forall i, j :: 0 <= i < j < |s| ==> s[i].c < s[j].c
  }

  lemma SameFirst(a: seq<Event>, b: seq<Event>)
    requires a != [] && SortedByTime(a) && StrictlyTimed(b) && multiset(a) == multiset(b)
    ensures b != [] && a[0] == b[0]
  {
    assert a[0] in multiset(b) && a[0] in b;
    var j :| 0 <= j < |b| && b[j] == a[0];
    assert b[0] in multiset(a) && b[0] in a;
    var i :| 0 <= i < |a| && a[i] == b[0];
    assert a[0].c <= a[i].c;
    assert j == 0;
  }

  lemma SameRest(a: seq<Event>, b: seq<Event>)
    requires a != [] && b != [] && a[0] == b[0] && multiset(a) == multiset(b)
    ensures multiset(a[1..]) == multiset(b[1..])
  {
    assert a == [a[0]] + a[1..] && b == [b[0]] + b[1..];
    assert multiset(a[1..]) == multiset(a) - multiset([a[0]]);
  }

  /** Two sorted arrangements of the same events, one with distinct times, are equal. */
  lemma {:induction false} SortedArrangementUnique(a: seq<Event>, b: seq<Event>)
    requires SortedByTime(a) && StrictlyTimed(b) && multiset(a) == multiset(b)
    ensures a == b
  {
    if a == [] {
      assert |b| == |multiset(b)| == 0;
    } else {
      SameFirst(a, b);
      SameRest(a, b);
      SortedArrangementUnique(a[1..], b[1..]);
      assert a == [a[0]] + a[1..] && b == [b[0]] + b[1..];
    }
  }

  /**
   * With distinct timestamps the sort is determined by the events alone: any
   * arrangement of the events of `b`, sorted, is `b`.
   */
  lemma SortByTimeDetermined(s: seq<Event>, b: seq<Event>)
    requires StrictlyTimed(b) && multiset(s) == multiset(b)
    ensures SortByTime(s) == b
  {
    SortedArrangementUnique(SortByTime(s), b);
  }

  /** The flattened buckets of the devices `ids`, concatenated in that order. */
  function FlattenedDevices(ids: seq<string>, scanned: seq<Event>, ttl: Time, currentTime: Option<Time>): seq<DeviceEvent>
  {
    if ids == [] then []
    else FlattenedDevices(ids[..|ids| - 1], scanned, ttl, currentTime)
         + Flattened(Bucket(scanned, ids[|ids| - 1]), ttl, currentTime)
  }

  /** The events collected before the final sort, for a log already sorted by time. */
  function Collected(sorted: seq<Event>, ttl: Time, currentTime: Option<Time>): seq<Event>
  {
    var scanned := Scanned(sorted);
    Retained(scanned) + FlattenedDevices(DeviceOrder(scanned), scanned, ttl, currentTime)
  }

  /** The flattened log: sorted by time, and a permutation of what was collected from the sorted input. */
  function FlattenedLog(events: seq<Event>, ttl: Time, currentTime: Option<Time>): (r: seq<Event>)
    ensures SortedByTime(r)
    ensures multiset(r) == multiset(Collected(SortByTime(events), ttl, currentTime))
  {
    SortByTime(Collected(SortByTime(events), ttl, currentTime))
  }

  lemma FlattenedDevicesStep(ids: seq<string>, i: nat, scanned: seq<Event>, ttl: Time, currentTime: Option<Time>)
    requires i < |ids|
    ensures FlattenedDevices(ids[..i + 1], scanned, ttl, currentTime)
      == FlattenedDevices(ids[..i], scanned, ttl, currentTime) + Flattened(Bucket(scanned, ids[i]), ttl, currentTime)
  {
    assert ids[..i + 1][..i] == ids[..i];
  }

  lemma AppendAssociates(a: seq<Event>, b: seq<Event>, c: seq<Event>)
    ensures (a + b) + c == a + (b + c)
  {
  }

  method FlattenEventStream(events: seq<Event>, ttl: Time, currentTime: Option<Time>) returns (result: seq<Event>)
    ensures result == FlattenedLog(events, ttl, currentTime)
  {
    var sorted := SortByTime(events);
    var deviceStreams, deviceOrder, otherEvents := FindDeviceStreams(sorted);
    result := otherEvents;
    for i := 0 to |deviceOrder|
      invariant result == otherEvents + FlattenedDevices(deviceOrder[..i], Scanned(sorted), ttl, currentTime)
    {
      var deviceId := deviceOrder[i];
      var flat := FlattenDeviceStream(deviceStreams[deviceId], ttl, currentTime);
      FlattenedDevicesStep(deviceOrder, i, Scanned(sorted), ttl, currentTime);
      AppendAssociates(otherEvents, FlattenedDevices(deviceOrder[..i], Scanned(sorted), ttl, currentTime), flat);
      result := result + flat;
    }
    assert deviceOrder[..|deviceOrder|] == deviceOrder;
    result := SortByTime(result);
  }

  /** Events are kept by sorting: the same events, each as often. */
  lemma SortKeepsEvents(s: seq<Event>)
    ensures forall x :: x in SortByTime(s) <==> x in s
  {
    forall x ensures x in SortByTime(s) <==> x in s {
      assert x in multiset(SortByTime(s)) <==> x in multiset(s);
    }
  }

  /**
   * Where a device event of the output comes from: it is an event of the
   * inspected prefix, or a synthetic disconnect half a ttl after a connect of
   * the prefix on the same device, for a user seen on that device.
   */
  ghost predicate Origin(x: DeviceEvent, scanned: seq<Event>, ttl: Time)
  {
    || x in scanned
    || (&& IsDisconnectEvent(x)
        && (exists y :: y in scanned && IsConnectEvent(y) && y.d == x.d && x.c == Midpoint(y.c, ttl))
        && (exists z :: z in scanned && IsDeviceEvent(z) && z.u == x.u && z.d == x.d))
  }

  lemma BucketOrigin(scanned: seq<Event>, id: string, ttl: Time, currentTime: Option<Time>)
    ensures forall x :: x in Flattened(Bucket(scanned, id), ttl, currentTime) ==> Origin(x, scanned, ttl)
  {
    var b := Bucket(scanned, id);
    FlattenedGrounded(b, ttl, currentTime);
    BucketMembers(scanned, id);
    forall x | x in Flattened(b, ttl, currentTime)
      ensures Origin(x, scanned, ttl)
    {
      assert Grounded(x, b, ttl);
      if x !in b {
        var j :| 0 <= j < |b| && IsConnectEvent(b[j]) && x.c == Midpoint(b[j].c, ttl);
        var k :| 0 <= k < |b| && x.u == b[k].u && x.d == b[k].d;
        assert b[j] in b && b[k] in b;
      }
    }
  }

  lemma {:induction false} FlattenedDevicesOrigin(ids: seq<string>, scanned: seq<Event>, ttl: Time, currentTime: Option<Time>)
    ensures forall x :: x in FlattenedDevices(ids, scanned, ttl, currentTime) ==> Origin(x, scanned, ttl)
  {
    if ids != [] {
      FlattenedDevicesOrigin(ids[..|ids| - 1], scanned, ttl, currentTime);
      BucketOrigin(scanned, ids[|ids| - 1], ttl, currentTime);
    }
  }

  /**
   * What the flattened log holds, in terms of the time-sorted input and the
   * prefix of it the scan inspects (up to and including the first End):
   * a global event appears exactly when the scan retained it, and every
   * device event comes from that prefix or is a synthetic disconnect. So no
   * event sorting after the first End appears, unless it is a synthetic
   * disconnect.
   */
  lemma FlattenedLogContents(events: seq<Event>, ttl: Time, currentTime: Option<Time>)
    ensures var scanned := Scanned(SortByTime(events));
      && (forall x :: !IsDeviceEvent(x) ==> (x in FlattenedLog(events, ttl, currentTime) <==> x in Retained(scanned)))
      && (forall x :: x in FlattenedLog(events, ttl, currentTime) && IsDeviceEvent(x) ==> Origin(x, scanned, ttl))
  {
    var sorted := SortByTime(events);
    var scanned := Scanned(sorted);
    var collected := Collected(sorted, ttl, currentTime);
    var log := FlattenedLog(events, ttl, currentTime);
    SortKeepsEvents(collected);
    RetainedAreGlobal(scanned);
    FlattenedDevicesOrigin(DeviceOrder(scanned), scanned, ttl, currentTime);
    forall x | !IsDeviceEvent(x)
      ensures x in log <==> x in Retained(scanned)
    {
      assert x !in FlattenedDevices(DeviceOrder(scanned), scanned, ttl, currentTime);
    }
  }

  /** Every Start and every End the scan inspects is in the flattened log. */
  lemma StartAndEndReachLog(events: seq<Event>, ttl: Time, currentTime: Option<Time>)
    ensures forall x ::
      x in Scanned(SortByTime(events)) && (IsStartEvent(x) || IsEndEvent(x)) ==> x in FlattenedLog(events, ttl, currentTime)
  {
    StartAndEndRetained(Scanned(SortByTime(events)));
    FlattenedLogContents(events, ttl, currentTime);
  }

  /** Once a sorted log holds an End, whatever follows it changes nothing. */
  lemma CollectedStopsAtEnd(sorted: seq<Event>, later: seq<Event>, ttl: Time, currentTime: Option<Time>)
    requires exists j :: 0 <= j < |sorted| && IsEndEvent(sorted[j])
    ensures Collected(sorted + later, ttl, currentTime) == Collected(sorted, ttl, currentTime)
  {
    ScanStopsAtEnd(sorted, later);
  }

  lemma SortPair(x: Event, z: Event)
    requires x.c <= z.c
    ensures SortByTime([z]) == [z] && SortByTime([x, z]) == [x, z]
  {
    assert SortByTime([z]) == [z] by {
      assert [z][1..] == [];
      assert Insert(z, []) == [z];
    }
    assert [x, z][1..] == [z];
    assert Insert(x, [z]) == [x, z];
  }

  lemma InsertIntoPair(y: Event, x: Event, z: Event)
    requires x.c < y.c < z.c
    ensures Insert(y, [x, z]) == [x, y, z]
  {
    assert Insert(y, [z]) == [y, z];
    assert [x, z][1..] == [z];
  }

  lemma SortMovesFirstToMiddle(y: Event, x: Event, z: Event)
    requires x.c < y.c < z.c
    ensures SortByTime([y, x, z]) == [x, y, z]
  {
    SortPair(x, z);
    InsertIntoPair(y, x, z);
    assert [y, x, z][1..] == [x, z];
  }

  /** How the scan splits a connect followed by an End. */
  lemma ScanConnectThenEnd(x: Event, y: Event)
    requires IsConnectEvent(x) && IsEndEvent(y)
    ensures var s := [x, y];
      && Scanned(s) == s
      && DeviceOrder(s) == [x.d]
      && Retained(s) == [y]
      && Bucket(s, x.d) == [x]
  {
    var s := [x, y];
    assert ScanLength(s) == 2 by {
      assert s[1..] == [y];
      assert ScanLength([y]) == 1;
    }
    assert s[..2] == s;
    ScanOneMore([], x);
    ScanOneMore([x], y);
    assert [] + [x] == [x] && [x] + [y] == s;
    BucketOneMore([], x, x.d);
    BucketOneMore([x], y, x.d);
  }

  /** The collected log when the scanned prefix names a single device. */
  lemma CollectedOneDevice(s: seq<Event>, d: string, ttl: Time, currentTime: Option<Time>)
    requires Scanned(s) == s && DeviceOrder(s) == [d]
    ensures Collected(s, ttl, currentTime) == Retained(s) + Flattened(Bucket(s, d), ttl, currentTime)
  {
    assert [d][..0] == [];
    assert FlattenedDevices([d], s, ttl, currentTime) == Flattened(Bucket(s, d), ttl, currentTime);
  }

  /**
   * A synthetic disconnect can sort after the End that stopped the scan: a
   * device connected at `c` and an End less than half a ttl later, flattened
   * at least a ttl after `c`, give a disconnect after the End.
   */
  lemma DisconnectAfterEnd(c: Time, u: int, d: string, t: Time, ttl: Time, now: Time)
    requires c < t < Midpoint(c, ttl) && now - c >= ttl
    ensures FlattenedLog([Connect(c, u, d), End(t)], ttl, Some(now)) == [Connect(c, u, d), End(t), Disconnect(Midpoint(c, ttl), u, d)]
  {
    var x, y, z := Connect(c, u, d), End(t), Disconnect(Midpoint(c, ttl), u, d);
    var s := [x, y];
    assert SortByTime(s) == s by {
      assert SortByTime([y]) == [y] by {
        assert [y][1..] == [];
        assert Insert(y, []) == [y];
      }
      assert s[1..] == [y];
      assert Insert(x, [y]) == s;
    }
    ScanConnectThenEnd(x, y);
    CollectedOneDevice(s, d, ttl, Some(now));
    TrailingAfterSingleConnect(x, ttl, now);
    assert Collected(s, ttl, Some(now)) == [y] + [x, z];
    SortMovesFirstToMiddle(y, x, z);
  }

  /** A log whose third event is its first End is inspected up to that End. */
  lemma ScannedToThirdEnd(a: Event, b: Event, e: Event, later: Event)
    requires !IsEndEvent(a) && !IsEndEvent(b) && IsEndEvent(e)
    ensures Scanned([a, b, e, later]) == [a, b, e]
  {
    ScannedUpToEnd([a, b, e, later], 2);
    assert [a, b, e, later][..3] == [a, b, e];
  }

  /** A start, a pause and an End are all retained, and no device is seen. */
  lemma RetainedStartPauseEnd(s: Event, p: Event, e: Event)
    requires IsStartEvent(s) && IsPauseEvent(p) && IsEndEvent(e)
    ensures Retained([s, p, e]) == [s, p, e] && DeviceOrder([s, p, e]) == []
  {
    ScanOneMore([], s);
    ScanOneMore([s], p);
    ScanOneMore([s, p], e);
    assert [] + [s] == [s] && [s] + [p] == [s, p] && [s, p] + [e] == [s, p, e];
  }

  /** What is collected from a start, a pause, an End and anything after it. */
  lemma CollectedStartPauseEnd(s: Event, p: Event, e: Event, later: Event, ttl: Time, currentTime: Option<Time>)
    requires IsStartEvent(s) && IsPauseEvent(p) && IsEndEvent(e)
    ensures Collected([s, p, e, later], ttl, currentTime) == [s, p, e]
  {
    ScannedToThirdEnd(s, p, e, later);
    RetainedStartPauseEnd(s, p, e);
    assert [s, p, e] + [] == [s, p, e];
  }

  /** Sorting three events already in strict time order leaves them as they are. */
  lemma SortInOrderOfThree(x: Event, y: Event, z: Event)
    requires x.c < y.c < z.c
    ensures SortByTime([x, y, z]) == [x, y, z]
  {
    SortByTimeDetermined([x, y, z], [x, y, z]);
  }

  /** Sorting four events already in strict time order leaves them as they are. */
  lemma SortInOrderOfFour(w: Event, x: Event, y: Event, z: Event)
    requires w.c < x.c < y.c < z.c
    ensures SortByTime([w, x, y, z]) == [w, x, y, z]
  {
    SortByTimeDetermined([w, x, y, z], [w, x, y, z]);
  }

  /**
   * A start, a pause, an End and an unpause, in that time order: the unpause
   * after the End is lost, whatever the ttl and the current time.
   */
  lemma StopOnEnd(s: Event, p: Event, e: Event, u: Event, ttl: Time, currentTime: Option<Time>)
    requires IsStartEvent(s) && IsPauseEvent(p) && IsEndEvent(e) && IsUnpauseEvent(u)
    requires s.c < p.c < e.c < u.c
    ensures FlattenedLog([s, p, e, u], ttl, currentTime) == [s, p, e]
  {
    SortInOrderOfFour(s, p, e, u);
    CollectedStartPauseEnd(s, p, e, u, ttl, currentTime);
    SortInOrderOfThree(s, p, e);
  }

  /** Retained events and device order of a start, a connect and an End. */
  lemma RetainedStartConnectEnd(s: Event, c: Event, e: Event)
    requires IsStartEvent(s) && IsConnectEvent(c) && IsEndEvent(e)
    ensures Retained([s, c, e]) == [s, e] && DeviceOrder([s, c, e]) == [c.d]
  {
    ScanOneMore([], s);
    ScanOneMore([s], c);
    ScanOneMore([s, c], e);
    assert [] + [s] == [s] && [s] + [c] == [s, c] && [s, c] + [e] == [s, c, e];
  }
  /** The bucket of the connect's device holds only the connect. */
  lemma BucketStartConnectEnd(s: Event, c: Event, e: Event)
    requires IsStartEvent(s) && IsConnectEvent(c) && IsEndEvent(e)
    ensures Bucket([s, c, e], c.d) == [c]
  {
    BucketOneMore([], s, c.d);
    BucketOneMore([s], c, c.d);
    BucketOneMore([s, c], e, c.d);
    assert [] + [s] == [s] && [s] + [c] == [s, c] && [s, c] + [e] == [s, c, e];
  }

  /** What is collected from a start, a connect, an End and anything after it. */
  lemma CollectedStartConnectEnd(s: Event, c: Event, e: Event, later: Event, ttl: Time, currentTime: Option<Time>)
    requires IsStartEvent(s) && IsConnectEvent(c) && IsEndEvent(e)
    ensures Collected([s, c, e, later], ttl, currentTime) == [s, e] + Flattened([c], ttl, currentTime)
  {
    ScannedToThirdEnd(s, c, e, later);
    RetainedStartConnectEnd(s, c, e);
    BucketStartConnectEnd(s, c, e);
    assert [c.d][..0] == [];
    assert FlattenedDevices([c.d], [s, c, e], ttl, currentTime) == [] + Flattened([c], ttl, currentTime);
  }

  /** A connect not yet a ttl old gets no disconnect, so it is collected as it is. */
  lemma CollectedYoungConnect(s: Event, c: Event, e: Event, later: Event, ttl: Time, currentTime: Option<Time>)
    requires IsStartEvent(s) && IsConnectEvent(c) && IsEndEvent(e)
    requires currentTime == None || currentTime.value - c.c < ttl
    ensures Collected([s, c, e, later], ttl, currentTime) == [s, e, c]
  {
    CollectedStartConnectEnd(s, c, e, later, ttl, currentTime);
    assert Flattened([c], ttl, currentTime) == [c];
    assert [s, e] + [c] == [s, e, c];
  }

  /** Sorting three events whose last two are out of time order swaps those two. */
  lemma SortSwapsLastOfThree(x: Event, y: Event, z: Event)
    requires x.c < z.c < y.c
    ensures SortByTime([x, y, z]) == [x, z, y]
  {
    assert multiset([x, y, z]) == multiset([x, z, y]);
    SortByTimeDetermined([x, y, z], [x, z, y]);
  }

  /** Sorting four events whose last two are out of time order swaps those two. */
  lemma SortSwapsLastOfFour(w: Event, x: Event, y: Event, z: Event)
    requires w.c < x.c < z.c < y.c
    ensures SortByTime([w, x, y, z]) == [w, x, z, y]
  {
    assert multiset([w, x, y, z]) == multiset([w, x, z, y]);
    SortByTimeDetermined([w, x, y, z], [w, x, z, y]);
  }

  /**
   * A start, a connect, an End and a disconnect of that device, in that time
   * order but listed with the disconnect before the End: the log is sorted
   * first, so the disconnect falls after the End and is lost. The connect is
   * not yet a ttl old, so no disconnect is added for it.
   */
  lemma SortThenStop(s: Event, c: Event, d: Event, e: Event, ttl: Time, currentTime: Option<Time>)
    requires IsStartEvent(s) && IsConnectEvent(c) && IsDisconnectEvent(d) && IsEndEvent(e)
    requires s.c < c.c < e.c < d.c
    requires currentTime == None || currentTime.value - c.c < ttl
    ensures FlattenedLog([s, c, d, e], ttl, currentTime) == [s, c, e]
  {
    assert SortByTime([s, c, d, e]) == [s, c, e, d] by {
      SortSwapsLastOfFour(s, c, d, e);
    }
    CollectedYoungConnect(s, c, e, d, ttl, currentTime);
    assert SortByTime([s, e, c]) == [s, c, e] by {
      SortSwapsLastOfThree(s, e, c);
    }
  }

  /** The sort-input example of the tests: times 1, 2, 4, 3, a ttl of 4 and current time 4. */
  lemma SortThenStopExample()
    ensures FlattenedLog([Start(1.0), Connect(2.0, 1, "1"), Disconnect(4.0, 1, "1"), End(3.0)], 4.0, Some(4.0))
      == [Start(1.0), Connect(2.0, 1, "1"), End(3.0)]
  {
    SortThenStop(Start(1.0), Connect(2.0, 1, "1"), Disconnect(4.0, 1, "1"), End(3.0), 4.0, Some(4.0));
  }

  /** The stop-on-End example of the tests: times 1 to 4, a ttl of 4 and current time 10. */
  lemma StopOnEndExample()
    ensures FlattenedLog([Start(1.0), Pause(2.0), End(3.0), Unpause(4.0)], 4.0, Some(10.0))
      == [Start(1.0), Pause(2.0), End(3.0)]
  {
    StopOnEnd(Start(1.0), Pause(2.0), End(3.0), Unpause(4.0), 4.0, Some(10.0));
  }
}
