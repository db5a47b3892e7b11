/**
 * Splitting a time-sorted log into one bucket per device and the retained
 * global events (findDeviceStreams in src/flatten.ts).
 *
 * The scan stops right after the first End event; the functions below
 * describe what it returns in terms of the prefix it inspects.
 */
module Partition {
  import opened Events

  /** Number of events the scan inspects: up to and including the first End, or all of them. */
  function ScanLength(s: seq<Event>): (n: nat)
    ensures n <= |s|
  {
    if s == [] then 0
    else if IsEndEvent(s[0]) then 1
    else 1 + ScanLength(s[1..])
  }

  /** The scan inspects events up to the first End and stops right after it. */
  lemma {:induction false} ScanLengthMeaning(s: seq<Event>)
    ensures forall j :: 0 <= j < ScanLength(s) - 1 ==> !IsEndEvent(s[j])
    ensures ScanLength(s) == |s| || (0 < ScanLength(s) && IsEndEvent(s[ScanLength(s) - 1]))
  {
    if s != [] && !IsEndEvent(s[0]) {
      ScanLengthMeaning(s[1..]);
    }
  }

  /** Whether the scan goes on after position `i`. */
  lemma ScanContinues(s: seq<Event>, i: nat)
    requires i < ScanLength(s)
    ensures IsEndEvent(s[i]) ==> ScanLength(s) == i + 1
    ensures !IsEndEvent(s[i]) ==> i + 1 <= ScanLength(s) && (i + 1 == ScanLength(s) ==> i + 1 == |s|)
  {
    ScanLengthMeaning(s);
  }

  /** The prefix of `s` the scan inspects. */
  function Scanned(s: seq<Event>): seq<Event>
  {
    s[..ScanLength(s)]
  }

  /** A log without End is inspected whole. */
  lemma ScannedWithoutEnd(s: seq<Event>)
    requires forall x :: x in s ==> !IsEndEvent(x)
    ensures Scanned(s) == s
  {
    ScanLengthMeaning(s);
    assert s[..|s|] == s;
  }

  /** A log whose first End is at `n` is inspected up to and including it. */
  lemma ScannedUpToEnd(s: seq<Event>, n: nat)
    requires n < |s| && IsEndEvent(s[n])
    requires forall i :: 0 <= i < n ==> !IsEndEvent(s[i])
    ensures Scanned(s) == s[..n + 1]
  {
    ScanLengthMeaning(s);
  }

  /** The `paused` flag of the scan after the events of `s`. */
  function PausedAfter(s: seq<Event>): bool
  {
    if s == [] then false
    else if IsPauseEvent(s[|s| - 1]) then true
    else if IsUnpauseEvent(s[|s| - 1]) then false
    else PausedAfter(s[..|s| - 1])
  }

  /** A pause while paused, or an unpause while not paused, is dropped. */
  predicate Ignored(e: Event, paused: bool)
  {
    (IsPauseEvent(e) && paused) || (IsUnpauseEvent(e) && !paused)
  }

  /** The global events of `s` that the scan keeps, in order. */
  function Retained(s: seq<Event>): seq<Event>
  {
    if s == [] then []
    else
      var init := s[..|s| - 1];
      var e := s[|s| - 1];
      assert s == init + [e];
      if IsDeviceEvent(e) || Ignored(e, PausedAfter(init)) then Retained(init)
      else Retained(init) + [e]
  }

  /** The device events of `s` that name `device`, in encounter order. */
  function Bucket(s: seq<Event>, device: string): seq<DeviceEvent>
  {
    if s == [] then []
    else
      var init := s[..|s| - 1];
      var e := s[|s| - 1];
      assert s == init + [e];
      if IsDeviceEvent(e) && e.d == device then Bucket(init, device) + [e]
      else Bucket(init, device)
  }

  /** The device ids of `s`, each once, in order of first appearance. */
  function DeviceOrder(s: seq<Event>): seq<string>
  {
    if s == [] then []
    else
      var init := s[..|s| - 1];
      var e := s[|s| - 1];
      if IsDeviceEvent(e) && e.d !in DeviceOrder(init) then DeviceOrder(init) + [e.d]
      else DeviceOrder(init)
  }

  /** How each spec function extends by one more inspected event. */
  lemma ScanOneMore(s: seq<Event>, e: Event)
    ensures PausedAfter(s + [e]) == if IsPauseEvent(e) then true else if IsUnpauseEvent(e) then false else PausedAfter(s)
    ensures Retained(s + [e]) == if IsDeviceEvent(e) || Ignored(e, PausedAfter(s)) then Retained(s) else Retained(s) + [e]
    ensures DeviceOrder(s + [e]) == if IsDeviceEvent(e) && e.d !in DeviceOrder(s) then DeviceOrder(s) + [e.d] else DeviceOrder(s)
  {
    assert (s + [e])[..|s + [e]| - 1] == s;
  }

  lemma BucketOneMore(s: seq<Event>, e: Event, k: string)
    ensures Bucket(s + [e], k) == if IsDeviceEvent(e) && e.d == k then Bucket(s, k) + [e] else Bucket(s, k)
  {
    assert (s + [e])[..|s + [e]| - 1] == s;
  }

  /** Appends `e` to the bucket of its device, creating the bucket (and its key) on first sight. */
  method FileDeviceEvent(deviceStreams: map<string, seq<DeviceEvent>>, deviceOrder: seq<string>, e: DeviceEvent)
    returns (streams: map<string, seq<DeviceEvent>>, order: seq<string>)
    ensures order == if e.d in deviceStreams then deviceOrder else deviceOrder + [e.d]
    ensures streams == deviceStreams[e.d := (if e.d in deviceStreams then deviceStreams[e.d] else []) + [e]]
  {
    streams, order := deviceStreams, deviceOrder;
    if e.d !in streams {
      streams := streams[e.d := []];
      order := order + [e.d];
    }
    streams := streams[e.d := streams[e.d] + [e]];
  }

  /** Keeps or drops one global event, tracking the pause flag. */
  method FileGlobalEvent(otherEvents: seq<Event>, paused: bool, e: Event)
    returns (other: seq<Event>, nowPaused: bool)
    requires !IsDeviceEvent(e)
    ensures nowPaused == if IsPauseEvent(e) then true else if IsUnpauseEvent(e) then false else paused
    ensures other == if Ignored(e, paused) then otherEvents else otherEvents + [e]
  {
    var ignore := false;
    nowPaused := paused;
    if IsPauseEvent(e) {
      ignore := nowPaused;
      nowPaused := true;
    } else if IsUnpauseEvent(e) {
      ignore := !nowPaused;
      nowPaused := false;
    }
    other := otherEvents;
    if !ignore {
      other := other + [e];
    }
  }

  /** What the scan's variables hold after inspecting `prefix`. */
  ghost predicate Summarizes(prefix: seq<Event>, deviceStreams: map<string, seq<DeviceEvent>>,
                             deviceOrder: seq<string>, otherEvents: seq<Event>, paused: bool)
  {
    && paused == PausedAfter(prefix)
    && otherEvents == Retained(prefix)
    && deviceOrder == DeviceOrder(prefix)
    && (forall k :: k in deviceStreams <==> k in deviceOrder)
    && (forall k :: k in deviceStreams ==> deviceStreams[k] == Bucket(prefix, k))
  }

  lemma DeviceEventFiled(events: seq<Event>, i: nat, deviceStreams: map<string, seq<DeviceEvent>>,
                         deviceOrder: seq<string>, otherEvents: seq<Event>, paused: bool)
    requires i < |events| && IsDeviceEvent(events[i])
    requires Summarizes(events[..i], deviceStreams, deviceOrder, otherEvents, paused)
    ensures var e := events[i]; Summarizes(events[..i + 1],
      deviceStreams[e.d := (if e.d in deviceStreams then deviceStreams[e.d] else []) + [e]],
      if e.d in deviceStreams then deviceOrder else deviceOrder + [e.d],
      otherEvents, paused)
  {
    var prefix, e := events[..i], events[i];
    assert events[..i + 1] == prefix + [e];
    ScanOneMore(prefix, e);
    DeviceOrderListsEachDeviceOnce(prefix);
    forall k ensures Bucket(prefix + [e], k) == if e.d == k then Bucket(prefix, k) + [e] else Bucket(prefix, k) {
      BucketOneMore(prefix, e, k);
    }
  }

  lemma GlobalEventFiled(events: seq<Event>, i: nat, deviceStreams: map<string, seq<DeviceEvent>>,
                         deviceOrder: seq<string>, otherEvents: seq<Event>, paused: bool)
    requires i < |events| && !IsDeviceEvent(events[i])
    requires Summarizes(events[..i], deviceStreams, deviceOrder, otherEvents, paused)
    ensures var e := events[i]; Summarizes(events[..i + 1], deviceStreams, deviceOrder,
      if Ignored(e, paused) then otherEvents else otherEvents + [e],
      if IsPauseEvent(e) then true else if IsUnpauseEvent(e) then false else paused)
  {
    var prefix, e := events[..i], events[i];
    assert events[..i + 1] == prefix + [e];
    ScanOneMore(prefix, e);
    forall k ensures Bucket(prefix + [e], k) == Bucket(prefix, k) {
      BucketOneMore(prefix, e, k);
    }
  }

  /**
   * The scan itself. The source's dictionary of buckets is a map together
   * with its keys in insertion order.
   */
  method FindDeviceStreams(events: seq<Event>)
    returns (deviceStreams: map<string, seq<DeviceEvent>>, deviceOrder: seq<string>, otherEvents: seq<Event>)
    ensures otherEvents == Retained(Scanned(events))
    ensures deviceOrder == DeviceOrder(Scanned(events))
    ensures forall k :: k in deviceStreams <==> k in deviceOrder
    ensures forall k :: k in deviceStreams ==> deviceStreams[k] == Bucket(Scanned(events), k)
  {
    deviceStreams, deviceOrder, otherEvents := map[], [], [];
    var paused := false;
    var i := 0;
    while i < |events|
      invariant i <= |events|
      invariant i <= ScanLength(events) && (i == ScanLength(events) ==> i == |events|)
      invariant Summarizes(events[..i], deviceStreams, deviceOrder, otherEvents, paused)
    {
      var event := events[i];
      ScanContinues(events, i);
      if IsDeviceEvent(event) {
        DeviceEventFiled(events, i, deviceStreams, deviceOrder, otherEvents, paused);
        deviceStreams, deviceOrder := FileDeviceEvent(deviceStreams, deviceOrder, event);
      } else {
        GlobalEventFiled(events, i, deviceStreams, deviceOrder, otherEvents, paused);
        otherEvents, paused := FileGlobalEvent(otherEvents, paused, event);
        if IsEndEvent(event) {
          i := i + 1;
          break;
        }
      }
      i := i + 1;
    }
    assert Scanned(events) == events[..i];
  }

  /** Only global events of the log are retained. */
  lemma {:induction false} RetainedAreGlobal(s: seq<Event>)
    ensures forall e :: e in Retained(s) ==> e in s && !IsDeviceEvent(e)
  {
    if s != [] {
      var init := s[..|s| - 1];
      RetainedAreGlobal(init);
      assert s == init + [s[|s| - 1]];
    }
  }

  /** A bucket holds exactly the device events of the log that name its device. */
  lemma {:induction false} BucketMembers(s: seq<Event>, device: string)
    ensures forall e :: e in Bucket(s, device) <==> e in s && IsDeviceEvent(e) && e.d == device
  {
    if s != [] {
      var init := s[..|s| - 1];
      BucketMembers(init, device);
      assert s == init + [s[|s| - 1]];
    }
  }

  /** The device order names every device that has a bucket, and each only once. */
  lemma {:induction false} DeviceOrderListsEachDeviceOnce(s: seq<Event>)
    ensures var ids := DeviceOrder(s);
      (forall i, j :: 0 <= i < j < |ids| ==> ids[i] != ids[j])
      && (forall k :: k in ids <==> Bucket(s, k) != [])
  {
    if s != [] {
      var init := s[..|s| - 1];
      var e := s[|s| - 1];
      assert s == init + [e];
      DeviceOrderListsEachDeviceOnce(init);
      ScanOneMore(init, e);
      var prev := DeviceOrder(init);
      if IsDeviceEvent(e) && e.d !in prev {
        var ids := prev + [e.d];
        forall i, j | 0 <= i < j < |ids|
          ensures ids[i] != ids[j]
        {
          assert ids[i] == prev[i];
          if j < |prev| {
            assert ids[j] == prev[j];
          }
        }
      }
      forall k
        ensures k in DeviceOrder(s) <==> Bucket(s, k) != []
      {
        BucketOneMore(init, e, k);
      }
    }
  }

  /** The pause and unpause events of `s`, in order. */
  function Toggles(s: seq<Event>): (t: seq<Event>)
    ensures forall e :: e in t ==> IsPauseEvent(e) || IsUnpauseEvent(e)
  {
    if s == [] then []
    else if IsPauseEvent(s[|s| - 1]) || IsUnpauseEvent(s[|s| - 1]) then Toggles(s[..|s| - 1]) + [s[|s| - 1]]
    else Toggles(s[..|s| - 1])
  }

  /**
   * Among the retained events, pauses and unpauses strictly alternate,
   * starting with a pause; the scan ends paused exactly when a pause is
   * the last of them.
   */
  lemma TogglesOneMore(s: seq<Event>, e: Event)
    ensures Toggles(s + [e]) == if IsPauseEvent(e) || IsUnpauseEvent(e) then Toggles(s) + [e] else Toggles(s)
  {
    assert (s + [e])[..|s + [e]| - 1] == s;
  }

  /** Appending a retained pause or unpause keeps the toggles alternating. */
  lemma AlternateStep(t: seq<Event>, e: Event)
    requires forall i :: 0 <= i < |t| ==> (IsPauseEvent(t[i]) <==> i % 2 == 0)
    requires (IsPauseEvent(e) && |t| % 2 == 0) || (IsUnpauseEvent(e) && |t| % 2 == 1)
    ensures forall i :: 0 <= i < |t + [e]| ==> (IsPauseEvent((t + [e])[i]) <==> i % 2 == 0)
    ensures IsPauseEvent(e) <==> |t + [e]| % 2 == 1
  {
    forall i | 0 <= i < |t + [e]|
      ensures IsPauseEvent((t + [e])[i]) <==> i % 2 == 0
    {
      if i < |t| {
        assert (t + [e])[i] == t[i];
      }
    }
  }

  lemma {:induction false} PauseUnpauseAlternate(s: seq<Event>)
    ensures forall i :: 0 <= i < |Toggles(Retained(s))| ==> (IsPauseEvent(Toggles(Retained(s))[i]) <==> i % 2 == 0)
    ensures PausedAfter(s) <==> |Toggles(Retained(s))| % 2 == 1
  {
    if s != [] {
      var init := s[..|s| - 1];
      var e := s[|s| - 1];
      assert s == init + [e];
      PauseUnpauseAlternate(init);
      ScanOneMore(init, e);
      var r := Retained(init);
      if !(IsDeviceEvent(e) || Ignored(e, PausedAfter(init))) {
        TogglesOneMore(r, e);
        if IsPauseEvent(e) || IsUnpauseEvent(e) {
          AlternateStep(Toggles(r), e);
        }
      }
    }
  }

  /** Start and End events are never dropped from the global events. */
  lemma {:induction false} StartAndEndRetained(s: seq<Event>)
    ensures forall e :: e in s && (IsStartEvent(e) || IsEndEvent(e)) ==> e in Retained(s)
  {
    if s != [] {
      var init := s[..|s| - 1];
      StartAndEndRetained(init);
      assert s == init + [s[|s| - 1]];
    }
  }

  /**
   * When the log holds an End, the first one is the last retained global
   * event and no other retained event is an End.
   */
  lemma EndIsLastRetained(s: seq<Event>)
    requires exists j :: 0 <= j < |s| && IsEndEvent(s[j])
    ensures var r := Retained(Scanned(s));
      r != [] && IsEndEvent(r[|r| - 1]) && r[|r| - 1] == s[ScanLength(s) - 1]
      && forall i :: 0 <= i < |r| - 1 ==> !IsEndEvent(r[i])
  {
    var n := ScanLength(s);
    ScanLengthMeaning(s);
    var j :| 0 <= j < |s| && IsEndEvent(s[j]);
    assert 0 < n && IsEndEvent(s[n - 1]);
    var scanned := s[..n];
    assert scanned[..n - 1] == s[..n - 1];
    var r := Retained(s[..n - 1]);
    RetainedAreGlobal(s[..n - 1]);
    assert Retained(scanned) == r + [s[n - 1]];
    forall i | 0 <= i < |r|
      ensures !IsEndEvent(r[i])
    {
      assert r[i] in s[..n - 1];
      var k :| 0 <= k < n - 1 && s[..n - 1][k] == r[i];
    }
  }

  lemma {:induction false} ScanLengthStops(s: seq<Event>, t: seq<Event>)
    requires exists j :: 0 <= j < |s| && IsEndEvent(s[j])
    ensures ScanLength(s + t) == ScanLength(s)
  {
    if !IsEndEvent(s[0]) {
      var j :| 0 <= j < |s| && IsEndEvent(s[j]);
      assert IsEndEvent(s[1..][j - 1]);
      assert (s + t)[1..] == s[1..] + t;
      ScanLengthStops(s[1..], t);
    }
  }

  /** Nothing after the first End is inspected: appending events to a log that holds an End changes nothing. */
  lemma ScanStopsAtEnd(s: seq<Event>, t: seq<Event>)
    requires exists j :: 0 <= j < |s| && IsEndEvent(s[j])
    ensures Scanned(s + t) == Scanned(s)
  {
    ScanLengthStops(s, t);
  }

  /** Repeated pauses collapse to the first, and an unpause while running is dropped. */
  lemma DuplicatePausesExample()
    ensures Retained([Pause(1.0), Pause(2.0), Unpause(3.0), Unpause(4.0)]) == [Pause(1.0), Unpause(3.0)]
  {
    var s := [Pause(1.0), Pause(2.0), Unpause(3.0), Unpause(4.0)];
    ScanOneMore([], Pause(1.0));
    assert [] + [Pause(1.0)] == s[..1];
    ScanOneMore(s[..1], Pause(2.0));
    assert s[..1] + [Pause(2.0)] == s[..2];
    ScanOneMore(s[..2], Unpause(3.0));
    assert s[..2] + [Unpause(3.0)] == s[..3];
    ScanOneMore(s[..3], Unpause(4.0));
    assert s[..3] + [Unpause(4.0)] == s;
  }
}
