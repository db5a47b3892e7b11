# kb-timetracking in Dafny

A model of the time-tracking core of kb-timetracking. The system reads a log of
timestamped session events. Some events belong to a device: a connect or a
disconnect, carrying a user id and a device id. The others are global: start, end,
pause and unpause. Several devices of up to two participants may report the same
facts more than once. The system turns the log into billing metrics in two stages.

- **Flattener** (`src/flatten.ts`). It sorts the log by time. It splits the log into
  one stream per device plus the global events; repeated pauses and unpauses are
  dropped and the scan stops at the first end event. Each device stream is
  normalised: a burst of connects within `ttl` of each other counts as one, repeated
  disconnects count as one. When the next event comes at least `ttl` after the
  latest connect seen, or the current time is that late, the open connect gets a
  synthetic disconnect half a `ttl` after that latest connect. The latest connect
  may be one of the merged ones, so with ttl 4 the connects at 0, 3 and 8 give a
  disconnect at 5. The pieces are concatenated and sorted again.
- **Reducer** (`src/reduce.ts`). A single pass over the normalised log. It keeps the
  devices currently connected, whether the session is paused, and the start of the
  open billable interval. Time is billed only while at least two distinct users are
  connected and the session is not paused. It returns:
  - the tracked time;
  - the last time billing (re)started;
  - the time of the last processed event;
  - the session state: idle, in progress or paused.

Modules:

| file | module | models |
|---|---|---|
| `wrappers.dfy` | `Wrappers` | `Option`, for the source's `null`able numbers |
| `events.dfy` | `Events` | `src/utils.ts`: events, kind predicates, `AppState`, `IBillingState` |
| `partition.dfy` | `Partition` | `findDeviceStreams` |
| `device_flatten.dfy` | `DeviceFlatten` | `flattenDeviceStream` |
| `flatten.dfy` | `Flatten` | `flattenEventStream`, the sort |
| `reduce.dfy` | `Reducer` | `connected`, `reduce` |
| `pipeline.dfy` | `Pipeline` | the composition `reduce(flattenEventStream(...))` |

Every loop of the source is a Dafny method with that loop, proved equal to a
specification function. The specification function is a fold over the input. The
properties are proved as lemmas about these functions:

| method | specification function |
|---|---|
| `Partition.FindDeviceStreams` | `Retained`, `Bucket`, `DeviceOrder` over `Scanned` |
| `DeviceFlatten.FlattenDeviceStream` | `Flattened` |
| `Flatten.FlattenEventStream` | `FlattenedLog` |
| `Reducer.Reduce` | `Billing` |
| `Reducer.Connected` | `TwoUsers` |

The JavaScript dictionaries become Dafny maps. `deviceStreams` also keeps a list of
its keys, because `flattenEventStream` concatenates the flattened streams in the
order `for ... in` walks the keys. The model uses first-appearance order;
"## Left out" says how `for ... in` differs for integer-like keys. The
`connectedDevices` dictionary becomes a `map`: `connected` does not depend on key
order, so the method picks keys in any order.

The types of `src/utils.ts` become datatypes in `Events`:

| type | source | Dafny |
|---|---|---|
| `AppState` | src/utils.ts:1-5 | `Events.AppState`: `Idle`, `InProgress`, `Paused` |
| `IAppEvent` and its six variants | src/utils.ts:7-40 | `Events.Event`, one constructor per tag; `c` is the time, `d` and `u` exist on connects and disconnects only |
| `IDeviceEvent` | src/utils.ts:42 | `Events.DeviceEvent`, the events for which `IsDeviceEvent` holds |
| `IBillingState` | src/utils.ts:44-49 | `Events.BillingState`, with `Option` for the `null`able fields |

## Model

| member | source | states |
|---|---|---|
| Events.IsDeviceEvent | src/utils.ts:51-53 | an event is a device event exactly when its tag is `c` or `d`, i.e. it is a connect or a disconnect |
| Events.IsConnectEvent | src/utils.ts:55-57 | tag `c` exactly for connects |
| Events.IsDisconnectEvent | src/utils.ts:59-61 | tag `d` exactly for disconnects |
| Events.IsPauseEvent | src/utils.ts:63-65 | tag `p` exactly for pauses |
| Events.IsUnpauseEvent | src/utils.ts:67-69 | tag `u` exactly for unpauses |
| Events.IsStartEvent | src/utils.ts:71-73 | tag `s` exactly for starts |
| Events.IsEndEvent | src/utils.ts:75-77 | tag `e` exactly for ends |
| Events.ExactlyOneKind | src/utils.ts:40-77 | every event satisfies exactly one of the six kind predicates; the device events are exactly the connects and disconnects |
| Partition.ScanLength | src/flatten.ts:31-53 | the number of events the scan inspects never exceeds the input length |
| Partition.ScanLengthMeaning | src/flatten.ts:49-51 | the scan inspects every event before the first End, includes that End, and inspects the whole log only when no End comes earlier |
| Partition.ScanStopsAtEnd | src/flatten.ts:49-51 | once the log holds an End, appending more events does not change the inspected prefix |
| Partition.Scanned | src/flatten.ts:31-53 | the prefix the scan inspects: the first `ScanLength` events; no contract of its own, its meaning is `ScanLengthMeaning` |
| Partition.ScannedWithoutEnd | src/flatten.ts:31-53 | a log without End is inspected whole |
| Partition.ScannedUpToEnd | src/flatten.ts:49-51 | a log whose first End is at position n is inspected up to and including n |
| Partition.PausedAfter | src/flatten.ts:30-45 | the `paused` flag after a prefix: set by the last pause or cleared by the last unpause, false before any; no contract of its own, `PauseUnpauseAlternate` relates it to the retained toggles |
| Partition.Retained | src/flatten.ts:37-48 | `otherEvents` after a prefix: the global events that are not a pause while paused or an unpause while running; no contract of its own, its properties are `RetainedAreGlobal`, `PauseUnpauseAlternate`, `StartAndEndRetained` and `EndIsLastRetained` |
| Partition.Bucket | src/flatten.ts:32-36 | `deviceStreams[k]` after a prefix: its device events that name k, in order; no contract of its own, its property is `BucketMembers` |
| Partition.DeviceOrder | src/flatten.ts:33-35 | the keys of `deviceStreams` in order of creation; no contract of its own, its property is `DeviceOrderListsEachDeviceOnce` |
| Partition.FileDeviceEvent | src/flatten.ts:32-36 | a device event is appended to its device's stream; the stream, and the device's place in the key order, are created on first sight |
| Partition.FileGlobalEvent | src/flatten.ts:37-48 | a pause while paused and an unpause while running are dropped, any other global event is appended; pause sets and unpause clears the flag |
| Partition.FindDeviceStreams | src/flatten.ts:24-55 | returns the retained global events, the device ids in first-appearance order, and for each id exactly the bucket of its events, all computed over the prefix up to the first End |
| Partition.RetainedAreGlobal | src/flatten.ts:32-48 | `otherEvents` holds only non-device events, each taken from the input |
| Partition.BucketMembers | src/flatten.ts:32-36 | a bucket holds exactly the input's device events with that device id |
| Partition.DeviceOrderListsEachDeviceOnce | src/flatten.ts:33-35 | every device with a non-empty bucket is listed once, and only those |
| Partition.Toggles | src/flatten.ts:38-48 | the pause/unpause subsequence holds only pauses and unpauses |
| Partition.PauseUnpauseAlternate | src/flatten.ts:38-48 | among retained events, pauses and unpauses strictly alternate starting with a pause; the flag is set exactly when a pause is the last of them |
| Partition.StartAndEndRetained | src/flatten.ts:46-48 | start and end events are never dropped |
| Partition.EndIsLastRetained | src/flatten.ts:46-51 | when the log has an End, the first End is the last retained global event and no other retained event is an End |
| Partition.DuplicatePausesExample | src/__tests__/flatten-test.ts:39-49 | pauses at 1 and 2 and unpauses at 3 and 4 retain only the pause at 1 and the unpause at 3 |
| DeviceFlatten.Step | src/flatten.ts:73-101 | one pass of the loop keeps the emitted stream non-empty |
| DeviceFlatten.StartScan | src/flatten.ts:62-68 | the state before the loop: the first event emitted, `lastConnected` its time when it is a connect; no contract of its own |
| DeviceFlatten.Run | src/flatten.ts:70-102 | the loop keeps the emitted stream non-empty |
| DeviceFlatten.RunKeepsEmitted | src/flatten.ts:81-96 | events are only ever appended to `result`, never removed |
| DeviceFlatten.Finish | src/flatten.ts:104-108 | the trailing step only appends to the stream |
| DeviceFlatten.Flattened | src/flatten.ts:57-111 | the output is empty exactly when the input is, and otherwise starts with the input's first event |
| DeviceFlatten.FlattenStep | src/flatten.ts:73-99 | one pass of the loop body updates `result` and `lastConnected` as one step of the specification |
| DeviceFlatten.FlattenDeviceStream | src/flatten.ts:57-111 | the method returns the flattened stream defined by `Flattened` |
| DeviceFlatten.StepCoherent | src/flatten.ts:73-101 | a step keeps the emitted stream alternating, and keeps `lastConnected` set whenever a connect was emitted last |
| DeviceFlatten.RunCoherent | src/flatten.ts:70-102 | the loop keeps that invariant |
| DeviceFlatten.FlattenedAlternates | src/flatten.ts:73-108 | no two consecutive output events are both connects or both disconnects |
| DeviceFlatten.RunLastConnected | src/flatten.ts:89 | `lastConnected` advances at every connect, dropped or not, and a disconnect never moves it |
| DeviceFlatten.LastConnectedIsLatestConnect | src/flatten.ts:65-68 | after the loop, `lastConnected` is the time of the input's latest connect |
| DeviceFlatten.TrailingDisconnect | src/flatten.ts:104-108 | with a current time, the output is the output without one, plus a disconnect at the latest connect plus ttl/2 exactly when the output ends on a connect and the current time is at least ttl after the latest connect |
| DeviceFlatten.StepSourced | src/flatten.ts:73-98 | every emitted event is an input event, or a synthetic disconnect at half a ttl after an input connect, with the user and device of an input event |
| DeviceFlatten.RunSourced | src/flatten.ts:70-102 | the loop keeps every emitted event grounded in the input that way |
| DeviceFlatten.FlattenedGrounded | src/flatten.ts:57-111 | every output event is an input event or such a synthetic disconnect |
| DeviceFlatten.FlattenedKeepsDevice | src/flatten.ts:57-111 | flattening one device's stream emits events of that device only |
| DeviceFlatten.SnocSorted | src/flatten.ts:81-96 | appending an event no earlier than the last keeps a stream sorted |
| DeviceFlatten.StepRules | src/flatten.ts:73-98 | a connect within ttl of the latest connect, right after a connect, is dropped; a gap of at least ttl after a connect inserts a disconnect at the latest connect plus ttl/2 (before a connect, or instead of a disconnect); a disconnect after a disconnect is dropped; every other event is emitted; a connect always moves `lastConnected` to its time |
| DeviceFlatten.StepOrdered | src/flatten.ts:73-98 | on sorted input with ttl >= 0, a step keeps the output sorted and a trailing connect no later than `lastConnected` |
| DeviceFlatten.RunOrdered | src/flatten.ts:70-102 | the loop keeps that invariant on sorted input |
| DeviceFlatten.FlattenedSorted | src/flatten.ts:57-111 | a time-sorted stream flattens, with ttl >= 0, to a time-sorted stream |
| DeviceFlatten.TrailingAfterSingleConnect | src/flatten.ts:104-108 | a lone connect flattened at least ttl after it is followed by a disconnect ttl/2 after it |
| DeviceFlatten.FlatteningIsNotIdempotent | src/flatten.ts:78-94 | with ttl 4, connects at 0, 3 and 6 and a disconnect at 8 flatten to [c0, d8]; flattening that again gives [c0, d2] |
| DeviceFlatten.ConnectsCollapseExample | src/__tests__/flatten-test.ts:109-134 | the empty stream stays empty; connects at 0..3 collapse into the first; a disconnect after them is kept |
| DeviceFlatten.TrailingDisconnectExample | src/__tests__/flatten-test.ts:136-154 | with current time 10 a disconnect at 5 is appended; with current time 5 nothing is appended |
| DeviceFlatten.TimeoutExample | src/__tests__/flatten-test.ts:156-185 | a connect 5 after a connect gets a disconnect at 2 before it; repeated disconnects collapse; a disconnect at 6 after a connect at 0 becomes one at 2 |
| DeviceFlatten.LatestConnectExample | src/flatten.ts:78-89 | with ttl 4, connects at 0, 3 and 8 give a disconnect at 5, half a ttl after the merged connect at 3 |
| DeviceFlatten.AppStreamDevicesExample | src/__tests__/flatten-test.ts:18-37 | the device streams of that test: connects at 2 and 6 on device 1 get disconnects at 4 and 8; the connect at 3 on device 2 gets one at 5 |
| Flatten.Insert | src/flatten.ts:14 | inserting keeps every event exactly once |
| Flatten.InsertBounded | src/flatten.ts:14 | inserting an event into events all no earlier than a bound keeps them all no earlier than it |
| Flatten.InsertSorted | src/flatten.ts:14 | inserting into a sorted log keeps it sorted |
| Flatten.SortByTime | src/flatten.ts:12-22 | sorting by `c` yields a time-sorted permutation of its input |
| Flatten.SortedArrangementUnique | src/flatten.ts:14 | two time-sorted sequences holding the same events, one with distinct times, are equal |
| Flatten.SortByTimeDetermined | src/flatten.ts:14 | with distinct timestamps, sorting any arrangement of the same events gives the same result |
| Flatten.FlattenedDevices | src/flatten.ts:17-19 | the flattened buckets of the listed devices, concatenated in list order; no contract of its own, its property is `FlattenedDevicesOrigin` |
| Flatten.Collected | src/flatten.ts:15-19 | the retained global events followed by the flattened device streams, before the final sort; no contract of its own, `FlattenedLog` is a sorted permutation of it |
| Flatten.FlattenedLog | src/flatten.ts:12-22 | the flattened log is sorted by time and is a permutation of the retained global events plus the flattened device streams |
| Flatten.FlattenEventStream | src/flatten.ts:12-22 | the method returns `FlattenedLog`: sort a copy, partition, concatenate the flattened streams device by device, sort again |
| Flatten.SortKeepsEvents | src/flatten.ts:12-22 | sorting neither adds nor loses events |
| Flatten.BucketOrigin | src/flatten.ts:17-19 | every event of a flattened bucket comes from the inspected input, or is a synthetic disconnect of that device |
| Flatten.FlattenedDevicesOrigin | src/flatten.ts:17-19 | the same holds for the concatenation of all flattened buckets |
| Flatten.FlattenedLogContents | src/flatten.ts:12-22 | a global event is in the output exactly when the scan retained it; every device event comes from the inspected prefix or is a synthetic disconnect |
| Flatten.StartAndEndReachLog | src/flatten.ts:46-51 | every inspected start and end event appears in the output |
| Flatten.CollectedStopsAtEnd | src/flatten.ts:49-51 | once the sorted log holds an End, later events change nothing |
| Flatten.SortMovesFirstToMiddle | src/flatten.ts:14 | sorting three events whose first lies between the others in time puts it in the middle |
| Flatten.ScanConnectThenEnd | src/flatten.ts:31-53 | a connect followed by an End is scanned whole: one device bucket holding the connect, and the End retained |
| Flatten.CollectedOneDevice | src/flatten.ts:15-19 | with a single device, the collected log is the retained events followed by that device's flattened stream |
| Flatten.DisconnectAfterEnd | src/flatten.ts:12-22 | a device connected at c, an End before c + ttl/2 and a current time at least ttl after c give a log whose synthetic disconnect sorts after the End |
| Flatten.CollectedStartPauseEnd | src/flatten.ts:31-53 | a start, a pause and an End are collected as they are, and whatever follows the End is not |
| Flatten.StopOnEnd | src/flatten.ts:12-22 | a start, a pause, an End and an unpause in time order flatten to the first three, for any ttl and current time |
| Flatten.StopOnEndExample | src/__tests__/flatten-test.ts:51-62 | the stop-on-End test: times 1 to 4, ttl 4, current time 10, give the start, pause and End |
| Flatten.CollectedYoungConnect | src/flatten.ts:15-19 | from a start, a connect less than a ttl old, an End and a later event, the start and End are collected followed by the connect alone |
| Flatten.SortThenStop | src/flatten.ts:12-22 | a disconnect listed before the End but timed after it is sorted past the End and lost; the young connect gets no disconnect |
| Flatten.SortThenStopExample | src/__tests__/flatten-test.ts:5-16 | the sort-input test: start 1, connect 2, disconnect 4, End 3, with ttl 4 and current time 4, give start, connect, End |
| Reducer.TwoUsers | src/reduce.ts:11-22 | the reference meaning of `connected`: two connected devices carry different user ids; `Connected` is proved equivalent to it |
| Reducer.Connected | src/reduce.ts:11-22 | `connected` returns true exactly when the devices carry at least two distinct user ids |
| Reducer.Reduce | src/reduce.ts:24-81 | the method returns `Billing(events)`, the fold of the loop body followed by the final-state choice |
| Reducer.Apply | src/reduce.ts:37-70 | one pass of the loop body; no contract of its own, its properties are `StateTimeRecorded`, `IntervalOpens`, `TrackedTimeOnClose` and the preserved invariants below |
| Reducer.Run | src/reduce.ts:36-71 | the loop as a fold of `Apply`, leaving after the first End; no contract of its own, its properties are `RunStopsAtEnd` and the `Run...` lemmas |
| Reducer.FinalState | src/reduce.ts:73-78 | the final-state choice; no contract of its own, `FinalStateMeaning` states it |
| Reducer.Billing | src/reduce.ts:24-81 | what `reduce` returns; no contract of its own, `Reduce` is proved to return it |
| Reducer.EmptyLog | src/reduce.ts:30-80 | an empty log gives IDLE, tracked time 0, no last-active time and no state time |
| Reducer.RunStopsAtEnd | src/reduce.ts:63-69 | the loop ends at the first End: events after it are never looked at |
| Reducer.EventsAfterEndIgnored | src/reduce.ts:63-69 | the result equals the result for the log cut just after its first End |
| Reducer.StateTimeRecorded | src/reduce.ts:63-70 | every event but End sets `stateTime` to its own time; End leaves it alone |
| Reducer.StateTimeWithoutEnd | src/reduce.ts:70 | with no End, `stateTime` is the time of the last event, or null for an empty log |
| Reducer.StateTimeAtFirstEnd | src/reduce.ts:63-70 | with the first End at n, `stateTime` is the time of event n-1, or null when n is 0 |
| Reducer.IntervalOpens | src/reduce.ts:37-62 | an interval opens, setting `lastBothConnected` and `lastActive` to the event time, exactly on a connect that makes `connected` true while not paused or on an unpause while connected; any other event keeps `lastActive` and never moves an open interval's start |
| Reducer.TrackedTimeOnClose | src/reduce.ts:44-69 | `trackedTime` changes only when an open unpaused interval closes (a disconnect that makes `connected` false, a pause, or an End), and then grows by the time since `lastBothConnected` |
| Reducer.RunOpenUnpaused | src/reduce.ts:36-71 | the loop keeps the invariant "an open interval is not paused" |
| Reducer.OpenIntervalNeverPaused | src/reduce.ts:36-71 | after any log, an open interval is never paused |
| Reducer.FinalStateMeaning | src/reduce.ts:73-78 | the state is PAUSED exactly when paused, IN_PROGRESS exactly when not paused and connected, IDLE otherwise |
| Reducer.RunUnbilled | src/reduce.ts:37-69 | with a single user id, the loop never opens an interval |
| Reducer.SingleUserNeverBills | src/reduce.ts:11-62 | if every connect carries the same user, tracked time is 0, there is no last-active time, and the state is never IN_PROGRESS |
| Reducer.RunTimely | src/reduce.ts:44-69 | on time-sorted input every closed interval has non-negative length |
| Reducer.TrackedTimeNonNegative | src/reduce.ts:24-81 | on a time-sorted log, tracked time is never negative |
| Reducer.TwoUsersGrows | src/reduce.ts:39 | connecting a new device, or reconnecting one with the same user, keeps two users connected |
| Reducer.RunAccounting | src/reduce.ts:36-71 | if each device always carries the same user, the loop keeps an interval open exactly while two users are connected and not paused |
| Reducer.InProgressIffOpen | src/reduce.ts:36-78 | under that condition and with no End, the state is IN_PROGRESS exactly when billing is running |
| Reducer.TrackedIntervalExample | src/__tests__/reduce-test.ts:36-42 | users connected from 1 to a disconnect at 3 track 2 |
| Reducer.PauseExample | src/__tests__/reduce-test.ts:52-60 | a pause from 3 to 4 and an End at 6 track 4 |
| Reducer.LastActiveExample | src/__tests__/reduce-test.ts:125-132 | an unpause at 3 with two users makes 3 the last-active time |
| Reducer.LastActiveOneUserExample | src/__tests__/reduce-test.ts:134-143 | an unpause with one user left keeps the last-active time 1 |
| Reducer.PausedExample | src/__tests__/reduce-test.ts:153-158 | a start and a pause at 1 give PAUSED, state time 1, nothing tracked |
| Reducer.PausedWithTwoUsersExample | src/__tests__/reduce-test.ts:218-225 | a second user connecting while paused leaves the session PAUSED |
| Reducer.IdleAfterDisconnectExample | src/__tests__/reduce-test.ts:227-233 | one of two users disconnecting leaves the session IDLE |
| Pipeline.Report | src/cli.ts:23 | the report for a raw log, `reduce` after `flattenEventStream`, never has negative tracked time, whatever the raw log |

## Left out

- `src/cli.ts` reads the input from standard input and writes JSON to standard output. That I/O is not modelled; only the composition on its line 23 is (`Pipeline`).
- Numbers are IEEE doubles in the source; the model uses exact reals. So `ttl / 2` and the time differences never round, and NaN and infinities do not arise.
- Flatten.FlattenEventStream: the source copies the array and sorts it in place with `Array.prototype.sort`. The model sorts a sequence value with a stable insertion sort, `SortByTime`. Update in place is not captured. `SortByTime` is stable, as ECMAScript 2019 and later require of `Array.prototype.sort`; no lemma depends on how events with equal times are ordered.
- Flatten.FlattenEventStream: `for ... in` enumerates integer-like keys such as `"1"` in ascending numeric order before the other keys. The model concatenates device streams in first-appearance order. The final stable sort makes this matter only for the relative order of simultaneous events from different devices.
- Partition.FindDeviceStreams and DeviceFlatten.FlattenDeviceStream: the bodies of their loops are factored into `FileDeviceEvent`, `FileGlobalEvent` and `FlattenStep`, which do the same updates.
- Reducer.Reduce: the final-state `if` is inlined, as in the source; the `connected` calls become separate statements because a Dafny method cannot be called inside an expression. `connected` has no side effects, so evaluating it eagerly changes nothing.
- Events.IsStartEvent: the source's type-guard annotation names the end-event type. That is static typing only and has no runtime effect, so it is not modelled.
- The whole-log examples of `src/__tests__/flatten-test.ts` at lines 18-37 and the device split at lines 68-103 are not proved as concrete lemmas. Of lines 18-37 the flattened device streams are proved (`AppStreamDevicesExample`), but not the interleaving of the final sort. For such logs the general lemmas give weaker facts: the output is sorted and a permutation of the collected events (`FlattenedLog`), a global event appears exactly when retained (`FlattenedLogContents`), and the buckets and retained events are as `FindDeviceStreams` states. Lines 5-16 and 51-62 are proved exactly (`SortThenStopExample`, `StopOnEndExample`), and so are the retained events of lines 39-49 (`DuplicatePausesExample`).
- DeviceFlatten.FlattenedSorted: requires `ttl >= 0`. With a negative ttl a synthetic disconnect can be earlier than the events before it.
- Reducer.InProgressIffOpen: requires that every device always carries the same user. If a connect reassigns a device so that only one user remains, the source leaves the interval open (the connect branch never closes one).
- Partition.FindDeviceStreams: the source's `deviceStreams` is a plain object, so a device id that names a member inherited from `Object.prototype` (`"constructor"`, `"toString"`, `"__proto__"`, ...) finds a truthy value at line 33, no bucket is created, and the `push` of line 36 throws a `TypeError`; `flattenEventStream`, and so the whole report, fails on such a log. The model files every device id as an ordinary map key and does not capture that failure.
- Reducer.Reduce: `connectedDevices` is a plain object too. Assigning `connectedDevices["__proto__"]` at line 39 goes through the `__proto__` setter and stores nothing, so a device with that id never counts toward `connected`; the model stores it like any other id. Ids naming other inherited members are stored as own properties and behave as in the model.
- Reducer.Reduce: the reducer does not require its input to be flattened or sorted. Only `TrackedTimeNonNegative`, with its helper `RunTimely`, requires sorted input; `Pipeline.Report` meets that requirement through the sortedness of `FlattenedLog`.
- Reducer.StateTimeRecorded: the code breaks out of the loop on an End before the `stateTime` assignment, so an End never sets `stateTime`; `StateTimeAtFirstEnd` states the consequence.
