# apollo-jetstream: a Dafny model of its sequential core

apollo-jetstream is a browser tool for watching the streams of a NATS
JetStream broker. Three pieces of the code carry logic:

- The **JetStream store** holds the selected time range and the `loading` flag. It also holds the streams the background worker reported and the buffer of messages it forwarded. The store turns the time-range label ("Live", "Last 15 minutes", ...) into a window length in milliseconds and a start time. `fetchStreams` asks the worker for the streams of that window. The worker's `streams` and `message` events update the state.
- **`getStreams`** runs in the worker. For every stream in the listed page it subscribes one ephemeral push consumer. Each consumer takes no acks, starts at the given time, replays instantly and carries a fixed description. Each stream also gets an empty message buffer, which the subscription's pump appends to. The result is the listed array, sorted in place by stream name.
- **The update check** shows one notice about the latest release. It does so only when that release is not the running version and its tag is not the one stored as ignored. Ignoring the notice stores the tag under the single local-storage key `ignoreUpdates`.

Modules, one per file:

- `time_window.dfy` (`TimeWindow`) holds the `duration` and `startTime` computations. Labels are read with the regular expression `/\w+\s+(\d+)\s+(\w+)/`, which is not anchored. `Exec` models `exec` by scanning. `ExecIsLeftmostGreedy` proves that it returns the leftmost match, with the groups a greedy backtracking matcher captures. The proof compares it against the declarative reading `Shape` of the pattern.
- `jetstream_store.dfy` (`JetStreamStore`) is the store, as a class whose fields the operations update.
- `nats.dfy` (`Nats`) holds `getStreams`, its in-place sort and the message pump.
- `name_order.dfy` (`NameOrder`) holds the order on names used by the sort.
- `check_updates.dfy` (`CheckUpdates`) holds the update decision and the one-key store.
- `wrappers.dfy` and `broker.dfy` are shared option, result and message types.

The worker has no reconnect loop, no advisory watcher, no trace or failure lookups and no consumer teardown. `getStreams` does not filter out a reserved trace stream. The model follows the code, so none of those features is modelled.

## Model

| member | source | states |
|---|---|---|
| TimeWindow.Duration | src/stores/JetStream.js:10-20 | "Live" is exactly 300000 ms; any other label is a `NoMatch` error exactly when the regular expression matches nowhere |
| TimeWindow.RunEnd | src/stores/JetStream.js:15 | a greedy `k+` step: the returned end bounds the longest run of class `k` from `i` |
| TimeWindow.ScanAt | src/stores/JetStream.js:15 | a successful scan at `i` is a split of the pattern at `i` whose group 2 cannot be extended |
| TimeWindow.ExecFrom | src/stores/JetStream.js:15-17 | a match lies at or after `i`; group 1 is a non-empty run of digits and group 2 a non-empty run of word characters |
| TimeWindow.ScanAtComplete | src/stores/JetStream.js:15 | wherever some split of the pattern fits, the scan succeeds with the same boundaries and a group 2 at least as long |
| TimeWindow.ShapeDetermined | src/stores/JetStream.js:15 | two splits of the pattern at one position agree on every boundary but the end of group 2, so the backtracking captures are forced |
| TimeWindow.ScanAtDecides | src/stores/JetStream.js:15 | where the scan fails, no split of the pattern fits |
| TimeWindow.ExecFromSpec | src/stores/JetStream.js:15 | from `i` on: no result means no match at any later position; a result is the first match, with greedy captures |
| TimeWindow.ExecIsLeftmostGreedy | src/stores/JetStream.js:15 | `exec` returns null exactly when the pattern fits nowhere; otherwise it returns the leftmost match, with the groups greedy backtracking captures |
| TimeWindow.DigitValue | src/stores/JetStream.js:16 | a decimal digit is worth less than ten |
| TimeWindow.DigitChar | src/stores/JetStream.js:16 | the digit character for a value below ten is a digit worth that value |
| TimeWindow.DecimalDigits | src/stores/JetStream.js:16 | the numeral of a number is a non-empty run of digits |
| TimeWindow.DecimalRoundTrip | src/stores/JetStream.js:16 | `parseInt` of the numeral of `n` is `n` |
| TimeWindow.ToLowerNormalizes | src/stores/JetStream.js:17 | the lower-cased unit holds no upper-case letter, keeps every other character and every word character, and lower-casing it again changes nothing |
| TimeWindow.LabelShape | src/stores/JetStream.js:15 | the pattern fits "<word> <n> <unit>" at 0, split into exactly those pieces |
| TimeWindow.ExecOfLabel | src/stores/JetStream.js:15-17 | `exec` on "<word> <n> <unit>" matches at 0 and captures exactly `n` and `unit` |
| TimeWindow.DurationOfLabel | src/stores/JetStream.js:15-19 | "<word> <n> <unit>" is read as `parseInt(n)` of the lower-cased `unit` |
| TimeWindow.UnitCaseIrrelevant | src/stores/JetStream.js:17-19 | labels that differ only in the case of the unit have the same duration |
| TimeWindow.FifteenMinutes | src/stores/JetStream.js:15-19 | "Last 15 minutes" is 900000 ms |
| TimeWindow.CalendarDays | src/stores/JetStream.js:19 | month-based units convert to the whole number of days nearest to their average Gregorian length, with halves rounded up |
| TimeWindow.CalendarSamples | src/stores/JetStream.js:19 | a month is 30 days, a quarter 91, a year 365 and four years 1461 |
| TimeWindow.FixedUnitIsLinear | src/stores/JetStream.js:19 | for ms, s, min, h, day and week, `n` units are `n` times that unit's factor |
| TimeWindow.CalendarDaysMonotone | src/stores/JetStream.js:19 | more months never give fewer days |
| TimeWindow.UnitMillisecondsMonotone | src/stores/JetStream.js:19 | a larger count of the same unit never gives a shorter window |
| TimeWindow.StartTime | src/stores/JetStream.js:21 | the start time lies `duration` before `now`, so never after it |
| TimeWindow.StartTimeAntitone | src/stores/JetStream.js:21 | a longer duration gives an earlier or equal start time |
| JetStreamStore.Store.constructor | src/stores/JetStream.js:8-55 | set-up leaves the range at "Live" and no streams; the first `fetchStreams` leaves it loading, with an empty buffer and one request for `now - 300000` |
| JetStreamStore.Store.WindowStart | src/stores/JetStream.js:21 | reading `startTime` fails exactly when the range is not "Live" and the pattern matches nowhere; otherwise it never lies after `now`, lies `duration` before it, and is `now` itself for a unit moment has no duration for |
| JetStreamStore.Store.FetchStreams | src/stores/JetStream.js:44-52 | sets `loading`, empties `messages` and posts exactly one `getStreams` request carrying `startTime`; it posts nothing when the range does not match the label pattern; range and streams are unchanged |
| JetStreamStore.Store.SetTimeRange | src/stores/JetStream.js:42 | a changed range triggers `fetchStreams` for the new range; the same range triggers nothing |
| JetStreamStore.Store.OnMessage | src/stores/JetStream.js:27-36 | `streams` replaces the streams and clears `loading`, leaving `messages`; `message` appends exactly one message at the end, leaving the rest; any other event changes nothing |
| Nats.DebugConsumer | src/api/nats.js:12-19 | the configuration has ack policy none, deliver policy start-time, the given start time, instant replay, the fixed description and its own inbox |
| Nats.Stream.constructor | src/api/nats.js:9 | a listed stream carries its configured name |
| Nats.GetStreams | src/api/nats.js:5-37 | one subscription per listed stream, in list order: filter `>`, bound to that stream's name, with a debug consumer for `startTime`; every buffer is empty when the loop and the sort are done; the result is the same array, sorted by name and a permutation of the listed streams |
| Nats.Pump | src/api/nats.js:29-33 | the buffer grows by exactly the received messages, in receipt order |
| Nats.GetStreamsThenReceive | src/api/nats.js:25-33 | after `getStreams`, a stream's buffer holds exactly what its subscription received, in order |
| Nats.SortByName | src/api/nats.js:36 | the array ends sorted by name and is a permutation of what it was |
| Nats.InsertByName | src/api/nats.js:36 | inserting a[i] into the sorted a[..i] makes a[..i+1] sorted, permuting the array and leaving a[i+1..] as it was |
| Nats.Swap | src/api/nats.js:36 | exchanges two entries, keeping the multiset of entries |
| Nats.AdjacentSortedIsSorted | src/api/nats.js:36 | names ordered pairwise by neighbours are ordered throughout |
| NameOrder.NameLeReflexive | src/api/nats.js:36 | every name comes before or at itself |
| NameOrder.NameLeTotal | src/api/nats.js:36 | any two names are comparable |
| NameOrder.NameLeAntisymmetric | src/api/nats.js:36 | names ordered both ways are equal |
| NameOrder.NameLeTransitive | src/api/nats.js:36 | the name order is transitive |
| CheckUpdates.LocalStorage.SetItem | src/services/check-updates/index.js:22 | after `setItem`, `getItem` of that key reads the value back and every other key reads as before |
| CheckUpdates.Check | src/services/check-updates/index.js:8-26 | shows a notice exactly when a latest release exists, its tag is not `appVersion` and it is not the stored ignored tag; the notice is about `releases[0]`, with no timeout and no icon |
| CheckUpdates.Ignore | src/services/check-updates/index.js:22 | stores the release's tag under `ignoreUpdates` and nothing else |
| CheckUpdates.NoReleasesNoNotice | src/services/check-updates/index.js:8-12 | with no releases nothing is shown |
| CheckUpdates.OnlyLatestMatters | src/services/check-updates/index.js:8 | later releases never affect the decision |
| CheckUpdates.IgnoredTagSuppressed | src/services/check-updates/index.js:12 | an ignored tag suppresses its release; another tag that is not the running version is shown |
| CheckUpdates.IgnoreThenCheckAgain | src/services/check-updates/index.js:12-22 | the first check shows a notice exactly when the decision holds for the stored ignored tag; if it does, its tag is then stored as ignored, otherwise storage is untouched; the second check on the same releases shows nothing |

## Left out

- TimeWindow.Duration: when the label matches neither "Live" nor the pattern, the source throws a TypeError by indexing the null result of `exec`. The model returns `Err(NoMatch)` instead.
- TimeWindow.Duration: moment's unit handling is not visible. The model assumes moment 2.x behaviour. Millisecond, second, minute, hour, day and week convert at fixed factors. Month, quarter and year (1, 3 and 12 months) take `Math.round(months * 146097 / 4800)` days.
- TimeWindow.Duration: a unit name moment does not know is reported as `Err(UnknownUnit)`. moment itself would give a duration of 0, or NaN for its non-duration units such as "date". `JetStreamStore.Store.WindowStart` turns that case into a start time of `now`, which is what subtracting 0 or NaN from a moment gives.
- TimeWindow.Duration: the "Live" branch yields a moment duration object and the other branch yields a number. Both are modelled as a number of milliseconds.
- TimeWindow.DecimalValue: JavaScript numbers are doubles, so `parseInt` loses precision above 2^53 and large products round. The model's integers are exact.
- The clock (`moment()`) is not modelled; the time is the `now` argument.
- The Vue `computed` cache of `startTime` is left out. The model reads `now` afresh on each `fetchStreams`, while the source keeps the value until `timeRange` changes.
- The request carries the start time in milliseconds. Its `toISOString` rendering is not modelled, and `getStreams` takes the start time as an opaque string.
- JetStreamStore.Store.SetTimeRange: Vue runs the `watch` callback in a later tick. The model runs it at once.
- The worker object, its `postMessage` plumbing and the `onerror` toast are left out. Posted requests are kept as a log.
- `OtherEvent` stands for an event of any other type. The source dispatches on the string tag; the model dispatches on the constructor.
- The NATS websocket connection, `jetstreamManager` and the subscription objects are a network client. The listed page is an input array, and the `subscribe` calls are returned as a log of (filter, stream, config) triples. Only the first page of `streams.list()` is used, as in the source.
- Nats.GetStreams: the `for await` pumps run concurrently in the source. Each `await js.subscribe` lets the pumps of streams already subscribed push messages before `getStreams` returns, so in the source a buffer need not be empty on return. The model runs no pump inside `getStreams`. `Nats.Pump` models one pump's effect on its own buffer, and the interleaving of several pumps is not modelled.
- `createInbox` is a foreign call. Its result is the opaque value `Inbox(k)` for the k-th stream.
- Nats.SortByName: `localeCompare` depends on a locale the code does not show, so the model compares names in plain character order (`NameOrder.NameLe`). The stability of the sort is not stated.
- The Octokit request, the toast rendering and the `ReleaseInfo` component are I/O. The releases are an input sequence, and a shown toast is the returned `Notice`.
- `src/main.js`, `vite.config.js` and `src/plugins/vuetify.js` contain application, build and theme configuration with no logic. They are not part of this model.
- A reconnect loop, an advisory watcher, trace and failure feeds, trace-stream filtering and consumer teardown do not exist in the modelled code, so they are not modelled. Each `getStreams` opens a new connection and never closes earlier consumers.
