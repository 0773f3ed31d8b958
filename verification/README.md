# danmuji: the chat-message counter and the draw, in Dafny

danmuji is a desktop tool for bilibili live rooms. While it monitors a room it
counts the chat messages ("danmu") that pass two optional filters and collects
the distinct names of their senders. When monitoring ends, it draws a winner
among those senders with a short animation.

This project models that logic as pure functions over immutable values and
proves properties about them:

- `Danmu` (`danmu.dfy`) holds the part that `core.py` and `live_danmu.py` share:
  - extracting the message, sender name and medal ("paizi") name from the
    already-indexed `info` pieces of a `DANMU_MSG` event;
  - the acceptance predicate (an exact medal match and a case-sensitive
    substring match, where a falsy filter imposes nothing);
  - the step that updates `(num_danmu, viewer_set)` and reports
    `(num_danmu, len(viewer_set))`.

  Folding the step over an event sequence is proved equal to independent
  reference definitions: the count of accepted events, and the set of their
  senders.
- `CoreMonitor` (`core_monitor.dfy`) models `core.py`. Its `stop_monitor`
  hands back the sender set and resets the statistics.
- `LiveDanmu` (`live_danmu.dfy`) models the Qt worker of `live_danmu.py`. Its
  signals are output values. Its `stop_monitor` reports the set without
  resetting anything.
- `Text` (`text.dfy`) models Python's `str.strip()`. It also models `int()` on
  the room-id field, which the field's integer validator limits to an
  optional sign and decimal digits.
- `Lottery` (`lottery.dfy`) models the delay schedule `range(10, 500, 5)` and
  the draw loop. `np.random.choice` becomes a nondeterministic pick, and the
  only constraint on it is that the pick is a candidate.
- `MainWindow` (`main_window.dfy`) models the button dispatch, the input
  handling of `start_monitor`, the LCD callback, and `start_lottery`.
- `Wrappers` (`wrappers.dfy`) defines `Option` and `Result`.

The model follows the code as written:

- Senders are kept in a Python `set`, which has no order. The model uses a
  `set<string>`.
- The room id is only checked to be non-empty and readable by `int()`. Its
  sign is not checked.
- The draw has no separate final pick. The last name shown by the animation
  is the effective winner.
- `stop_monitor` before any `start_monitor` dereferences `self.room`, which
  is still `None`, and raises. The model returns a failure and changes
  nothing.
- `live_danmu.py` does not reset on stop. `core.py` does.

## Model

| member | source | states |
|---|---|---|
| Danmu.Contains | core.py:37 | `keyword in msg` is true exactly when the keyword occurs as a contiguous, case-sensitive slice of the message at some index |
| Danmu.Step | core.py:32-42 | the callback fires exactly when the sender name can be read and both filters pass; then the count rises by exactly one, the name joins the set, a repeat sender leaves the set's size unchanged, and the report carries the updated totals; a rejected event changes nothing; `len(viewer_set) <= num_danmu` is preserved |
| Danmu.RunCounts | core.py:29-42 | after any event sequence the count has grown by exactly the number of accepted events and the set by exactly the senders of accepted events (independent index-set definitions) |
| Danmu.FreshRunMatchesReference | core.py:18-42 | from a fresh state the count equals the number of accepted events and the set equals the set of their senders |
| Danmu.RunKeepsValid | core.py:38-39 | `len(viewer_set) <= num_danmu` holds after any event sequence from a state where it held |
| Danmu.RunMonotone | core.py:38-39 | the count never decreases and the sender set never loses a name while events are handled |
| Danmu.ReportsTrace | core.py:38-42 | the callback's k-th call carries count `start + k + 1` and no more senders than events; its last call carries the final totals |
| Danmu.ReportsCount | core.py:37-42 | from any starting state the callback is called exactly once per accepted event |
| Danmu.FanScenario | core.py:32-39 | tag filter "fan" over alice(fan), alice(fan), bob(no medal) yields count 2 and senders {alice} |
| Danmu.OtherTagRejects | core.py:35-37 | paizi filter "A" rejects an event whose medal name is "B", whatever the keyword filter |
| Danmu.ShortTagNeverMatches | core.py:35-37 | an event whose medal record has fewer than two elements is rejected by any non-empty paizi filter |
| Danmu.KeywordAccepts | core.py:37 | keyword "hello" accepts "say hello world" |
| Danmu.KeywordRejects | core.py:37 | keyword "hello" rejects "say goodbye" |
| CoreMonitor.New | core.py:15-21 | a fresh monitor has no room, a zero count and an empty sender set |
| CoreMonitor.StartMonitor | core.py:23-30 | the handler is bound to the given room and filters; the statistics are not reset by starting |
| CoreMonitor.OnNewDanmu | core.py:29-42 | the handler exists only after a start; it decides with the filters given at start, updates count and set as one step, and invokes the callback with the post-update totals only for accepted events |
| CoreMonitor.FeedIsRepeatedHandling | core.py:29-42 | handling a sequence of events is handling them one `on_new_danmu` call at a time, in order; no events leave the monitor unchanged |
| CoreMonitor.StopMonitor | core.py:47-56 | fails (no change) when no room was created; otherwise returns the sender set held before the call and leaves a zero count and an empty set |
| CoreMonitor.StopTwiceIsEmpty | core.py:53-56 | a second stop with no events in between returns an empty set |
| CoreMonitor.Session | core.py:23-56 | start, any events, stop: the stop returns the earlier senders plus exactly the senders of accepted events, the count grew by the number of accepted events, and, from a valid state, the returned set is no larger than the count |
| CoreMonitor.FreshSession | core.py:15-56 | from a fresh monitor one session's stop returns exactly the senders of the accepted events and resets the statistics |
| CoreMonitor.StopStartStopIsEmpty | core.py:23-56 | stop, start again, stop again with no events: the second stop returns an empty set |
| LiveDanmu.New | live_danmu.py:20-36 | a fresh worker stores room id, paizi and keyword unchanged, has no room client, a zero count and an empty set |
| LiveDanmu.StartMonitor | live_danmu.py:38-46 | starting creates the room client for the stored room and keeps filters and statistics |
| LiveDanmu.OnNewDanmu | live_danmu.py:49-62 | once started, `new_danmu` is emitted exactly for accepted events, with the post-update totals; rejected events change nothing and emit nothing |
| LiveDanmu.StopMonitor | live_danmu.py:75-91 | fails when no room client exists; otherwise emits `viewer_report` with the current set, then `finished`, and leaves the worker unchanged |
| LiveDanmu.HandlersAgree | live_danmu.py:50-62 | the worker's handler decides, updates and reports exactly like the `core.py` handler given the same filters and statistics |
| LiveDanmu.StopDoesNotReset | live_danmu.py:89-91 | after a session the worker reports exactly the accepted senders, and stopping again reports the same set again |
| LiveDanmu.VariantsDifferOnSecondStop | live_danmu.py:89-91 | when some event was accepted, a second stop in `core.py` returns an empty set while the worker's second report is non-empty |
| Text.Strip | danmuji.py:78-79 | the result is a slice of the input with only whitespace removed before and after it, it neither starts nor ends with whitespace, and it is empty exactly when the input is all whitespace |
| Text.StripIdempotent | danmuji.py:78-79 | stripping an already stripped text changes nothing |
| Text.ParseInt | danmuji.py:77 | `int()` succeeds exactly on an optional sign followed by at least one decimal digit |
| Text.ParseFormat | danmuji.py:77 | reading back the decimal rendering of any integer yields that integer |
| Lottery.Range | danmuji.py:98 | `range(start, stop, step)` for a positive step: empty when `start >= stop`; otherwise the element count is the least n with `start + n*step >= stop`, and element i is `start + i*step` |
| Lottery.ScheduleShape | danmuji.py:19-21 | the delay schedule is 10, 15, ..., 495: 98 delays, strictly increasing, all in [10, 500) |
| Lottery.Animate | danmuji.py:97-100 | no frames without candidates; otherwise one frame per scheduled delay, in order, each showing a candidate |
| Lottery.WinnerIsCandidate | danmuji.py:97-99 | a draw leaves a name on display exactly when there are candidates; that name is a candidate, and with a single candidate it is that candidate |
| MainWindow.Dispatch | danmuji.py:52-57 | a click starts monitoring exactly when the caption is `开始统计` and starts the draw otherwise |
| MainWindow.StartMonitor | danmuji.py:64-87 | displays are cleared; an empty room id (or one `int()` rejects) aborts with no monitor started; otherwise the monitor gets the room and the whitespace-stripped paizi and keyword, and the caption becomes `结束统计并抽奖` |
| MainWindow.OnDanmu | danmuji.py:60-62 | once monitoring has started, the window's monitor advances exactly as its handler does, an accepted event shows the previous count plus one and the size of the previous set plus the sender on the LCDs, and any other event changes nothing |
| MainWindow.ListOf | danmuji.py:94 | `list(viewer_set)` holds every collected sender exactly once and nothing else |
| MainWindow.StartLottery | danmuji.py:89-104 | a stop failure leaves the button disabled; otherwise every shown name is a collected sender, no frame appears without senders, the last shown name stays in the result box, the monitor is unchanged apart from its statistics being reset, and the button is re-enabled with caption `开始统计` |
| MainWindow.Click | danmuji.py:52-57 | with caption `开始统计` a click is exactly the monitor start; with any other caption and no room the stop raises and the button stays disabled with nothing shown; with another caption and a room it ends with the button re-enabled, caption reset and the statistics cleared; every shown name is a collected sender |
| MainWindow.RoundCandidates | danmuji.py:64-82 | after starting from clean statistics, the senders collected under the stripped filters are exactly the senders of the accepted events |

## Left out

- The bilibili live client (`live.LiveDanmaku`, `connect`, `disconnect`) is a foreign network client. The model keeps only the room id passed to it and whether it was created. In core.py, `connect()` runs in the background task that core.py:45 creates, so a connection failure never reaches the caller. The model has no connection failure (for live_danmu.py see the LiveDanmu.StopMonitor line below).
- asyncio task creation, event loops and `asyncio.sleep` are not modelled. The delays appear only as values in the animation frames.
- The Qt signals and threading in live_danmu.py are not modelled as such. Emissions are returned as values.
- Message boxes, validators, window setup and the `__main__` blocks are GUI glue. The `__main__` blocks only run debugging code.
- Events whose `info` list has fewer than four elements are not modelled. The model starts from the already-indexed pieces. Fields of the sender and medal records other than index 1 are abstracted to strings.
- danmuji.py awaits the non-async `core.Danmuku.start_monitor` and `stop_monitor`, and refers to a `self.main_window` that does not exist. The model treats both calls as completing, and treats `stop_monitor`'s return as the candidate set.
- MainWindow.StartMonitor: the switch of the caption to `结束统计并抽奖` is the intended flow, which the code as written never reaches. `start_monitor` returns `None`, and `await None` raises TypeError at danmuji.py:82. The `except` then raises AttributeError on `self.main_window` at danmuji.py:84, before the caption change at danmuji.py:87.
- MainWindow.StartLottery: the whole method describes the intended flow, which the code as written never reaches. `stop_monitor` returns a set, and `await` on a set raises TypeError at danmuji.py:94, after the monitor has already been stopped and reset. MainWindow.Click inherits the same limitation.
- CoreMonitor.StartMonitor: keeps only the latest handler and does not cover a start while a room is still connected. core.py:26 rebinds `self.room` without disconnecting the previous client, so the earlier handler, with its own `paizi`/`keyword`, keeps adding to the same `num_danmu` and `viewer_set`. CoreMonitor.Session inherits the same limitation.
- LiveDanmu.StopMonitor: assumes `disconnect()` returns normally, including on a repeated stop. live_danmu.py:73 and :86 run `connect()` and `disconnect()` synchronously through `asyncio.run`, so a failure there propagates to the worker's caller, and at :86 it would suppress both `viewer_report` and `finished`. LiveDanmu.StopDoesNotReset and LiveDanmu.VariantsDifferOnSecondStop rest on the same assumption.
- CoreMonitor.StopMonitor: the disconnect at core.py:50 runs as a background task. Events that the old handler receives before that task finishes, and counts into the freshly reset statistics, are not modelled.
- Lottery.Animate: does not model that `np.random.choice` is uniform and independent across steps. Randomness is not verifiable, so only membership in the candidates is stated.
- Lottery.Range: models only positive steps, the only kind the source uses.
- Text.ParseInt: does not model the whitespace, underscore and non-ASCII digit forms that `int()` also accepts. The room-id field's integer validator keeps them out.
- test_pyqt_coroutine.py is a Qt/asyncio countdown demo with no application logic, so it is not part of this model.
- ui.py, which defines the initial button caption, is not part of this model. No constructor for the window is given.
