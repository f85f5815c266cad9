# Scroll-direction voting in FrostWire's `DirectionDetectorScrollListener`

FrostWire's Android client attaches a scroll listener to its list views. The listener decides
whether the user is scrolling up or down and tells a `ScrollDirectionListener`. It keeps a small
tally of up and down votes in `ScrollDirectionVotes`:

- Every `onScroll` call compares the first visible index with the previous one.
- A larger index is a down vote and a smaller one an up vote. A vote counts only while that
  direction's gate is open.
- `checkCandidates` declares a winner once there are at least four votes and `delta > total * 0.5`.
  It then empties the tally, closes the winner's gate for 100 ms and calls `onScrollUp` or
  `onScrollDown` once.
- Going IDLE submits a settle check. After 400 ms it empties the tally unless the listener is in
  motion when it runs, that is, unless the last state change was FLING or TOUCH_SCROLL. An older
  settle check can therefore still empty the tally after a later IDLE (`StaleSettleCheckResets`).

The project has three modules:

- `JavaByte` (`java_byte.dfy`): Java's signed `byte` and its narrowing cast. The counters and
  `total()`/`delta()` are bytes, and the model keeps their wrap-around exactly.
- `ScrollVoting` (`scroll_voting.dfy`): the listener's state as a value (`State`), with one function
  per handler. The two delayed Runnables are explicit pending tasks (`Task`) that the environment
  runs later, in any order. `Step` and `Run` describe traces of events. The lemmas state what
  each handler does and which invariants hold along every trace.
- `DirectionDetectorScrollListener` (`direction_detector.dfy`): the two objects as classes with the
  source's mutable fields. Each method is proved to take `old(Model())` to the state the matching
  `ScrollVoting` function gives. The invariant `Valid()` is kept by the constructor, by both
  handlers (`OnScroll`, `OnScrollStateChanged`) and by both task methods. It says two things
  between calls: the tally is never decidable, and every closed gate has its re-enable task
  pending. The helpers `CheckCandidates`, `Disable`, `OnFling`, `OnTouchScroll` and `OnIdle`
  run in the middle of a handler, so they only promise their new state. Three scenario methods drive a fresh listener and prove what
  it reports.

Points worth knowing:

- The `delta() > total() * 0.5` test compares two small integers, so it is exactly
  `2 * delta > total` (`Tally.Decidable`).
- Without wrap-around this means one side holds more than three quarters of the votes
  (`DecidableIff`). That is stronger than "a strict majority".
- The quiet invariant needs no "no wrap-around" assumption. Every `onScroll` ends in
  `checkCandidates`, and a decision empties the tally. So the checks run on FLING and TOUCH_SCROLL
  never make a callback (`RunQuiet`).
- Because the counters are bytes, a tally of 97 up votes against 32 down votes has `total()` equal
  to -127. It is not decided, although the up side holds more than three quarters
  (`ByteWrapSuppressesDecision`).

## Model

| member | source | states |
|---|---|---|
| `JavaByte.ToByte` | android/src/com/frostwire/android/gui/util/DirectionDetectorScrollListener.java:49-54 | the `(byte)` cast is the identity on byte values. It subtracts 256 from 128..383 and adds 256 to -384..-129. |
| `JavaByte.ToByteCongruent` | android/src/com/frostwire/android/gui/util/DirectionDetectorScrollListener.java:50 | the cast changes its argument by a multiple of 256 and equals the two's-complement reading of the low eight bits |
| `JavaByte.Abs` | android/src/com/frostwire/android/gui/util/DirectionDetectorScrollListener.java:53 | on the difference of two bytes (the only argument it gets), `Math.abs` gives a non-negative value equal to `x` or `-x` |
| `JavaByte.Increment` | android/src/com/frostwire/android/gui/util/DirectionDetectorScrollListener.java:44-48 | `++` on a byte adds one below 127 and wraps 127 to -128 |
| `ScrollVoting.Tally.Total` | android/src/com/frostwire/android/gui/util/DirectionDetectorScrollListener.java:49-51 | `total()` is `ups + downs` when nothing wraps, and in every case is congruent to it modulo 256 |
| `ScrollVoting.Tally.Delta` | android/src/com/frostwire/android/gui/util/DirectionDetectorScrollListener.java:52-54 | `delta()` is 0 exactly when `ups == downs`, wrap or not, and is the distance between the counters when nothing wraps |
| `ScrollVoting.Tally.Up` | android/src/com/frostwire/android/gui/util/DirectionDetectorScrollListener.java:44-45 | no contract of its own: `up()` on the value; specified by `GateBlocksOnlyItsDirection` and `ScrollDirectionVotes.Up` |
| `ScrollVoting.Tally.Down` | android/src/com/frostwire/android/gui/util/DirectionDetectorScrollListener.java:46-48 | no contract of its own: `down()` on the value; specified by `GateBlocksOnlyItsDirection` and `ScrollDirectionVotes.Down` |
| `ScrollVoting.Tally.Decidable` | android/src/com/frostwire/android/gui/util/DirectionDetectorScrollListener.java:152-154 | no contract of its own: the two tests of `checkCandidates`; specified by `DecidableIff`, `DecisionBoundary`, `ByteWrapSuppressesDecision` |
| `ScrollVoting.Tally.Winner` | android/src/com/frostwire/android/gui/util/DirectionDetectorScrollListener.java:155 | no contract of its own: `scrollingUp`; specified by `WinnerHasMajority` |
| `ScrollVoting.Initial` | android/src/com/frostwire/android/gui/util/DirectionDetectorScrollListener.java:68-75 | no contract of its own: the field initialisers; specified by `InitialQuiet`, `InitialGateWillReopen` and `ScrollListener.constructor` |
| `ScrollVoting.Disable` | android/src/com/frostwire/android/gui/util/DirectionDetectorScrollListener.java:135-149 | no contract of its own: `disable`; specified by `CheckCandidatesEffect` and `ScrollListener.Disable` |
| `ScrollVoting.CheckCandidates` | android/src/com/frostwire/android/gui/util/DirectionDetectorScrollListener.java:151-166 | no contract of its own: `checkCandidates`; specified by `CheckCandidatesEffect`, `WinnerHasMajority` |
| `ScrollVoting.Vote` | android/src/com/frostwire/android/gui/util/DirectionDetectorScrollListener.java:123-130 | no contract of its own: the vote part of `onScroll`; specified by `VoteEffect`, `GateBlocksOnlyItsDirection` |
| `ScrollVoting.OnScroll` | android/src/com/frostwire/android/gui/util/DirectionDetectorScrollListener.java:119-132 | no contract of its own: `onScroll`; specified by `OnScrollIgnored`, `OnScrollEffect` |
| `ScrollVoting.OnScrollStateChanged` | android/src/com/frostwire/android/gui/util/DirectionDetectorScrollListener.java:78-104 | no contract of its own: `onScrollStateChanged`; specified by `OnScrollStateChangedEffect` |
| `ScrollVoting.RunTask` | android/src/com/frostwire/android/gui/util/DirectionDetectorScrollListener.java:83-147 | no contract of its own: running the settle Runnable (83-91) or the re-enable Runnable (138-147); specified by `SettleCheckEffect`, `ReEnableEffect`, `StaleSettleCheckResets` |
| `DirectionDetectorScrollListener.ScrollDirectionVotes.Total` | android/src/com/frostwire/android/gui/util/DirectionDetectorScrollListener.java:49-51 | no contract of its own: `total()` of the fields; specified by `Tally.Total` |
| `DirectionDetectorScrollListener.ScrollDirectionVotes.Delta` | android/src/com/frostwire/android/gui/util/DirectionDetectorScrollListener.java:52-54 | no contract of its own: `delta()` of the fields; specified by `Tally.Delta` |
| `ScrollVoting.ZeroIsEmpty` | android/src/com/frostwire/android/gui/util/DirectionDetectorScrollListener.java:42-43 | a reset or fresh tally has total 0 and delta 0, and is not decidable |
| `ScrollVoting.DecidableIff` | android/src/com/frostwire/android/gui/util/DirectionDetectorScrollListener.java:152-154 | without wrap-around, the decision test holds iff there are at least 4 votes and one side has more than three times the other's votes (both directions) |
| `ScrollVoting.WinnerHasMajority` | android/src/com/frostwire/android/gui/util/DirectionDetectorScrollListener.java:154-155 | a decidable tally is never a tie, whatever the counters, and the winner is up iff `ups > downs`. Without wrap-around the winner holds a strict majority, above three quarters. |
| `ScrollVoting.DecisionBoundary` | android/src/com/frostwire/android/gui/util/DirectionDetectorScrollListener.java:152-154 | 3-1, 1-3, 2-2 and 3-0 do not decide. 4-0, 0-4 and 4-1 do, for the larger side. |
| `ScrollVoting.ByteWrapSuppressesDecision` | android/src/com/frostwire/android/gui/util/DirectionDetectorScrollListener.java:49-51 | at 97 ups and 32 downs `total()` wraps to -127 and no decision is taken, although 97 > 3 * 32 |
| `ScrollVoting.CheckCandidatesEffect` | android/src/com/frostwire/android/gui/util/DirectionDetectorScrollListener.java:151-166 | an undecidable tally leaves everything unchanged. A decidable one empties the tally and closes only the winner's gate. It submits one re-enable for that gate and appends exactly the winner to the callbacks, with nothing else changed. The result is always quiet. |
| `ScrollVoting.OnScrollIgnored` | android/src/com/frostwire/android/gui/util/DirectionDetectorScrollListener.java:120-122 | with no listener or while disabled, `onScroll` changes nothing: no vote, same index, no callback |
| `ScrollVoting.VoteEffect` | android/src/com/frostwire/android/gui/util/DirectionDetectorScrollListener.java:123-130 | `onScroll` always stores the new index and adds at most one vote. The vote is down for a larger index with the down gate open, up for a smaller index with the up gate open, and none otherwise. Nothing else changes. |
| `ScrollVoting.GateBlocksOnlyItsDirection` | android/src/com/frostwire/android/gui/util/DirectionDetectorScrollListener.java:126-129 | a closed up gate keeps `ups` unchanged for every index, while a larger index with the down gate open still adds a down vote, and symmetrically. An unchanged index adds no vote. |
| `ScrollVoting.OnScrollEffect` | android/src/com/frostwire/android/gui/util/DirectionDetectorScrollListener.java:119-132 | with a listener, `onScroll` stores the index, keeps the motion flag and ends quiet. It makes a callback iff the vote made the tally decidable, and then exactly the winner's callback, with the tally emptied. |
| `ScrollVoting.OnScrollStateChangedEffect` | android/src/com/frostwire/android/gui/util/DirectionDetectorScrollListener.java:78-104 | IDLE clears `inMotion` and submits one settle check and nothing else. FLING and TOUCH_SCROLL on a quiet state only set `inMotion`. Any other code changes nothing. |
| `ScrollVoting.SettleCheckEffect` | android/src/com/frostwire/android/gui/util/DirectionDetectorScrollListener.java:83-91 | the settle check leaves the tally empty iff the listener is not in motion (or it was already empty), and keeps the tally while in motion. It touches nothing else and leaves the pool. |
| `ScrollVoting.StaleSettleCheckResets` | android/src/com/frostwire/android/gui/util/DirectionDetectorScrollListener.java:80-90 | after IDLE, TOUCH_SCROLL, one vote and IDLE again, two settle checks are pending and the first one still empties the tally, because the flag is read only when the check runs |
| `ScrollVoting.ReEnableEffect` | android/src/com/frostwire/android/gui/util/DirectionDetectorScrollListener.java:138-147 | the re-enable task opens its gate and leaves the other gate, the counters, the index, the flags and the callbacks unchanged. It leaves the pool. |
| `ScrollVoting.InitialQuiet` | android/src/com/frostwire/android/gui/util/DirectionDetectorScrollListener.java:68-75 | a new listener has an empty, undecidable tally |
| `ScrollVoting.StepQuiet` | android/src/com/frostwire/android/gui/util/DirectionDetectorScrollListener.java:78-166 | any single event keeps the listener quiet, only appends to the callbacks, and appends at most one, only on `onScroll` |
| `ScrollVoting.RunQuiet` | android/src/com/frostwire/android/gui/util/DirectionDetectorScrollListener.java:106-166 | along every trace from a quiet state: it stays quiet, earlier callbacks stay, and there are no more new callbacks than `onScroll` calls. So FLING and TOUCH_SCROLL never fire. |
| `ScrollVoting.InitialGateWillReopen` | android/src/com/frostwire/android/gui/util/DirectionDetectorScrollListener.java:74-75 | a new listener has both gates open, so no gate waits for a re-enable |
| `ScrollVoting.StepGateWillReopen` | android/src/com/frostwire/android/gui/util/DirectionDetectorScrollListener.java:134-148 | after any single event, every closed gate still has its re-enable task pending |
| `ScrollVoting.RunGateWillReopen` | android/src/com/frostwire/android/gui/util/DirectionDetectorScrollListener.java:134-148 | along every trace, a closed gate is closed only temporarily: its re-enable task stays pending until one runs and opens it |
| `ScrollVoting.NoListenerNoCallback` | android/src/com/frostwire/android/gui/util/DirectionDetectorScrollListener.java:120-122 | without a listener the tally stays empty and no trace makes a callback |
| `DirectionDetectorScrollListener.ScrollDirectionVotes.constructor` | android/src/com/frostwire/android/gui/util/DirectionDetectorScrollListener.java:42 | a new tally is empty |
| `DirectionDetectorScrollListener.ScrollDirectionVotes.Reset` | android/src/com/frostwire/android/gui/util/DirectionDetectorScrollListener.java:43 | both counters become 0, so `total()` and `delta()` are 0 |
| `DirectionDetectorScrollListener.ScrollDirectionVotes.Up` | android/src/com/frostwire/android/gui/util/DirectionDetectorScrollListener.java:44-45 | `ups` becomes the byte increment of its old value and `downs` is unchanged |
| `DirectionDetectorScrollListener.ScrollDirectionVotes.Down` | android/src/com/frostwire/android/gui/util/DirectionDetectorScrollListener.java:46-48 | `downs` becomes the byte increment of its old value and `ups` is unchanged |
| `DirectionDetectorScrollListener.ScrollListener.constructor` | android/src/com/frostwire/android/gui/util/DirectionDetectorScrollListener.java:66-75 | a new listener: empty tally, index 0, enabled, not in motion, both gates open, no tasks, no callbacks |
| `DirectionDetectorScrollListener.ScrollListener.OnScrollStateChanged` | android/src/com/frostwire/android/gui/util/DirectionDetectorScrollListener.java:78-104 | the new state is the `ScrollVoting` state-change function of the old one, the invariant is kept, and non-IDLE codes never make a callback or touch the tally |
| `DirectionDetectorScrollListener.ScrollListener.OnFling` | android/src/com/frostwire/android/gui/util/DirectionDetectorScrollListener.java:106-108 | runs the decision check |
| `DirectionDetectorScrollListener.ScrollListener.OnTouchScroll` | android/src/com/frostwire/android/gui/util/DirectionDetectorScrollListener.java:110-112 | runs the decision check |
| `DirectionDetectorScrollListener.ScrollListener.OnIdle` | android/src/com/frostwire/android/gui/util/DirectionDetectorScrollListener.java:114-116 | empties the tally and changes nothing else |
| `DirectionDetectorScrollListener.ScrollListener.OnScroll` | android/src/com/frostwire/android/gui/util/DirectionDetectorScrollListener.java:119-132 | the new state is `ScrollVoting.OnScroll` of the old one, and the invariant is kept |
| `DirectionDetectorScrollListener.ScrollListener.Disable` | android/src/com/frostwire/android/gui/util/DirectionDetectorScrollListener.java:135-149 | closes the given gate and submits exactly one re-enable task for it |
| `DirectionDetectorScrollListener.ScrollListener.CheckCandidates` | android/src/com/frostwire/android/gui/util/DirectionDetectorScrollListener.java:151-166 | the new state is `ScrollVoting.CheckCandidates` of the old one |
| `DirectionDetectorScrollListener.ScrollListener.RunSettleCheck` | android/src/com/frostwire/android/gui/util/DirectionDetectorScrollListener.java:83-91 | running a pending settle check gives the `ScrollVoting.RunTask` state and keeps the invariant |
| `DirectionDetectorScrollListener.ScrollListener.RunReEnable` | android/src/com/frostwire/android/gui/util/DirectionDetectorScrollListener.java:138-147 | running a pending re-enable gives the `ScrollVoting.RunTask` state and keeps the invariant |
| `DirectionDetectorScrollListener.SteadyScrollDownScenario` | android/src/com/frostwire/android/gui/util/DirectionDetectorScrollListener.java:119-163 | scrolling through items 1, 2, 3, 4 makes exactly one `onScrollDown`, empties the tally and closes only the down gate |
| `DirectionDetectorScrollListener.SplitVoteScenario` | android/src/com/frostwire/android/gui/util/DirectionDetectorScrollListener.java:123-163 | 3 ups against 1 down makes no call and the fifth vote makes one `onScrollUp`. While the up gate is closed an up move is not counted and a down move is. |
| `DirectionDetectorScrollListener.SettleScenario` | android/src/com/frostwire/android/gui/util/DirectionDetectorScrollListener.java:79-101 | a settle check after an undisturbed IDLE empties the tally. One that runs after TOUCH_SCROLL resumed keeps the votes counted since. |

## Left out

- The Android `AbsListView` plumbing and the unused `visibleItemCount`/`totalItemCount` arguments of `onScroll`.
- Time, `Thread.sleep` and `Engine.instance().getThreadPool().submit`: a submitted Runnable becomes a pending `Task` that the environment may run at any later point. The 100 ms and 400 ms delays therefore only order events and are not modelled as durations. A pool that never runs a task corresponds to a trace that never fires it.
- `AtomicBoolean` thread safety and the race between a re-enable and a fresh disable: the model is sequential, and each flag is a plain boolean where the last write wins.
- The settle Runnable's `votes.reset()` runs on a pool thread, unsynchronised against `up()`/`down()` on the UI thread, and its test of `inMotion` and the reset are two separate steps. The model runs each task as one atomic step between handler calls, so it does not capture a vote lost or kept by such an interleaving.
- `submit` on the thread pool is modelled as always accepting the task; a rejected submission is not modelled.
- `Logger`, `toString()` and the `ups()`/`downs()` getters: the getters are modelled as reads of the fields.
- The floating-point `votes.total() * 0.5`: it is replaced by the exact integer test `2 * delta > total`.
- The behaviour of the `ScrollDirectionListener` itself: each callback is an entry appended to `notified`.
- `ScrollVoting.CheckCandidates`: with no listener and a decidable tally, the model appends a callback. The source would instead throw a `NullPointerException` at the call on the null listener, after it has reset the tally and closed the gate. `NoListenerNoCallback` proves this state is unreachable from an empty tally, so no reachable behaviour is lost.
- `enabled`: the source never clears this flag. The model keeps it as a field that starts true, and `OnScrollIgnored` covers states where it is false.
- `firstVisibleItem` and `lastFirstVisibleItem`: these are Java `int`s, modelled as unbounded integers. They are only compared, never computed with.
- `ScrollVoting.Step`: firing a task number that is not pending is a no-op in traces. The class methods instead only run a task that is pending.
