# Node dashboard: model and proofs

The dashboard runs one pod per Kubernetes node. Its collectors read the node (processes, mounts,
disks, kernel log, network counters, certificates), cache what they read, and hand it to a page that
refreshes itself every ten seconds. This project models the parts of it that carry state from one
moment to the next, and proves what they keep over every run:

- **The cache protocol of `ttl_cache`** (`TtlCache*.dfy`): any number of calls of one decorated
  coroutine, interleaved at its awaits, with per-key locks, failures shared with queued callers,
  a shorter time to live for degraded results, eviction, cancellation and clearing. A step is the code
  between two awaits. `TtlCacheObject` holds the decorator's three dicts in a class with one method per
  step; every method is proved to be the corresponding step of `TtlCache.Next`, and the theorems are about
  all runs of those steps. `TtlCacheNested` puts many such caches side by side, awaiting one another.
- **Lifetime error counters** (`Counters`, `CounterHistory`): two numbers per counter against the whole
  history of observations since its interface was last absent.
- **Process sampling and selection** (`ProcessSamples`, `ProcessSelection`).
- **The mount table** (`MountText`, `Mounts`): the loop over /proc/1/mountinfo against a declarative
  group-and-minimise, and the text format against the kernel's escaping (section 3.5 of the Linux
  kernel's filesystems/proc documentation).
- **The HTTP client pool** (`HttpClients`): rotation of certificate-backed clients and shutdown.
- **The page's refresh loop and log viewer** (`RefreshLoop`, `LogViewer`).
- **The kernel log scan** (`KernelLog`).

`OrderedDict` is Python's insertion-ordered dict; `Sets` and `Wrappers` are small helpers.

Each stateful component is written twice: as a class whose methods update fields in the order in which
the code does, and as a function from state to state. The methods' postconditions equate the two; the
lemmas then speak about the function, over all inputs or all runs.

What is promised for a cache key is promised from any point at which the key is settled, as long as its lock
is not dropped while calls are on it; what other keys do does not matter (`Drops`, `Trims` and `KeepsLock` in
`TtlCacheRuns` are the conditions, each decided by the state and the event before the step). A key is settled
if its live calls are all on the lock listed for it and, while one computes, its entry is absent or expired and
its failure on record older than that call; a key with no live call always is (`IdleIsSettled`), so a drop in
use voids nothing for longer than the calls it struck. `TtlCacheFewKeys` draws the simple conclusion: with at
most `maxsize` keys and no clear, everything holds for every key.

Where a property one would like to have is false of the code, it is proved exactly when it holds:

- Single flight per *key* is not unconditional, though the docstring of `ttl_cache` reads that way. Eviction
  and `cache_clear` drop the lock of a key that may still be computing or waited for. Any step makes a second
  flight if and only if it brings a call, newcomer or waiter, to the point of computing while another call
  computes (`FlightsNext`, and `FlightsOnRun` for whole runs). Concrete runs show both ways: a newcomer after an
  eviction (`EvictionBreaksSingleFlight`) and a waiter left on a dropped lock (`WaiterBreaksSingleFlight`).
  Per *lock object* it always holds.
- A result is not kept for its time to live if its key is dropped: an entry survives a step if and only if the
  step neither drops its key nor overwrites it, and while a settled key's entry is in date nothing overwrites it,
  so it spares the next caller the computation unless dropped (`EntrySurvives`, `EarlyStart`).
- A failure stays shared with those who wait for it through a step if and only if the step is not a clear and
  does not trim that failure (`SharingNext`); `ClearUnshares` and `TrimUnshares` show both.
- `maxsize` bounds the cache, but the failure records only as long as no computation fails for a new key while
  the record is full, and the lock table only as long as no call arrives for a new key while the table is full
  (`FailuresOnRun`, `LocksOnRun`, equivalences on every run). `FailuresAreUnbounded` shows that neither has a
  bound of its own; `LocksAreBounded` accounts for each lock by an entry in the cache or a call that returned
  no value.
- `parse_mountinfo` accepts a line with five fields and reads the sixth. The model returns an error there,
  if and only if the input holds such a line (`ParseMountinfo`, `ShortLines`).
- A mount whose names hold white space that the kernel does not escape, U+00A0 say, is read back under another
  name: with a root of one word, exactly these are (`NamesReadBack`). A root that falls apart shifts the fields,
  and its second word is taken for the mount point whatever that was (`RootShifts`, `RootsOfBothKinds`).
- A client made while `close_clients` is awaiting is lost; a step leaks if and only if it ends such a
  shutdown (`LeaksExactlyByRacing`), and the code can run into it (`RacingLeaks`).
- The refresh loop stands still after an error handler that itself throws, and only then, until the next
  click (`OneOrTheOther`, `StalledUntilClick`).

## Model

| member | source | states |
|---|---|---|
| TtlCacheObject.CachedFunction.constructor | app/collectors/base.py:126-130 | a freshly decorated function has three empty dicts and satisfies the protocol's invariant |
| TtlCacheObject.CachedFunction.LookUp | app/collectors/base.py:132-136 | the value is found exactly when an entry exists that has not expired at the reading |
| TtlCacheObject.CachedFunction.Arrival | app/collectors/base.py:139-160 | everything from the call to its first await is the step Enter: hit, lock fetched or made, straight in or parked; the invariant is kept |
| TtlCacheObject.CachedFunction.WakeUp | app/collectors/base.py:148-159 | everything from the acquired lock to the next await is the step Wake, and keeps the invariant |
| TtlCacheObject.CachedFunction.UnderLock | app/collectors/base.py:149-159 | inside the lock: the second look, then the failure raised since arrival, then `func`, in that order of precedence |
| TtlCacheObject.CachedFunction.Completion | app/collectors/base.py:158-178 | everything after `func` ends, by value, exception or cancellation, is the step Finish, and keeps the invariant |
| TtlCacheObject.CachedFunction.Save | app/collectors/base.py:163-177 | the success path yields the three dicts of the specification: failure forgotten, entry stored with its time to live, one entry evicted with its lock, one failure trimmed |
| TtlCacheObject.CachedFunction.Evict | app/collectors/base.py:172-175 | only an over-full cache loses an entry, and the lock that goes is that of the same key |
| TtlCacheObject.CachedFunction.Leave | app/collectors/base.py:148-178 | leaving the lock frees it without handing it over; queue and all other locks stand |
| TtlCacheObject.CachedFunction.Abandon | app/collectors/base.py:148-148 | a parked caller that is cancelled leaves the queue and nothing else changes |
| TtlCacheObject.CachedFunction.CacheClear | app/collectors/base.py:180-183 | clearing empties the three dicts and touches no running or parked call |
| TtlCacheInvariant.InvNext | app/collectors/base.py:138-183 | every enabled step keeps the invariant: lock holders and queues match the calls' positions, no record is from the future, the cache is within its size |
| TtlCacheInvariant.CoreUpdate | app/collectors/base.py:147-148 | a call that moves with its own lock object leaves every lock and call consistent: at most one holder, each waiter queued once, on its own lock |
| TtlCacheRuns.RunInv | app/collectors/base.py:138-183 | the invariant holds in every reachable state and the clock never goes back along a run |
| TtlCacheRuns.RunExtends | app/collectors/base.py:138-183 | every enabled step extends every run, so the theorems about runs are about all interleavings |
| TtlCacheRuns.CacheIsBounded | app/collectors/base.py:170-174 | at every await point of every run the cache holds at most `maxsize` entries |
| TtlCacheOutcomes.EnterOutcome | app/collectors/base.py:142-159 | a newcomer gets the value of an entry in date; or else the last place in the queue of a busy lock, with its time of arrival; or else the exception of a failure as late as that; or else its own computation |
| TtlCacheOutcomes.WakeOutcome | app/collectors/base.py:149-159 | a call that wakes up gets the value of an entry in date, or else the exception of a failure since it arrived, or else its own computation |
| TtlCacheOutcomes.FinishOutcome | app/collectors/base.py:158-178 | a computation gives its own caller its value, its exception or its cancellation, and frees the lock |
| TtlCacheOutcomes.ResultsStay | app/collectors/base.py:142-178 | no step changes the result of another call or of one that is over |
| TtlCacheOutcomes.CancelledOnRun | app/collectors/base.py:148-162 | on every run a call ends cancelled if and only if it was itself cancelled, parked or computing |
| TtlCacheOutcomes.StoredExpiry | app/collectors/base.py:165-168 | a result that is kept expires `seconds` later; if `cache_if` rejects it, after the shorter of `seconds` and `retry_after` |
| TtlCacheOutcomes.DegradedIsRetried | app/collectors/base.py:120-122 | a caller that comes when `retry_after` is over after a rejected result computes, or queues up behind one that does |
| TtlCacheRuns.SingleFlightPerLock | app/collectors/base.py:147-159 | on every run, evictions and clears included, at most one call is inside `func` per lock object |
| TtlCacheRuns.AgreementNext | app/collectors/base.py:147-183 | a step keeps every live call on a key on the lock listed for it if and only if it does not evict or clear that key while another call is on it |
| TtlCacheRuns.SettledNext | app/collectors/base.py:147-183 | a key is settled if its calls agree on a lock and, while one computes, its entry is absent or expired and its failure on record older than that call; a step leaves a key settled if and only if it does not drop its lock in use |
| TtlCacheRuns.SettledOnRun | app/collectors/base.py:147-183 | a key settled at one point of a run is settled at every later one, as long as its lock is not dropped in use, whatever happens to other keys |
| TtlCacheRuns.IdleIsSettled | app/collectors/base.py:147-183 | a key with no live call is settled, in every reachable state, whatever was dropped before |
| TtlCacheRuns.StaleWhileComputing | app/collectors/base.py:149-159 | from a settled point on, with the lock of the key not dropped in use, while a call is inside `func` the entry of its key is absent or expired and the failure on record for it is older than the call |
| TtlCacheRuns.SingleFlightPerKey | app/collectors/base.py:110-114 | from a settled point on, with the lock of the key not dropped in use, at most one call is inside `func` for the key |
| TtlCacheRuns.FlightsNext | app/collectors/base.py:142-159 | any step, in any state with at most one flight on the key, makes a second one if and only if it brings a newcomer or a woken waiter to the point of computing while another call computes |
| TtlCacheRuns.FlightsOnRun | app/collectors/base.py:142-159 | on every run a key is never computed twice at once if and only if no event did so |
| TtlCacheRuns.NextComputes | app/collectors/base.py:142-159 | a step starts a computation for a key if and only if its call finds nothing fresh, no failure as late as its arrival, and for a newcomer a lock that is new or free with nobody parked |
| TtlCacheRuns.SecondFlight | app/collectors/base.py:142-159 | so for a key with neither lock nor entry a newcomer makes a second flight if and only if a first one is still running and no failure bears the very time of its arrival |
| TtlCacheRuns.DropForgets | app/collectors/base.py:172-183 | an eviction, or a clear, leaves its key with neither entry nor lock |
| TtlCacheRuns.EntrySurvives | app/collectors/base.py:163-183 | an entry survives a step, as it is, if and only if the step neither evicts or clears its key nor ends a computation that makes another entry; the latter never happens to an entry in date of a settled key |
| TtlCacheRuns.EarlyStart | app/collectors/base.py:142-183 | for a settled key with an entry in date, a caller that comes after the step and before the expiry computes if and only if the step dropped the key and no failure is as late as the caller |
| TtlCacheSharing.FailureIsShared | app/collectors/base.py:146-163 | when `func` raises for a settled key, each call then parked on its lock is at every later point cancelled, or has that very exception, or is still parked ahead of every later arrival: none computes for it again; as long as the lock is not dropped in use nor the failure trimmed while they wait |
| TtlCacheSharing.SharingNext | app/collectors/base.py:148-183 | for a settled key, a step keeps a failure shared among those queued behind it if and only if it does not clear, or trim that failure, while some of them wait |
| TtlCacheSharing.WhileWaiting | app/collectors/base.py:147-159 | while some of them wait, their lock is the one listed and nobody computes for the key |
| TtlCacheCancellation.ArrivalOrder | app/collectors/base.py:146-148 | on every run the calls on a lock stand in order of arrival, the holder first |
| TtlCacheCancellation.CancelLeavesNoTrace | app/collectors/base.py:158-162 | a cancelled computation changes none of the three dicts, in any state |
| TtlCacheCancellation.CancelStarts | app/collectors/base.py:148-162 | for a settled key it leaves nothing on record that could keep a waiter from computing |
| TtlCacheCancellation.NextWaiterComputes | app/collectors/base.py:146-162 | the first waiter woken after a cancelled computation for a settled key computes, as long as the lock of the key is not dropped in use |
| TtlCacheHistory.RecordsOnRun | app/collectors/base.py:158-168 | on all runs, every entry and every failure on record is the trace of a computation for the same key, entries with the right expiry |
| TtlCacheHistory.Provenance | app/collectors/base.py:132-178 | on all runs, every value returned was computed by this call, or for the same key and read within `seconds` of coming, and within `retry_after` if `cache_if` rejects it; every exception was raised by this call or for the same key no earlier than the call arrived |
| TtlCacheHistory.StartsAreSpaced | app/collectors/base.py:142-168 | no computation starts while an earlier result for its key has `seconds` left, and `retry_after` if `cache_if` rejects it, if the key was settled when that result came and has not been dropped since |
| TtlCacheHistory.RateBound | app/collectors/base.py:142-168 | from a settled point on, if a key is not dropped and nothing for it fails, is cancelled or is degraded, the first `m + 1` computations for it span at least `m` times the time to live |
| TtlCacheHistory.VictimIsLeast | app/collectors/base.py:173-173 | the victim has the smallest expiry and is the first such in insertion order |
| TtlCacheHistory.NewestIsVictimIff | app/collectors/base.py:165-175 | an over-full cache gives up the entry just stored if and only if that one expires strictly before all others |
| TtlCacheHistory.NewestStays | app/collectors/base.py:165-175 | with one time to live and `maxsize` at least 1, the entry just stored stays, clock ties included |
| TtlCacheHistory.SuccessTrims | app/collectors/base.py:163-177 | a success forgets the failure of its key and at most one other, the oldest, and only if there are still more than `maxsize` |
| TtlCacheBounds.FailuresNext | app/collectors/base.py:158-177 | a step keeps the failures within `maxsize` if and only if it is not a failure for a key with none on record while the record is full |
| TtlCacheBounds.FailuresOnRun | app/collectors/base.py:158-177 | on every run the failures stay within `maxsize` if and only if no such failure happened |
| TtlCacheBounds.AccountedOnRun | app/collectors/base.py:147-183 | on every run each lock in the table is of a key in the cache or of one with a call that is under way, raised or was cancelled |
| TtlCacheBounds.LocksNext | app/collectors/base.py:142-183 | a step keeps the lock table within `maxsize` if and only if it is not an arrival that finds nothing fresh and no lock for its key while the table is full |
| TtlCacheBounds.LocksOnRun | app/collectors/base.py:142-183 | on every run the lock table stays within `maxsize` if and only if no such arrival happened |
| TtlCacheBounds.LocksAreBounded | app/collectors/base.py:147-183 | on every run the table holds at most `maxsize` locks plus one for each key with a call that is under way, raised or was cancelled; where nothing failed or was cancelled, plus one for each call under way |
| TtlCacheFewKeys.QuietStore | app/collectors/base.py:170-177 | with at most `maxsize` keys a store neither evicts nor trims |
| TtlCacheFewKeys.FewKeysSettled | app/collectors/base.py:170-177 | at most `maxsize` distinct keys and no clear: no key is ever dropped, and all are settled throughout |
| TtlCacheFewKeys.FewKeysSingleFlight | app/collectors/base.py:110-114 | so single flight holds for every key, whatever fails, is cancelled or interleaves |
| TtlCacheFewKeys.FewKeysShareFailures | app/collectors/base.py:116-118 | and every failure is shared with those queued behind it |
| TtlCacheFewKeys.FewKeysSpaced | app/collectors/base.py:142-168 | and every result lasts its time to live |
| TtlCacheFewKeys.FewKeysRate | app/collectors/base.py:142-168 | and the rate bound holds for every key |
| TtlCacheLimits.FailuresAreUnbounded | app/collectors/base.py:147-177 | for every `n`, whatever `maxsize`, some run ends with `n` failures, `n` locks and an empty cache |
| TtlCacheLimits.EvictionBreaksSingleFlight | app/collectors/base.py:170-175 | six events after which one key is being computed twice, the second time by a newcomer |
| TtlCacheLimits.WaiterBreaksSingleFlight | app/collectors/base.py:148-183 | six events after which one key is being computed twice, the second time by a waiter left on a dropped lock, though nobody computed when the first of the two arrived |
| TtlCacheLimits.ClearUnshares | app/collectors/base.py:150-183 | a clear between a failure and its sharing makes the first parked caller compute where it would have raised |
| TtlCacheLimits.TrimUnshares | app/collectors/base.py:153-177 | eight events after which a caller parked behind a failing computation computes again, because a success for another key trimmed the failure |
| TtlCacheNested.WaitsGoDown | app/collectors/base.py:147-159 | every wait, on a lock or on an awaited call, goes strictly down in (rank of the function, position in the queue) |
| TtlCacheNested.NoWaitCycle | app/collectors/base.py:147-159 | no cycle of waits is reachable in any system of caches that await one another by rank |
| TtlCacheNested.Progress | app/collectors/base.py:147-178 | while any call is live, in any reachable state, some call can be woken or can return, at a time no earlier than any cache has read from the one clock |
| TtlCacheNested.Drains | app/collectors/base.py:147-178 | from every reachable state, wake-ups and returns alone, at most two per live call, bring every call to its result |
| TtlCacheNested.StorageDrains | app/collectors/storage.py:21-30 | the storage collectors, which await one another in three ranks, are such a system |
| Counters.CounterBoard.CounterSeverity | app/routers/warnings.py:34-57 | one observation updates its own counter and is judged by the updated one |
| Counters.CounterBoard.MemoryWarnings | app/routers/warnings.py:212-236 | the two memory counters are observed in order, uncorrectable errors first |
| Counters.CounterBoard.NetworkWarnings | app/routers/warnings.py:238-262 | two counters per interface are observed, in the order of the list, and each warning follows its observation |
| Counters.CounterBoard.ForgetAbsent | app/routers/warnings.py:263-269 | exactly the counters of interfaces not listed are dropped, the others unchanged |
| Counters.CounterBoard.GetWarnings | app/routers/warnings.py:212-269 | one pass over the table, a failed memory or interface collection included |
| CounterHistory.RepresentsUpdate | app/routers/warnings.py:44-52 | updating (value, last increase) keeps it a summary of the history with the new observation added |
| CounterHistory.JudgeIsDue | app/routers/warnings.py:34-57 | judged from the summary or from the full history, the severity is the same: none at zero, full if the counter changed to a positive value within the window, else info |
| CounterHistory.ReadFromItsField | app/routers/warnings.py:213-253 | what a pass observes of each of the four counters is its own field of what was collected, with the reading's own time, for interfaces of one name in the order of the list |
| CounterHistory.Severities | app/routers/warnings.py:214-253 | a rising counter is critical, but for the correctable memory errors, which are a warning |
| CounterHistory.ReadingOrder | app/routers/warnings.py:213-253 | the memory counters come first, then each interface in order, CRC before carrier, and nothing else |
| CounterHistory.HistoryStep | app/routers/warnings.py:263-269 | the history of a counter, being what was seen of it after the last listing without its interface, grows by what a pass saw, or ends with a pass that misses the interface |
| CounterHistory.TableRefinesHistory | app/routers/warnings.py:44-52 | after any sequence of passes a counter is in the table if and only if that history is not empty, and its entry then has the last value and, while that is positive, the time of the last change to a positive value |
| CounterHistory.WarningsAreDue | app/routers/warnings.py:212-269 | after any sequence of passes on one clock the next one emits exactly the warnings that those histories call for |
| CounterHistory.KeysAreProper | app/routers/warnings.py:214-263 | no other keys ever enter the table |
| CounterHistory.NetworkKeys | app/routers/warnings.py:238-269 | after a pass that listed the interfaces the network keys are exactly those interfaces times the two counters; after one that could not, every network entry is as before |
| CounterHistory.TableIsBounded | app/routers/warnings.py:264-269 | the table holds at most two entries per listed interface plus two |
| ProcessSamples.ProcessCollector.Collect | app/collectors/processes.py:146-274 | a pass replaces the samples as a whole, or keeps them if it has no uptime, and reports each row against the samples of the pass before |
| ProcessSamples.SampleIsLastRead | app/collectors/processes.py:211-211 | the sample kept of a process has the ticks last read of it and the time of the pass |
| ProcessSamples.RowOfSeen | app/collectors/processes.py:207-265 | a process read with its memory gets exactly one row, with its pid and its own two percentages |
| ProcessSamples.MemoryShare | app/collectors/processes.py:236-238 | the memory percentage is the share of the total, within 0.005, and 0 without a total |
| ProcessSamples.NoDelta | app/collectors/processes.py:129-143 | without time passed, or with fewer ticks than before, no difference is reported |
| ProcessSamples.Telescopes | app/collectors/processes.py:129-143 | over any run of passes the percentages computed from kept samples, times their intervals, add up to the difference of the samples, within 0.005 per second, aborted passes included |
| ProcessSamples.ReportsTelescope | app/collectors/processes.py:129-274 | over any run of passes that read a process, the percentages in the rows returned for its pid, times the seconds between complete passes, add up to 100 times the CPU seconds by the ticks read first and last, within 0.005 per second |
| ProcessSamples.AverageTimesAge | app/collectors/processes.py:138-143 | at first sighting the percentage times the age is 100 times the CPU seconds of the whole life, within 0.005 per second, and 0 for an age that is not positive |
| ProcessSamples.SamplesAreOfLastGood | app/collectors/processes.py:207-274 | the samples are always those of the last pass that had an uptime, so exited processes are gone |
| ProcessSamples.RecycledPidHasNoDelta | app/collectors/processes.py:124-143 | a process not seen in that pass, a recycled pid among them, is never given a difference of counters |
| ProcessSelection.Select | app/collectors/processes.py:276-282 | the code's lists are the specified ones |
| ProcessSelection.StableOrder | app/collectors/processes.py:278-279 | the order is descending, and equal keys keep their places |
| ProcessSelection.RankInOrder | app/collectors/processes.py:278-279 | the place of a process in the sorted list is the number of processes ahead of it |
| ProcessSelection.TopIsByRank | app/collectors/processes.py:278-282 | the first `n` of a sort are exactly the processes of rank below `n` |
| ProcessSelection.RowsAreDistinct | app/collectors/processes.py:180-265 | a pass that reads each pid once reports each pid at most once |
| ProcessSelection.SelectionIsExact | app/collectors/processes.py:276-282 | for distinct pids the result is exactly the top 200 by memory and the top 50 by CPU, each once, at most 250 in all |
| ProcessSelection.SelectionOrder | app/collectors/processes.py:276-282 | the first 200 are in descending order of memory, outweigh all later ones, and those are in descending order of CPU use |
| Mounts.ParseMountinfo | app/collectors/storage.py:392-420 | fails if and only if some line is one field short; otherwise the result has one row per device of the eligible lines, in order of first appearance, the earliest line with the shortest mount point, and no overlay but one on `/` |
| Mounts.TableIsUnique | app/collectors/storage.py:392-420 | that specification determines the table, order included |
| Mounts.AddLine | app/collectors/storage.py:415-419 | one more eligible line keeps the table right: new device last, strictly shorter mount point replaces in place |
| Mounts.OneOverlay | app/collectors/storage.py:409-414 | at most one overlay line ever counts |
| Mounts.OverlayRows | app/collectors/storage.py:409-414 | every overlay returned is mounted on `/`, and there is at most one |
| Mounts.OthersAreListed | app/collectors/storage.py:403-419 | every other line that is not ignored, and the first overlay on `/`, has its device in the result, with a mount point no longer than its own |
| Mounts.ResultIsUnique | app/collectors/storage.py:392-420 | what is to be returned is determined, row by row and in order |
| Mounts.MountRoundTrip | app/collectors/storage.py:397-408 | a line written the kernel's way, all white space in its names escaped, is read back as the device, source, type and mount point it was written for, or ignored if and only if its type is skipped or its options hold `ro` |
| Mounts.SpelledLine | app/collectors/storage.py:397-398 | a line falls apart into the words of its names, each in its place, whatever white space they hold, and the separator is found where it was put |
| Mounts.NamesReadBack | app/collectors/storage.py:387-408 | if the root is written as one word, a mount with any white space in its names is read back as it was if and only if it is not skipped and not `ro` and every white space in both names is one the kernel escapes |
| Mounts.RootShifts | app/collectors/storage.py:397-408 | if the root falls apart, its second word is read as the mount point and the next word as the options, whatever they were |
| Mounts.RootsOfBothKinds | app/collectors/storage.py:397-408 | a root whose white space is all escaped is one word; one with other white space in the middle makes the mount read back, if at all, as mounted on what follows it |
| Mounts.ShortLines | app/collectors/storage.py:397-407 | a line with fewer than five fields before the separator or two after it is passed over; one with exactly five is an index error unless its type is skipped |
| MountText.UnescapeInverts | app/collectors/storage.py:387-389 | unescaping undoes octal escaping for every string and every set of escaped characters that includes the backslash |
| MountText.BackslashMustBeEscaped | app/collectors/storage.py:387-389 | were the backslash not escaped, a name would be read back as it was if and only if nothing in it looks like an escape |
| MountText.EscapedIsWord | app/collectors/storage.py:387-398 | a non-empty escaped name is a single field |
| MountText.SplitJoin | app/collectors/storage.py:398-398 | splitting a line at white space gives back the fields it was joined from |
| MountText.SplitFields | app/collectors/storage.py:398-398 | joined fields fall apart into their own words, whatever white space they hold |
| MountText.NameFallsApart | app/collectors/storage.py:398-398 | other white space in the middle of a name makes two words of it, each the escaped form of its half |
| MountText.FirstWord | app/collectors/storage.py:398-398 | the first word of an escaped name stands for a part of it, and for all of it only if all its white space is escaped |
| MountText.SplitOnJoin | app/collectors/storage.py:407-407 | splitting a list of options at commas gives back the options |
| MountText.FindSeparator | app/collectors/storage.py:397-397 | the separator of a line is found where it was put, provided no field is a lone dash |
| HttpClients.ClientPool.Client | app/httpclient.py:38-43 | hands out the client of the key, made anew only when there is none or it is closed |
| HttpClients.ClientPool.CertClient | app/httpclient.py:46-72 | hands out the current client, rebuilds and retires on a change of stamps, and gives none if the files or the context cannot be read |
| HttpClients.ClientPool.CloseNext | app/httpclient.py:151-156 | one stretch of the shutdown: past the closed clients to the next open one, which it closes, or to the end, where it empties the pool |
| HttpClients.ClientPool.CloseClients | app/httpclient.py:149-156 | left to itself the shutdown closes every client ever made and empties the pool |
| HttpClients.InvNext | app/httpclient.py:46-72 | every step keeps each certificate client in the pool built for its key from the files as stamped |
| HttpClients.LeaksExactlyByRacing | app/httpclient.py:149-156 | a step leaves an open client unreachable if and only if it ends a shutdown during which a client was made; clients can be made only while the shutdown awaits the closing of another |
| HttpClients.RacingLeaks | app/httpclient.py:149-156 | four steps the code can take after which a client is open and nowhere to be found |
| HttpClients.OpenClientsAreFound | app/httpclient.py:28-72 | in every run in which no client is made while a shutdown awaits, every open client is in `_clients` or `_retired` |
| HttpClients.ShutdownClosesAll | app/httpclient.py:149-156 | after such a shutdown no client ever made is open |
| HttpClients.HandsOutOpen | app/httpclient.py:38-72 | every client handed out, even during a shutdown, is open and was built for the key asked for |
| HttpClients.HandsOutLatest | app/httpclient.py:38-72 | and it is the last client built for the key, where no client is made while a shutdown awaits |
| HttpClients.UnreadableGivesNone | app/httpclient.py:56-59 | if a certificate file cannot be read, nothing is handed out and nothing changes |
| HttpClients.PlainBuildsExactly | app/httpclient.py:38-43 | a plain client is built exactly when the last one built for the key, if any, is closed; on such runs |
| HttpClients.CertClientIsCurrent | app/httpclient.py:56-72 | a certificate client is handed out only open, for its key, and built from files with the stamps just read; none is handed out only if the context cannot be built |
| HttpClients.RebuildsExactlyOnChange | app/httpclient.py:49-72 | in every run in which no client is made while a shutdown awaits, any number of shutdowns included, a client is built exactly when files and context can be read and the last one built for the key, if any, is closed or bears other stamps |
| RefreshLoop.Page.FetchOverview | app/static/app.js:96-100 | up to its first await a refresh either does nothing or takes over from the timer |
| RefreshLoop.Page.Finish | app/static/app.js:168-174 | the end of a refresh releases it and restarts the countdown unless the error handler threw |
| RefreshLoop.Page.ResetCountdown | app/static/app.js:207-210 | the countdown is full and one new interval replaces the one known |
| RefreshLoop.Page.OnTick | app/static/app.js:210-220 | a tick counts down, and at zero stops the interval and starts a refresh |
| RefreshLoop.OneOrTheOther | app/static/app.js:96-221 | at every event boundary of every run exactly one of a refresh in progress and a single live interval holds, with the countdown in 0..10 and no interval lost, if and only if the last event was not an error handler that threw |
| RefreshLoop.TicksLeadToRefresh | app/static/app.js:207-221 | left alone, the next refresh begins with the last tick of the countdown and no sooner |
| RefreshLoop.ClickRefreshes | app/static/app.js:96-100 | a click begins a refresh and stops the interval, or does nothing if one is in progress |
| RefreshLoop.TenTicksLater | app/static/app.js:170-221 | after a refresh ends, the next begins with the tenth tick, the countdown showing what is left |
| RefreshLoop.StalledUntilClick | app/static/app.js:168-173 | after an error handler that threw only a click can happen, and it sets the loop going again |
| LogViewer.LogPage.OpenLogViewer | app/static/app.js:1022-1039 | the old socket is dropped and a new one starts with an empty buffer |
| LogViewer.LogPage.SocketOpened | app/static/app.js:1063-1067 | the page is emptied for the current socket only |
| LogViewer.LogPage.AppendLine | app/static/app.js:1058-1082 | text of the current socket is buffered; text of an old one is ignored |
| LogViewer.LogPage.FlushPending | app/static/app.js:1041-1056 | the buffer becomes one chunk of the page, which is then trimmed; a late flush of an old socket changes nothing shown |
| LogViewer.LogPage.Trim | app/static/app.js:1051-1054 | the loop ends, having dropped a number of oldest chunks that the specification gives, and counted them off |
| LogViewer.TextsAreDelivered | app/static/app.js:1058-1082 | what is on record of a socket is every text that came while it was the current one, once, in order |
| LogViewer.ShownIsSuffix | app/static/app.js:1022-1083 | the text shown plus the text pending is a suffix, cut between chunks, of what came for this socket while it was the current one, the banner before it until the socket opens; `size` is the length shown, the banner not counted |
| LogViewer.OnlyTheseShow | app/static/app.js:1022-1083 | what is shown changes only when a viewer opens, when its socket opens and when its pending text is flushed |
| LogViewer.OnlyThesePend | app/static/app.js:1041-1061 | what is pending changes only by a text that comes for the current socket, and by a flush |
| LogViewer.FlushDueOnRun | app/static/app.js:1058-1061 | on every run pending text of the current socket has a timer set to flush it |
| LogViewer.TrimIsLeast | app/static/app.js:1051-1054 | the loop drops the fewest chunks that bring the text within the limit or down to the last chunk |
| LogViewer.FlushBounds | app/static/app.js:1041-1056 | after every flush of every run, before or after the socket opened, the text shown is at most the larger of the limit and the last chunk, and one chunk more would have been over the limit; the banner of a socket that has not opened comes on top |
| KernelLog.FirstMatch | app/collectors/dmesg.py:227-230 | the rule found is the first that matches, and none is found only if none does |
| KernelLog.FileNext | app/collectors/dmesg.py:217-230 | one line is filed under its first matching rule, if it is kept and has one, and under no other |
| KernelLog.Scan | app/collectors/dmesg.py:208-249 | the scan files every kept line under its first matching rule and reports the rules that were hit |
| KernelLog.CountIsLines | app/collectors/dmesg.py:217-230 | a count is the number of lines, neither blank nor aged out, whose first match is that rule |
| KernelLog.HitsInOrder | app/collectors/dmesg.py:227-230 | what is filed under a rule is the stripped message of each line that counts for it, in order |
| KernelLog.StampsAndMessages | app/collectors/dmesg.py:186-225 | a line is kept if it is not blank and not stamped before the cutoff, by its ISO date or by its seconds since a known boot; its message is what follows the stamp |
| KernelLog.ExcludedIsNoFault | app/collectors/dmesg.py:37-40 | a line that counts for a rule hits none of its exclusions and one of its patterns |
| KernelLog.CountsAddUp | app/collectors/dmesg.py:217-230 | the counts of all rules add up to the number of kept lines that match anything |
| KernelLog.HitsAppend | app/collectors/dmesg.py:217-230 | scanning two logs in a row files what scanning each files, in that order |
| KernelLog.LaterCutoffCountsLess | app/collectors/dmesg.py:221-225 | moving the cutoff later never raises a count, and removes stamped lines only |
| KernelLog.Sample | app/collectors/dmesg.py:238-238 | the sample shows the last two messages, or all there are, each whole or cut to its first 120 characters |
| KernelLog.FindingsInOrder | app/collectors/dmesg.py:232-249 | the findings are those of exactly the rules that were hit, in the order of the rules, each with its count and sample |
| KernelLog.FindingsCountLines | app/collectors/dmesg.py:232-249 | the count in each finding is the number of lines whose first match is its rule, and rules without one have no such line |
| OrderedDict.Dict.FirstMin | app/collectors/base.py:173-177 | `min` over a dict: the first key in insertion order whose cost is least |

## Left out

- Subprocesses, file reads, HTTP, TLS and the WebSocket transport: outside behaviour; what they deliver is a parameter (the outcome of `func`, lines, stamps, texts).
- Regular expressions of the log rules and of the stamp formats: `KernelLog` takes the answer of each pattern as a function; rules are required to be pairwise different, as the constant table is.
- HTML rendering, themes, the pydantic models, section routers and thin parsers (EFI, USB, GPU, PCI, sensors, node): one loop or branch each.
- `parse_smart`, etcd status arithmetic, authentication, shell scripts, Helm chart and image: independent branches or configuration.
- The other warnings of `get_warnings`, and the message text of the counter warnings: only the counter table and the severities are modelled.
- asyncio's scheduling inside one lock hand-over: `asyncio.Lock` is a holder and a first-in-first-out queue; a cancelled waiter leaves the queue in its own step. Lock objects, clients, timers and sockets are identities rather than heap objects.
- `cache_if` raising, and a `maxsize` below zero, where `min` would be asked for the least of an empty dict: not modelled.
- Cache keys are taken as given; that `f"{args}:{kwargs}"` tells argument lists apart is not modelled.
- NamesReadBack: leaves aside names made of nothing but white space that the kernel does not escape, and a root not written as one word, for which `RootShifts` says what is read.
- RebuildsExactlyOnChange: is about runs in which no client is made while a shutdown awaits; a client lost in such a race is not reused although it is open.
- Floating point: times and percentages are exact reals; rounding to two decimals is any function within 0.005.
- Unparsable /proc/uptime raises out of a pass and keeps the samples; only the missing uptime is modelled, with the same effect on the samples. `total_count` and the other columns of a process row are left out.
- Python's `sorted` and `min` and JavaScript's `Array.join` are specified by functions rather than modelled as algorithms.
- `str.splitlines`: `ParseMountinfo` starts from the lines. Strings are sequences of characters, also where JavaScript counts UTF-16 units.
- The stretches of a refresh between its awaits: rendering changes no loop state, so a refresh is one beginning and one end. Failures of `clearInterval` and `setInterval` are not modelled.
- A second `close_clients` while one is under way, and clients closed by anyone else.
