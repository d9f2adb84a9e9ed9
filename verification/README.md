# Webhook delivery, dead letters and paging: a Dafny model

This project models the part of the AIISTECH backend that delivers webhook events and keeps what it
could not deliver, together with the ordered key/value store and the two list pagers underneath. To
verify it, run `dafny verify dfyconfig.toml`.

## What is modelled

**Delivery.** A bounded job channel feeds a pool of workers (`WorkerPool`). A worker lists the
subscriptions (`MultiProvider`, `StoreProvider`), keeps the enabled ones whose event filter matches
(`Subscriptions`), and POSTs to each up to the configured number of times, sleeping in between
(`Backoff`, `Dispatcher`). A delivery that never succeeds becomes a dead letter (`DeadLetters`).

**Dead letters.** Four kinds of actor work on the dead letters: workers that add them, the retry
scheduler, operators who replay one or all, and operators who delete. A replay takes a snapshot of a
letter, POSTs it, and then saves or deletes it; nothing locks the letter in between.
`ReplayMachine` lets these steps interleave in every order, with failing POSTs and failing store
writes. `SchedulerRuns` adds the structure of a scheduler pass (list, read one by one, launch a
bounded number, commit) and the readings of a clock that does not go back, with all other actors
still at work. `ExactAttempts` says when Attempts is the number of failed replays, `LetterStories`
follows one letter through a timed run, `SchedulerTotals` adds up whole runs, `Counters` is about the
three metrics. `ParallelPass` is one pass of goroutines under a semaphore.
`Dispatcher.WorkerDispatcher` and `ReplayHandlers` hold the methods themselves; both they and the
step machines are tied to the one function `DeadLetters.Settle`, which says what a settled replay
leaves in the bucket.

**Store and pagers.** `Storage` is the bbolt store: buckets as maps, cursor movements `First`, `Seek`
and `Next` over keys in byte order. `StoreWalk` follows a client paging through a bucket while others
write and delete. `FilteredList` is the filter-then-page endpoint, `Loading` the loop that reads the
record behind every listed key, `KeyFormat` the timestamp keys and the list filters, `AuditLog` the
keys of the audit trail.

**End to end.** `System` runs the worker pool and the dead-letter queue as one machine, from the
accepted event to the letter of each receiver. `EndToEnd` composes the other parts: from the
providers' answers to the queue for one event, from one delivery to all POSTs ever made on its
account, and from a listed queue to what a finished pass leaves of it.

## Conventions

- A Go string is a sequence of bytes; here each byte is one `char`. Times and durations are
  nanoseconds as integers. Where the code can leave 64 bits (the dead-letter back-off, the audit
  counter) the wrap-around is modelled.
- POST outcomes, clock readings, encoding results and store failures are parameters, so every
  statement holds for all of them. A POST either succeeds or fails with an error text.
- Reads that follow a key listing see arbitrary later states of the bucket (`Loading.Views`).
- New dead letters get a key made from a clock reading. That such a key is new is an assumption of
  the step machines; `Delivery.EveryDeathCountsExactlyWhen` says exactly what it is worth.
- Methods of one object run one call at a time; the step machines treat the interleavings.

## Where code and comments differ

The model follows the code.

- `internal/storage/store.go:22-24` promises an empty cursor when nothing follows the page. After an
  exactly full last page the cursor is not empty: `StoreWalk.CursorPromiseKeptExactlyWhen`.
- `internal/http/handlers.go:543-544` says a cursor means "strictly after this key". A cursor that is
  not a listed, matching key restarts the list, as a later comment admits:
  `FilteredList.RestartsExactlyWhen`, and `FilteredList.FilteredWalkCanRepeat` for the walk it spoils.
- `internal/http/handlers.go:308` offers time bounds on the audit list. No audit key carries a
  readable timestamp, so a bounded list is always empty: `AuditLog.BoundedAuditListsAreEmpty`.
- `internal/webhooks/worker_dispatcher.go:353-356` speaks of a 24 h cap. With the default base the
  longest wait is 1280 minutes, and a base above MaxInt64 / 256 overflows to a negative wait:
  `Backoff.DefaultBaseNeverCaps`, `Backoff.BackoffMeetsPromiseIff`.
- `internal/webhooks/dlq.go:39-41` calls Attempts the number of replay attempts. Overlapping failures
  are counted once (`ReplayMachine.OverlappingFailuresCountOnce`), and a failure whose commit the
  store refuses is not counted; `ExactAttempts.AttemptsExactExactlyWhen` says when the count is exact.
- `internal/http/dlq_handlers.go:77-78` removes a record; a replay that is under way can bring it
  back, because Save is an upsert. `ReplayMachine.GoneForGoodExactlyWhen` says when that cannot
  happen, `ReplayMachine.DeletedLetterCanComeBack` is a run in which it does.
- `internal/webhooks/dlq.go:50-53` promises that a failed replay pushes the next one back. When the
  store refuses the commit (`internal/webhooks/worker_dispatcher.go:371-376` only logs it) neither
  Attempts nor the waiting time is stored, and the next scan replays, however soon it comes:
  `LetterStories.LostCommitReplaysAtOnce`; exactly when, `LetterStories.PickedAgainAtOnceExactlyWhen`.
- When listing the subscriptions fails, the event is dropped without dead letters; that is part of
  `Dispatcher.WorkerDispatcher.Process`.

## Model

| member | source | states |
|---|---|---|
| ReplayMachine.StepKeepsInv | internal/webhooks/worker_dispatcher.go:232-377 | every step of every actor, with or without a store failure, keeps the invariant that ties letters, replays under way and history together |
| ReplayMachine.NoDeadLetterLost | internal/webhooks/worker_dispatcher.go:232-377 | under any interleaving from any well-formed bucket, an id ever stored is still there, was delivered by a replay, or was deleted by an operator; every copy carries the original event and target |
| ReplayMachine.AttemptsNeverOvercount | internal/webhooks/dlq.go:39-41 | under any interleaving a stored letter's Attempts is at most the number of its failed replays |
| ReplayMachine.GoneForGoodExactlyWhen | internal/webhooks/dlq.go:80-91 | from any reachable state, a letter that is gone stays gone in every further run, whatever anybody does, if and only if no replay of it is under way that has not been delivered |
| ExactAttempts.AttemptsExactExactlyWhen | internal/webhooks/dlq.go:39-41 | in every run from any bucket, a stored letter's Attempts accounts for all its failed replays if and only if none was lost: each commit of a failed replay reached the store, and no other failure of the letter had committed since its snapshot |
| ReplayMachine.CommitExactExactlyWhen | internal/webhooks/worker_dispatcher.go:328-377 | for one replay: at the commit of its failure Attempts is exact if and only if it was at the snapshot and no other replay of the letter failed in between |
| ReplayMachine.StepKeepsExact | internal/webhooks/worker_dispatcher.go:328-377 | a step that does not overlap with a replay of the letter keeps its Attempts exact |
| ReplayMachine.AttemptsExactWithoutOverlap | internal/webhooks/dlq.go:39-41 | if the replays and deletes of one letter do not overlap and its commits reach the store, its Attempts equals its failed replays, a pending commit aside, and it is delivered at most once, whatever happens to other letters |
| ReplayMachine.GoneStaysGoneWithoutOverlap | internal/http/dlq_handlers.go:77-95 | such a letter, once gone, never reappears, even if the discipline ends there |
| ReplayMachine.DeletedLetterCanComeBack | internal/http/dlq_handlers.go:115-137 | a concrete run in which an operator's delete is undone by a replay that fails later |
| ReplayMachine.OverlappingFailuresCountOnce | internal/http/dlq_handlers.go:104-135 | two overlapping failed replays raise Attempts by one only |
| ReplayMachine.UndisturbedReplay | internal/http/dlq_handlers.go:101-153 | the three steps of a replay, taken in one piece, are what the sequential methods do to the bucket |
| SchedulerRuns.TraceIsMachineRun | internal/webhooks/worker_dispatcher.go:277-377 | every timed run refines a run of the general machine |
| SchedulerRuns.StepKeepsInv | internal/webhooks/worker_dispatcher.go:295-326 | every step of workers, scheduler and operators keeps the invariant of the timed machine |
| LetterStories.StepKeepsAt | internal/webhooks/worker_dispatcher.go:295-377 | every step but a manual replay of the letter keeps its story: spacing, count and bounds |
| LetterStories.StoryOfFound | internal/webhooks/worker_dispatcher.go:295-303 | a letter found at start-up keeps the base and the count it was found with |
| LetterStories.ReplaysAreSpaced | internal/webhooks/worker_dispatcher.go:242-360 | from any bucket, with operators on other letters, deletes, aborted listings and failing writes: a scheduler replay that finds Attempts a begins no earlier than the base plus the cooling-off period plus one back-off per counted replay; its n-th replay finds n counted but for commits refused before |
| LetterStories.ReplaysSpacedExponentially | internal/webhooks/worker_dispatcher.go:353-360 | if no commit of the letter was refused that is c*2^(n-1) for the first ten replays, and 256c more for each later one, when 256c is within a day |
| LetterStories.PickedAgainAtOnceExactlyWhen | internal/webhooks/worker_dispatcher.go:351-376 | after a failed replay a pass beginning at once would pick the letter again if and only if its commit was refused or its back-off overflows |
| LetterStories.LostCommitReplaysAtOnce | internal/webhooks/worker_dispatcher.go:371-376 | a run whose second replay begins with the next scan, however soon, because the first commit was refused |
| LetterStories.ReplaysAreAccountedFor | internal/webhooks/worker_dispatcher.go:328-377 | Attempts and refused commits together account for every scheduler replay of an idle letter |
| LetterStories.ReplaysAreBounded | internal/webhooks/worker_dispatcher.go:308-311 | from any bucket, the scheduler POSTs a letter at most as often as its first Attempts leaves room for plus once per refused commit, and never counts beyond the maximum |
| LetterStories.TerminalStaysForGood | internal/webhooks/dlq.go:58-62 | a terminal letter, found at start-up or made so since, stays unchanged until an operator replays or deletes it |
| SchedulerTotals.DeliveryPostsBounded | internal/webhooks/worker_dispatcher.go:192-377 | in a run, the POSTs of one delivery and of the letter it left are within the two maxima plus refused commits; accepted or unsaved deliveries within the first |
| SchedulerTotals.SchedulerRunsDry | internal/webhooks/worker_dispatcher.go:308-377 | from any bucket, all scheduler POSTs of a run are at most the room in the letters found, the maximum per new letter, and one per refused commit |
| Counters.SchedulerIsExclusive | internal/webhooks/worker_dispatcher.go:295-326 | a scheduler pass never overlaps another replay of the same letter, although nothing is locked |
| Counters.RunIsExclusive | internal/webhooks/worker_dispatcher.go:295-377 | letter by letter, an unattended run is a run of the general machine without overlap |
| Counters.CountersBalance | internal/webhooks/dlq.go:15-20 | with no replay under way, stored minus delivered is the queue's size, and failed replays are the Attempts of live letters plus those of delivered ones just before removal |
| Counters.WorkFalls | internal/webhooks/worker_dispatcher.go:308-377 | each settled replay lowers the sum of remaining attempts; only a new letter raises it |
| ParallelPass.PassIsScheduleIndependent | internal/webhooks/worker_dispatcher.go:304-325 | every interleaving of a pass ends in the bucket of the sequential pass and POSTs every record exactly once |
| ParallelPass.SummaryAddsUp | internal/http/dlq_handlers.go:175-231 | in every interleaving succeeded + failed is the number of results and of records, and succeeded counts the delivered ones |
| ParallelPass.SlotsRespected | internal/http/dlq_handlers.go:17-19 | no more goroutines are at work than the semaphore has slots |
| ReplayHandlers.ReplayAllStaysWithinEight | internal/http/dlq_handlers.go:17-19 | replay-all never has more than eight goroutines at work |
| SchedulerRuns.SchedulerStaysWithinWorkers | internal/webhooks/worker_dispatcher.go:304-324 | over any run the scheduler never has more goroutines at work than configured workers |
| ParallelPass.SurvivorsAreTheFailures | internal/http/dlq_handlers.go:183-217 | with a working store a pass removes exactly the letters it picked and delivered, updates those it failed to deliver, and leaves the rest alone |
| ParallelPass.PassFields | internal/webhooks/worker_dispatcher.go:295-377 | the same field by field for each record of a pass, with store failures |
| ParallelPass.PassSpares | internal/webhooks/worker_dispatcher.go:295-377 | letters that are not among the records of a pass stay as they were |
| ParallelPass.PassNeverStuck | internal/webhooks/worker_dispatcher.go:305-325 | the semaphore never deadlocks a pass |
| ParallelPass.PassLength | internal/webhooks/worker_dispatcher.go:305-325 | a pass over n records ends after exactly 4n steps in every schedule |
| EndToEnd.ServedOrQueued | internal/webhooks/worker_dispatcher.go:133-259 | one event reaches exactly the dedupe keys whose first listed subscription accepts it, each once; each receiver got it within MaxAttempts or has a letter of its own with event and address; the queue then holds those letters, the older ones untouched, and nothing else |
| EndToEnd.TotalPostsBounded | internal/webhooks/worker_dispatcher.go:192-377 | all POSTs of one event to one receiver, those its job reports and those the scheduler makes of the letter that very delivery left, are at most MaxAttempts + DLQMaxAttempts plus refused commits, and at most MaxAttempts if it left no letter |
| System.StepKeepsInv | internal/webhooks/worker_dispatcher.go:103-377 | every step of callers, workers, scheduler and operators keeps what became of each receiver on record, and each letter with the delivery that stored it |
| System.NothingIsLost | internal/webhooks/worker_dispatcher.go:103-377 | after Close, every accepted event was processed once; each receiver got it, or its letter could not be saved, or its letter, stored with the event and the address, is still in the queue, was delivered by a replay, or was deleted by an operator; and no two deliveries left the same letter |
| EndToEnd.PassAppliesToTheSelected | internal/webhooks/worker_dispatcher.go:295-326 | list, select, replay in parallel: in every interleaving the selected letters are POSTed once, delivered ones are gone, failed ones updated, all others unchanged |
| EndToEnd.ReplayAllLeavesTheFailures | internal/http/dlq_handlers.go:166-233 | after replay-all the queue holds exactly the letters whose replay failed, and the tallies add up to the queue's former size |
| WorkerPool.StepKeepsInv | internal/webhooks/worker_dispatcher.go:103-130 | every step of callers and workers keeps the flow of events and the order of shutdown |
| WorkerPool.QueueAccounts | internal/webhooks/worker_dispatcher.go:79-130 | the queue never exceeds four events per worker; accepted = queued + in hand + processed at every moment; events are taken in the order accepted |
| WorkerPool.CloseDrains | internal/webhooks/worker_dispatcher.go:112-130 | when Close returns every accepted event was processed exactly once, each by a job with the reports its POST outcomes leave |
| WorkerPool.ClosingNeverStuck | internal/webhooks/worker_dispatcher.go:112-130 | once Close was called, some step is possible until it returns |
| WorkerPool.ClosingEnds | internal/webhooks/worker_dispatcher.go:112-130 | every run after Close was called uses up a fixed budget of steps, so Close returns |
| Delivery.ReportIsDetermined | internal/webhooks/worker_dispatcher.go:192-229 | the POST outcomes leave exactly one acceptable report per delivery |
| Delivery.EveryDeathCountsExactlyWhen | internal/webhooks/dlq.go:80-91 | the queue grows by exactly the abandoned deliveries if and only if their generated keys are new and differ |
| Delivery.EveryDeathIsStored | internal/webhooks/worker_dispatcher.go:231-259 | with fresh keys each abandoned delivery has a letter of its own with event, address and zero attempts |
| Delivery.FreshKeysKeepLetters | internal/webhooks/dlq.go:80-91 | with fresh keys no older letter is overwritten |
| Dispatcher.WorkerDispatcher.constructor | internal/webhooks/worker_dispatcher.go:56-99 | each positive setting is kept, any other is 5 s, 5, 4, 5 min, 60 s or 10; a configured back-off is kept; the queue holds four events per worker |
| Dispatcher.WorkerDispatcher.DeliverWithRetry | internal/webhooks/worker_dispatcher.go:192-229 | first success after k-1 failures and no dead letter, or exactly MaxAttempts failures and one save when a queue is configured; one POST per attempt, all with this event to this subscription; sleeps, counter, and the saved letter field by field |
| Dispatcher.WorkerDispatcher.SaveToDLQ | internal/webhooks/worker_dispatcher.go:231-259 | the letter saved, field by field, under its new key, and the stored counter raised only if the save succeeded |
| Dispatcher.WorkerDispatcher.Process | internal/webhooks/worker_dispatcher.go:132-166 | exactly the listed positions that are enabled and ask for all events or this type have a report, in order; the new POSTs are, block by block, as many as each report has attempts, to that subscription; a failed listing or encoding drops the event; queue, counter and sleeps afterwards |
| Dispatcher.WorkerDispatcher.ReplayAndUpdate | internal/webhooks/worker_dispatcher.go:328-377 | after a success the letter is gone; after a failure it has one more attempt, the new error and time, and waits the base times 1, 2, 4 ... 256 or a day; one POST; success or failure counted |
| Dispatcher.WorkerDispatcher.RunAutoRetryPass | internal/webhooks/worker_dispatcher.go:295-326 | the pass lists the queue; exactly the listed positions that are neither terminal nor still cooling off are POSTed, once each, and their letters settled field by field; others stay; counters; a failed listing changes nothing |
| ReplayHandlers.DeleteDLQ | internal/http/dlq_handlers.go:77-95 | the named letter is gone; missing letter and store failure are told apart; other buckets untouched |
| ReplayHandlers.ReplayDLQ | internal/http/dlq_handlers.go:101-153 | each outcome, missing and undecodable records included; after a failure the letter carries one more attempt, the error answered, the time, and five minutes of waiting; all else unchanged |
| ReplayHandlers.ReplayAllDLQ | internal/http/dlq_handlers.go:166-233 | lists the queue; one result line per record with its id, outcome and error, succeeded counts exactly the delivered positions; each letter gone or updated field by field, others unchanged |
| DeadLetters.DLQStore.Save | internal/webhooks/dlq.go:80-91 | an id is made for a record that has none, and the record is stored under its id, present or not |
| DeadLetters.DLQStore.Get | internal/webhooks/dlq.go:93-105 | the stored record, carrying the id it was asked for, or which of three errors |
| DeadLetters.DLQStore.Delete | internal/webhooks/dlq.go:107-111 | the record is removed, or not found |
| DeadLetters.DLQStore.List | internal/webhooks/dlq.go:113-120 | what loading every key in order gives |
| DeadLetters.DLQStore.ListPage | internal/webhooks/dlq.go:122-133 | what loading the keys of one page gives, with the page's cursor |
| DeadLetters.UndisturbedList | internal/webhooks/dlq.go:113-154 | with nobody else at work the list is every stored record in key order |
| DeadLetters.SettleFields | internal/webhooks/worker_dispatcher.go:328-377 | field by field what any settled replay leaves: nothing after a success, and after a failure the same letter with one more attempt, the new error, time and waiting time; other letters unchanged |
| Loading.LoadKeys | internal/webhooks/dlq.go:135-154 | a vanished key is skipped, the first other failure fails the list |
| Loading.LoadFailsExactlyWhen | internal/webhooks/dlq.go:135-154 | a list succeeds if and only if no read fails and every value present decodes |
| Loading.LoadedIsKept | internal/webhooks/dlq.go:135-154 | a loaded list holds exactly the keys still present when read, in order, each as its read saw it |
| Loading.RecordWalkIsOrdered | internal/webhooks/dlq.go:122-154 | a walk over record pages returns records in strictly ascending order of id under concurrent change |
| Loading.RecordWalkKeepsStableKeys | internal/webhooks/store_provider.go:73-99 | a completed walk over record pages returns every record that was never deleted |
| Storage.BBoltStore.Write | internal/storage/bbolt.go:31-40 | one key of one bucket is set, created if need be; empty names are refused; all else unchanged |
| Storage.BBoltStore.Get | internal/storage/bbolt.go:42-64 | the value, or not found for an absent bucket or key |
| Storage.BBoltStore.List | internal/storage/bbolt.go:66-87 | all keys of the bucket in ascending byte order |
| Storage.BBoltStore.Delete | internal/storage/bbolt.go:89-102 | one key is removed, or not found; all else unchanged |
| Storage.BBoltStore.ListPage | internal/storage/bbolt.go:109-152 | the first `limit` keys strictly after the cursor, present or not, and the cursor rule for full and short pages |
| StoreWalk.PageSpec | internal/storage/store.go:20-25 | a page described without enumeration: ascending, after the cursor, and what it leaves out lies beyond a full page |
| StoreWalk.WalkIsOrderedAndPresent | internal/storage/bbolt.go:109-152 | under any writes and deletes between the calls, a walk emits strictly increasing keys, each present when its page was read |
| StoreWalk.WalkEmitsEveryStableKey | internal/storage/bbolt.go:109-152 | a completed walk emits exactly once every key present throughout |
| StoreWalk.CursorPromiseKeptExactlyWhen | internal/storage/store.go:20-25 | the cursor is empty at the end as promised if and only if the keys left are not exactly `limit` in number |
| StoreWalk.StaticWalk | internal/storage/bbolt.go:144-150 | on an unchanging bucket the walk lists it all in exactly n/limit + 1 calls |
| FilteredList.ListFilteredPage | internal/http/handlers.go:543-606 | the three scans give the first `limit` matching keys after the effective cursor, and a cursor exactly when another matching key follows |
| FilteredList.FilteredWalkListsAll | internal/http/handlers.go:543-606 | on an unchanging store the walk lists every matching key once, in order, in max(1, ceil(m/limit)) calls |
| FilteredList.WalkShowsExactly | internal/http/handlers.go:505-606 | a key is on some page of the walk if and only if it is in the bucket, begins with the prefix, contains the other text somewhere, and is digits before ".json" whose number lies within the bounds |
| FilteredList.PagersAgree | internal/http/handlers.go:543-606 | without a filter both pagers give the same page, and their cursors differ exactly after an exactly full last page |
| FilteredList.RestartsExactlyWhen | internal/http/handlers.go:551-565 | "strictly after the cursor" holds if and only if the cursor is a matching key or lies before all of them |
| FilteredList.FilteredWalkCanRepeat | internal/http/handlers.go:551-565 | deleting the cursor's key between two calls makes the walk repeat |
| FilteredList.WalkAscendsExactlyWhen | internal/http/handlers.go:543-606 | under writes and deletes between the calls, a walk is strictly ascending if and only if each cursor, when it is used, is a matching key or lies before all of them |
| FilteredList.WalkEmitsPresentKeys | internal/http/handlers.go:543-606 | whatever the cursors, each key emitted matched and was present when its page was read |
| FilteredList.HarmlessWalkReaches | internal/http/handlers.go:543-606 | a finished walk with such cursors emits every key that matched at each call |
| KeyFormat.TimestampRoundTrip | internal/http/handlers.go:505-516 | a timestamp key reads back as its timestamp if and only if that fits 64 bits |
| KeyFormat.KeyNSExactly | internal/http/handlers.go:505-516 | exactly which keys are read as timestamps, and as which number |
| KeyFormat.TimestampKeyText | internal/http/handlers.go:435 | a key is the decimal numeral of the timestamp and ".json" |
| KeyFormat.ParseInt64Exactly | internal/http/handlers.go:476-494 | which bounds and limits are readable integers, and what they read as |
| KeyFormat.DigitsAreDecimal | internal/http/handlers.go:511 | numerals are read in base ten |
| KeyFormat.KeyMatchesExactly | internal/http/handlers.go:518-541 | a key matches if and only if it begins with the prefix, contains the other text, and carries a timestamp within the bounds |
| KeyFormat.TimestampOrder | internal/http/handlers.go:435 | byte order of keys is time order for numerals of equal length |
| KeyFormat.ModernTimestampsSortByTime | internal/http/handlers.go:435 | so for every clock reading from September 2001 on |
| KeyFormat.ShortTimestampsMisorder | internal/http/handlers.go:435 | and not without equal lengths |
| KeyFormat.BoundsSelectOneBlock | internal/http/handlers.go:518-541 | since/until selects one contiguous block of keys, in time order, by time |
| KeyFormat.ParseFilterParams | internal/http/handlers.go:473-503 | accepted filters have ordered non-negative bounds and keep what was asked; exactly which are refused |
| KeyFormat.ParseLimit | internal/http/handlers.go:443-463 | 50 without a limit, the number asked up to 200, 200 beyond; exactly which inputs are refused |
| KeyFormat.AuditKeyInjective | internal/audit/audit.go:37-39 | audit keys determine clock reading and sequence number |
| KeyFormat.AuditKeyText | internal/audit/audit.go:37-39 | an audit key is two decimal numerals with a dash between and ".json" behind |
| KeyFormat.AuditKeyHasNoNS | internal/http/handlers.go:505-516 | no audit key is read as a timestamp key |
| AuditLog.NextAuditKeyIsNew | internal/audit/audit.go:25-39 | the counter alone makes each write's key new within a process, whatever the clock repeats |
| AuditLog.ConcurrentWritesOnlyAppend | internal/audit/audit.go:25-45 | concurrent writers that reach the store in any order only append, until the counter wraps: each write the store took is in the trail as made, the trail grows by exactly those, and every entry stays |
| AuditLog.AuditLog.Write | internal/audit/audit.go:29-45 | an audit write appends one entry, keeps all others and all other buckets, and moves the counter, also when the store fails |
| AuditLog.BoundedAuditListsAreEmpty | internal/http/handlers.go:526-531 | a time-bounded audit list is empty, whatever was written |
| Backoff.ExponentialBackoff | internal/webhooks/worker_dispatcher.go:407-422 | the loop gives 1, 2, 4, 8, 16 seconds and 30 from the sixth attempt on, with no overflow on the way |
| Backoff.TotalSleepClosedForm | internal/webhooks/worker_dispatcher.go:206-216 | total sleep of m failed attempts is 2^(m-1)-1 s up to six and 31+30(m-6) s after |
| Backoff.BackoffMeetsPromiseIff | internal/webhooks/worker_dispatcher.go:353-359 | the computed back-off is the promised one at all counts if and only if 256c fits 64 bits |
| Backoff.FirstOverflow | internal/webhooks/worker_dispatcher.go:356 | a larger base gives a negative wait at some count |
| Backoff.BackoffMonotone | internal/webhooks/worker_dispatcher.go:353-359 | more failures never shorten the wait; it is constant from the ninth on |
| Backoff.WaitInNanoseconds | internal/webhooks/worker_dispatcher.go:353-359 | the waiting times in nanoseconds: the base times 1, 2, 4 ... 256, at most a day |
| Backoff.DefaultBaseNeverCaps | internal/webhooks/worker_dispatcher.go:26-28 | with the default base the wait stays between 5 and 1280 minutes |
| Subscriptions.MatchesEventType | internal/webhooks/worker_dispatcher.go:168-187 | an empty filter, a "*" or the event's own type matches, nothing else |
| Subscriptions.DedupeKeySeparates | internal/webhooks/multi_provider.go:60-67 | keys with an id agree iff the ids do, never equal a URL key, and URL keys determine URL and tenant when no URL contains the separator |
| Subscriptions.SeparatorInUrlCollides | internal/webhooks/multi_provider.go:60-67 | a URL containing the separator can share a key with another URL |
| MultiProvider.ListSubscriptions | internal/webhooks/multi_provider.go:30-58 | the nested loops give the first-wins union of the providers that answered |
| MultiProvider.UnionOfParts | internal/webhooks/multi_provider.go:38-55 | the providers' lists are joined in registration order |
| MultiProvider.UnionOfOne | internal/webhooks/multi_provider.go:39-46 | a provider that answered adds its list, a failed one nothing |
| FirstWinsUnion.FirstWinsIsFirstOccurrences | internal/webhooks/multi_provider.go:47-54 | the result is the input at the positions of first occurrences, in order |
| FirstWinsUnion.FirstWinsKeys | internal/webhooks/multi_provider.go:11-13 | result keys are pairwise distinct and no input key is lost |
| FirstWinsUnion.FirstWinsIdempotent | internal/webhooks/multi_provider.go:30-58 | merging a merged list changes nothing |
| FirstWinsUnion.FilterPlaces | internal/webhooks/worker_dispatcher.go:157-165 | a filter keeps exactly the accepted positions, in order |
| FirstWinsUnion.ShadowingLosesKeys | internal/webhooks/worker_dispatcher.go:157-165 | deduplicating before the event filter only loses keys, and loses none if and only if no rejected first occurrence shadows an accepted later one |
| MultiProvider.EachKeyTargetedOnce | internal/webhooks/worker_dispatcher.go:141-165 | each dedupe key is targeted at most once per event |
| MultiProvider.LaterProviderCovers | internal/webhooks/multi_provider.go:15-17 | whatever some answering provider lists is represented in the result, whichever others failed |
| StoreProvider.StoreProvider.ListSubscriptions | internal/webhooks/store_provider.go:32-71 | of the loaded subscriptions exactly those whose service and tenant equal the given ones, where given, in key order |
| StoreProvider.StoreProvider.ListPage | internal/webhooks/store_provider.go:73-99 | what loading the keys of one page gives, with the page's cursor |
| StoreProvider.StoreProvider.Create | internal/webhooks/store_provider.go:101-120 | the subscription is stored under its id, made if absent, with missing times filled in |
| StoreProvider.StoreProvider.Update | internal/webhooks/store_provider.go:192-226 | each field is the patched value where there is one and else as it was; update time set, id, service and creation time kept; other entries and buckets untouched |

## Left out

- HTTP transport, routing, JSON encoding and status codes beyond the outcome of each handler: library plumbing; a stored value is a record, a subscription, or undecodable.
- Request signing, authentication, header and body-size middleware: thin wrappers.
- RemoteProvider: a network client; it appears as an arbitrary answer or error.
- bbolt internals: a bucket is a finite map, each transaction atomic; only First, Seek and Next are modelled.
- Site registry, configuration, path building, store cache, start-up, health endpoints, logging, request metrics.
- Subscription CRUD handlers, the JSON decoding of patches, and StoreProvider's Get and Delete: one-branch readings.
- Ticker fairness, and what a scheduler pass does after Close: the wait group does not track the scheduler, so there is nothing to promise. Dispatch after Close panics in Go and is not a step of the model; a Dispatch cancelled by its context changes nothing and is not a step either.
- Overflow when a wait is added to a point in time (time.Add): times are unbounded integers.
- WorkerPool.CloseDrains: a worker stuck in one POST for ever is not excluded; the client timeout is not modelled.
- Counters.CountersBalance: the metrics count from the start of the process, so runs begin with an empty queue; raising a counter is one step with the save or the POST it counts, where the code raises it just after.
- LetterStories.ReplaysAreSpaced: a manual replay of the letter itself is excluded; it sets a waiting time of its own.
- ParallelPass.SummaryAddsUp: a goroutine's tally and its result line are one step; the code takes its mutex once for each.
- Dispatcher.WorkerDispatcher.RunAutoRetryPass: the method runs its goroutines in launch order; ParallelPass and EndToEnd cover all other orders.
- ReplayHandlers.ReplayAllDLQ: as above, in launch order.
- Dispatcher.WorkerDispatcher.ReplayAndUpdate: says nothing about the letters for a record without an id, which the store never holds.
- ReplayMachine.NoDeadLetterLost: like every run of the step machines, assumes that a generated key was never used before; what happens otherwise is the subject of Delivery.EveryDeathCountsExactlyWhen.
