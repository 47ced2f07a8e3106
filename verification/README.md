# KioMQ, modelled and proved

KioMQ is a task queue. A job id wanders through the collections of a store
(waiting, paused, prioritized, delayed, active, completed, failed), moved by
workers, a delay promoter, retries, repeats and pause/resume. This project models
the in-memory store and the queue on top of it, and proves what every run keeps.

`dafny verify dfyconfig.toml` checks the whole project.

## How it is laid out

- `Collections`: ordered maps and their values in key order; `Counts`: how often
  an id occurs in a collection, and what each store call does to that number.
- `Deque`, `DequeRace`: the double-ended queue, once as a class that refines a
  sequence, once shared by any number of threads with one atomic action per step.
- `TimedMap`: the map with deadlines, against one that drops entries on time;
  `Expiry`: what it answers, said of its calls alone.
- `Tags`, `Scores`, `Policy`: collection tags, priority scores, and what backoff,
  repeat and retention policies decide after a run; `Recurrence`: when that brings
  a job back, run after run.
- `Store`, `Queue`: every store call and queue operation as a function of the
  store, and the classes that perform them in place, on deques and a map with
  deadlines; `Outcomes`: what a finished run or an insertion leaves in the store.
- `Ownership`: the lifecycle with any number of agents, interleaved at store-call
  granularity. `Frames` says what a step leaves alone; on that rest `Homes`
  (conservation, exactly) with the losing runs of `Losses`, `Stranding` (what a failed
  activation costs) and `Repeats` (the number of runs of a repeated job).
  `Atomicity` ties the interleaved steps to the operations of `Queue`.
- `Lifecycle`: the lifecycle with each queue operation atomic. On it rest
  `Conservation`, `Completion`, `Scheduling` and `Fencing`.
- `Deadlines`: one delayed job under any schedule of polls, up to its entry into the
  wait list.
- `LockRace`: lock renewal, its check and its write two separate steps.
- `Numbering`: the id counter, bumped and read in two separate steps.
- `Words`: where the machine words of the source end.

Clocks, cron evaluation, tokens, timestamps and the strategies a user registers
are arguments. A state machine has `Enabled`/`Apply`, runs are sequences of steps,
and the theorems speak about every run from the empty store.

A conservation run is *plausible* when it hands out fewer than 2^32 ids, uses no
repeat policy, and its timestamps and due times are at least 2^32, so that no id
can be taken for a score. Times since 1970 in milliseconds or microseconds are.

## Model

| member | source | states |
|---|---|---|
| Ownership.ExclusiveOwnership | src/queue/mod.rs:680-758 | in every interleaving of store calls, an id occurs at most once across waiting, paused, prioritized, delayed, active, the promotion hand-off and the overdue hand-off, no two agents claim the same id, and an id in an agent's hands is in none of them |
| Ownership.OneProcessorPerJob | src/utils/mod.rs:170-329 | two workers that are both inside a processor are never inside it for the same job |
| Ownership.NoDanglingIds | src/queue/mod.rs:916-953 | in every reachable state a queued or claimed id has a record, unless its own insertion is still under way |
| Ownership.JobNotFoundIff | src/queue/mod.rs:440-442 | an activation fails with `JobNotFound` exactly when the producer has listed the job but not yet stored its record |
| Ownership.LaterLookupsSucceed | src/queue/mod.rs:731-789 | once past that check, no later lookup of the same run can find the record missing |
| Ownership.BoundedAttempts | src/utils/mod.rs:239-308 | over any mix of success, failure, retry, repeat and missed deadline, a job's processor runs plus missed deadlines are at most max(1, attempts), and a queued job in nobody's hands has an attempt left |
| Ownership.FinishSpendsAttempt | src/queue/mod.rs:443-449 | every finish and every missed deadline takes exactly one attempt off a remainder that was positive |
| Frames.StepSpares | src/queue/mod.rs:680-789 | every interleaved step concerns at most one id; any other keeps its record, its attempts, its starts and the agents that claim it, and is listed at most as often as before |
| Stranding.StrandedIff | src/queue/mod.rs:440-442 | over every run, a job is in the active list with nobody working on it if and only if one of its activations failed with `JobNotFound`; it then stays there and is never run, whatever follows, although its record arrives |
| Stranding.AdriftStepIff | src/stores/inmemory_store.rs:184-231 | the same for one step: a job is adrift afterwards exactly when it was before or this step refused it |
| Stranding.StrandedRun | src/stores/inmemory_store.rs:205-231 | an eight-step run of one producer and one worker that strands job 1: listed, popped, refused, then recorded |
| Repeats.RepeatBound | src/job/repeat.rs:89-108 | over every interleaved run in which no run of the job fails and no deadline of it is missed, a job its policy repeats m times is started at most min(max(1, attempts), m + 1) times |
| Repeats.RepeatExact | src/utils/mod.rs:239-251 | in such runs, with unused scores and no negative delay, a job that has come to rest, listed nowhere and in nobody's hands, was started exactly min(max(1, attempts), m + 1) times |
| Homes.NothingLostIff | src/queue/mod.rs:1048-1113 | interleaved conservation: over every run, with any number of agents, any scores and any policies, a job whose id was handed out is listed, in an agent's hands or ended if and only if no step of the run dropped it |
| Homes.LostStepIff | src/queue/mod.rs:422-470 | for one store call: a job is nowhere afterwards exactly when it was before, or the call lets go of it with nothing holding its end, or the call overwrites or unlinks all the entries an unclaimed job had |
| Homes.FreshDropsIff | src/utils/mod.rs:239-308 | with unused scores exactly four calls drop a job: the removal left over from an overtaken retry, a settlement that does not list it again once its end is gone, a missed deadline found before the record is stored, and an insertion that lists nothing |
| Losses.LostToLateRemoval | src/queue/mod.rs:1087-1113 | a run of two workers, with every score unused and no repeat, in which a retried job fails for good before the removal that completes the retry, and ends up recorded but nowhere |
| Losses.LostWhenSettled | src/queue/mod.rs:1104-1109 | the same run with the last two calls swapped: the removal finds the job claimed, and the settlement after it lets the job go |
| Losses.LostBeforeRecord | src/stores/inmemory_store.rs:184-231 | a run without retries: a delayed job is found overdue before its record is stored, nobody can fail it, and it ends up accepted, recorded and nowhere |
| Atomicity.CallDescends | src/queue/mod.rs:680-789 | every store call brings an agent strictly closer to rest, so no operation goes on forever |
| Atomicity.AloneActivates | src/queue/mod.rs:680-758 | the store calls of an uninterrupted worker looking for work add up to `move_to_active`, for both sources of a job and for the missing record |
| Atomicity.AloneFinishes | src/utils/mod.rs:239-308 | the store calls of an uninterrupted worker whose processor returned add up to finishing, retrying, repeating or cleaning up |
| Atomicity.AloneMisses | src/utils/mod.rs:576-609 | the store calls of an uninterrupted missed-deadline task add up to failing the job and nothing more |
| Atomicity.AloneInserts | src/stores/inmemory_store.rs:422-446 | an uninterrupted producer's four calls are one round of `add_bulk`, accepted or rejected |
| Lifecycle.StepKeeps | src/stores/inmemory_store.rs:154-231 | every plausible operation keeps: each id in at most one place, queued ids recorded, active ids marked active, prioritized entries keyed by (priority, arrival); and changes the number of places of an id only by accepting or losing it |
| Conservation.NoJobLostIff | src/stores/inmemory_store.rs:632-650 | after any plausible run every accepted job is in exactly one place, and no other id in any, if and only if no operation of the run wrote to a score in use, met two overdue jobs at once, or carried a negative delay |
| Conservation.LosesIff | src/queue/mod.rs:422-470 | for each kind of operation, the condition on its inputs under which no job loses its place, both ways |
| Conservation.RunConserves | src/queue/mod.rs:1087-1113 | the same from any state that satisfies the invariant; a job that lost its place never gets it back |
| Conservation.SameMillisecond | src/stores/inmemory_store.rs:184-201 | two jobs inserted with the same due millisecond: both are accepted, the first is nowhere |
| Conservation.TwoOverdue | src/utils/mod.rs:576-609 | two jobs overdue at one poll fail with one timestamp: from a state in which every job has its place, the first is nowhere |
| Conservation.NegativeDelay | src/stores/inmemory_store.rs:174-204 | a job inserted with any negative delay is accepted and recorded, and is nowhere |
| Conservation.RepeatsOccupyTwoPlaces | src/queue/mod.rs:1048-1084 | a successful run leaves its id in the completed set, and queued once more exactly when the policy decides to repeat |
| Conservation.RemovalIsExactIff | src/stores/inmemory_store.rs:976-1023 | removal by id from a scored set takes out exactly that id's entries if and only if the id is not itself a score there, or the score of its own only entry |
| Completion.AllCompletedIff | src/queue/options.rs:412-415 | in every state kept by plausible operations the completion test holds if and only if a job was added, none is being processed, and the completed ids are 1 to `last_id`; then nothing is paused, failed or in the hand-off either |
| Completion.CompletionTestExact | src/queue/options.rs:469-497 | the same for the snapshot after every plausible run, with the same consequence for what is paused, failed or in the hand-off |
| Completion.CountersAgreeIff | src/stores/inmemory_store.rs:540-556 | for any store whose counters pass the test, all ids have completed if and only if no id completed twice |
| Completion.RepeatsFoolTheTest | src/queue/options.rs:412-415 | a run with a repeating job, all timestamps from 2^32 up, after which job 1 has completed twice: the test says no while job 2 is waiting, and passes once the store is paused with job 2 in its paused list |
| Completion.IdleIff | src/queue/options.rs:469-475 | for every store, with or without repeats: the queue is idle exactly when the wait and active lists and the prioritized and delayed sets are empty and nothing is being processed |
| Completion.CompletedMeansDrained | src/queue/options.rs:412-415 | for every store: when the completion test passes, a job was added, the completed set has `last_id` entries, and no id at all is waiting, active, prioritized or delayed |
| Completion.CountersSee | src/stores/inmemory_store.rs:540-556 | each counter of a snapshot is positive exactly when some id occurs in its collection |
| Scheduling.StablePriority | src/queue/mod.rs:705-713 | with each operation atomic, after every plausible run an activation takes the oldest waiting job; with none waiting, the prioritized job that comes first by (priority, order of insertion); and nothing only when both are empty |
| Scheduling.LeastGoesFirst | src/stores/inmemory_store.rs:506-522 | the entry popped from the prioritized set goes before every other entry of the set |
| Scheduling.FifoStepIff | src/stores/inmemory_store.rs:184-213 | an operation preserves the order of entry if and only if it does not list a job where the store's pause state does not expect it |
| Scheduling.FirstInFirstOut | src/stores/inmemory_store.rs:660-673 | over every plausible run of such operations, with any pauses, ids have left the wait list in exactly the order they entered it and the rest is still in line |
| Scheduling.ActiveNewestFirst | src/stores/inmemory_store.rs:660-673 | over every plausible run, the active list holds only jobs that were activated, in the reverse order of their latest activations |
| Scheduling.PushedEnds | src/stores/inmemory_store.rs:603-631 | an id appended to the wait list is taken after everything that waits, one put at the other end is taken next |
| Scheduling.PauseResumeRestoresIff | src/stores/inmemory_store.rs:1078-1095 | pause followed by resume gives back the identical store if and only if the pause list was empty |
| Scheduling.PauseKeepsTurn | src/stores/inmemory_store.rs:1078-1095 | pause followed by resume does not change which job is taken next while any waits; what the pause list already held is taken after all of them, in order |
| Scheduling.StaleFlagOvertakes | src/queue/mod.rs:363-380 | a job added to a paused store under a stale pause flag is started before everything in line |
| Scheduling.StaleFlagRun | src/queue/mod.rs:363-380 | a run from the empty store, add, pause, add, activate, after which job 2 has started before job 1 |
| Fencing.LockHeldByLatest | src/queue/mod.rs:542-561 | with each operation atomic, in every reachable state a visible job lock holds the token of that job's latest activation, and `extend_lock` succeeds exactly for that token while the lock is visible |
| Fencing.LockVisibleIff | src/stores/inmemory_store.rs:563-571 | the lock on a job, written at t for a duration d, shows its token at every time before t + d and nothing from then on; with expiration off it shows for ever |
| Fencing.OtherLocksStay | src/stores/inmemory_store.rs:675-687 | writing it changes what is seen of no other lock |
| Fencing.StallCheckLimited | src/queue/mod.rs:577-592 | a stalled-jobs check that finds its lock taken changes nothing; one that finds it free takes it for exactly the interval; neither shows on a job lock |
| LockRace.FencedStepIff | src/queue/mod.rs:548-553 | with the check and the write of a renewal as two calls, fencing survives a call if and only if the call is not a renewal whose token is no longer the latest |
| LockRace.CurrentStepIff | src/queue/mod.rs:739-745 | the renewals that have passed their check stay current through a call if and only if the call is not an activation that overtakes one of them |
| LockRace.LockHeldUnlessOvertaken | src/queue/mod.rs:542-561 | over every interleaving without such an activation a visible lock holds the token of the latest activation behind its key |
| LockRace.OvertakenBreaksFence | src/queue/mod.rs:548-553 | an overtaken renewal puts the older token back into the lock |
| LockRace.StaleRenewalRun | src/queue/mod.rs:548-553 | a four-call run from the empty store that does so |
| Fencing.ExtendKeepsHolder | src/stores/inmemory_store.rs:675-687 | a successful extension leaves the holder unchanged, and visible for the whole new duration and no longer |
| Fencing.SharedLockIff | src/queue/options.rs:149-174 | two jobs share a lock exactly when their ids agree modulo 2^56 |
| Deadlines.FateIff | src/stores/inmemory_store.rs:448-469 | under any schedule of polls with a nondecreasing clock: a delayed job is released by exactly one poll if the first window reaching past its score opens no later than the score, by none otherwise, and is declared missed exactly when it was not released and a poll comes at least two milliseconds late |
| Deadlines.NoMissedDeadline | src/stores/inmemory_store.rs:177-201 | a job accepted with a positive delay and polled at most 50 ms apart from its insertion on is released by exactly one poll once a window reaches past its score, and is never declared missed |
| Deadlines.ReleasingPoll | src/utils/mod.rs:563-573 | with polls at most 50 ms apart, the poll that hands the job to the promotion timer, and that the timer it requests fires strictly after the job's millisecond and at most 50 ms later |
| Deadlines.EntriesIff | src/timers/delay_queue_timer.rs:53-61 | under any schedule of polls, the fired timers have put the job into the wait list by a given time exactly when the first window past its score opened in time and one window has passed since |
| Deadlines.ReleaseTime | src/timers/delay_queue_timer.rs:418-423 | with polls at most 50 ms apart and an ideal timer, the wait list does not hold the job up to its scheduled millisecond, and holds it exactly once from 50 ms after that on, once a poll has reached past its score |
| Deadlines.GapOf51Misses | src/utils/mod.rs:563-566 | polls 51 ms apart can skip a job: in neither range at one poll, and missed by the next |
| Deadlines.ShorterDelayMisses | src/worker/worker_opts.rs:4 | a 49 ms delay would be missed even by timely polls, so the 50 ms limit is sharp |
| Numbering.DistinctIffSerialised | src/stores/inmemory_store.rs:855-862 | for any number of threads and any complete interleaving, no id is handed out twice if and only if insertions are serialised, and the ids are then 1, 2, 3, ... |
| Numbering.RaceRepeatsId | src/stores/inmemory_store.rs:855-862 | two threads that bump before either reads are both given id 2 |
| DequeRace.NothingLostOrDuplicated | src/utils/concurrent_structures.rs:28-69 | however threads interleave pushes and pops, reserved keys are distinct and every pushed value is in flight, in the map, or returned by one pop, exactly one of the three |
| DequeRace.NoPushOverwrites | src/utils/concurrent_structures.rs:28-36 | at no point of any run does a push link its entry over another |
| DequeRace.QuiescentContents | src/utils/concurrent_structures.rs:28-69 | with no push in flight the map holds exactly the pushes not yet returned |
| DequeRace.PopMissesIffOvertaken | src/utils/concurrent_structures.rs:43-69 | a pop that read an end entry comes back empty exactly when another pop returned that entry meanwhile |
| DequeRace.OvertakenPop | src/utils/concurrent_structures.rs:43-69 | that does happen while the deque still holds entries |
| DequeRace.OvertakenRun | src/utils/concurrent_structures.rs:28-69 | a run from the empty deque in which a pop comes back empty with an entry left |
| Deque.ConcurrentDeque.PushFront | src/utils/concurrent_structures.rs:28-32 | the contents gain the value at the front, and all keys stay strictly between the indices |
| Deque.ConcurrentDeque.PushBack | src/utils/concurrent_structures.rs:33-36 | the contents gain the value at the back |
| Deque.ConcurrentDeque.PopFront | src/utils/concurrent_structures.rs:43-56 | splits the first value off the contents; empty-handed exactly on the empty deque |
| Deque.ConcurrentDeque.PopBack | src/utils/concurrent_structures.rs:57-69 | splits the last value off the contents; empty-handed exactly on the empty deque |
| Deque.ConcurrentDeque.Len | src/utils/concurrent_structures.rs:71-75 | the number of values |
| Deque.ConcurrentDeque.IsEmpty | src/utils/concurrent_structures.rs:76-78 | true exactly for the empty deque |
| Deque.ConcurrentDeque.ContainsValue | src/utils/concurrent_structures.rs:79-85 | true exactly for the values in the contents |
| Deque.ConcurrentDeque.Clear | src/utils/concurrent_structures.rs:37-42 | leaves a valid empty deque whatever was in it |
| Deque.ConcurrentDeque.RemoveValue | src/stores/inmemory_store.rs:948-975 | removes every occurrence of the value and keeps the order of the rest |
| Deque.ConcurrentDeque.PageOf | src/stores/inmemory_store.rs:690-821 | the key range from the nth start key to the nth end key is the positional slice; without bounds it is the whole contents, with one bound the contents up to it or from it on |
| Deque.PageBounds | src/stores/inmemory_store.rs:690-821 | without bounds a page is the whole list, with only an end the prefix up to it, with only a start the rest from it on, and with bounds out of order or past the end nothing |
| Deque.PagesCoverIff | src/stores/inmemory_store.rs:690-821 | consecutive fixed-size pages join to the whole list if and only if the page size divides its length |
| Deque.OpenLastPageCovers | src/stores/inmemory_store.rs:690-821 | with the end of the last page left open they always do |
| TimedMaps.LazyIsEagerIff | src/timers/concurrent_timed_map.rs:80-189 | over every trace of calls with a nondecreasing clock, wherever purges fall, all results equal those of a map that drops entries at their deadline, if and only if no call revives an expired entry that is still stored |
| Expiry.AnsweredByLastWrite | src/timers/concurrent_timed_map.rs:80-189 | whatever the map held and whatever reads, purges, toggles and writes of other keys happened since, `get`, `contains_key` and `iter` agree that a key has the value of its last write strictly before the deadline that write gave it, and none from then on |
| Expiry.DeadlineIsExact | src/timers/concurrent_timed_map.rs:21-29 | a value inserted at t for a time to live is read at every time before t + ttl and at none after, or always if expiration was off |
| Expiry.OffIffToggledOdd | src/timers/concurrent_timed_map.rs:80-189 | over any trace of calls, whether expiration is off is decided by the parity of the toggles and nothing else |
| TimedMaps.CheckedUpdateNeverRevives | src/timers/concurrent_timed_map.rs:128-165 | a `contains_key` just before the update rules a revival out |
| TimedMaps.TimedMap.Get | src/timers/concurrent_timed_map.rs:101-109 | returns the live value, evicts an expired one, and changes nothing else |
| TimedMaps.TimedMap.ContainsKey | src/timers/concurrent_timed_map.rs:128-134 | true exactly for live keys, evicting an expired one |
| TimedMaps.TimedMap.Iter | src/timers/concurrent_timed_map.rs:110-118 | answers exactly the live entries and evicts the others |
| TimedMaps.TimedMap.InsertExpirable | src/timers/concurrent_timed_map.rs:88-98 | stores a deadline `ttl` ahead, or a constant while expiration is switched off |
| TimedMaps.TimedMap.Evict | src/timers/concurrent_timed_map.rs:110-121 | leaves exactly the live entries |
| TimedMaps.TimedMap.UpdateExpirationStatus | src/timers/concurrent_timed_map.rs:152-167 | moves the deadline of an expirable entry, expired or not, and of no constant one |
| TimedMaps.TimedMap.PurgeExpired | src/timers/concurrent_timed_map.rs:179-189 | evicts what has expired unless expiration is switched off |
| Scores.ScoreOrder | src/utils/mod.rs:72-74 | below 2^32 scores order by (priority, counter) lexicographically and are unique |
| Scores.UrgentFirstIff | src/utils/mod.rs:72-74 | the exact order of the scores of any two priorities and counters: by counter against 2^32 per priority level, with the 64-bit wrap accounted for |
| Scores.UrgentFirstInRange | src/utils/mod.rs:72-74 | below the wrap, a more urgent job comes first exactly while its counter leads by less than 2^32 per priority level |
| Scores.BoundIsSharp | src/utils/mod.rs:72-74 | the 2^32nd arrival has the score of the next priority, and the one after it is overtaken |
| Tags.TagCollidesIff | src/queue/options.rs:149-174 | two collections share a tag exactly when they are the same variant with payloads equal modulo 2^56 |
| Tags.StoredKeys | src/queue/options.rs:149-174 | the 64-bit keys of all collections, as literals |
| Tags.TagRoundTripIff | src/queue/options.rs:183-207 | decoding inverts encoding exactly for 56-bit payloads and every variant but the two metrics ones |
| Tags.ByteOrderIsTagOrder | src/queue/options.rs:177-179 | the byte order of encoded keys is the numeric order of tags |
| Tags.OrIsSum | src/queue/options.rs:149-174 | on 64-bit words the two halves of a tag do not overlap, so `or` and `+` agree |
| Policy.ExactRepeatCount | src/job/repeat.rs:89-108 | a job that always succeeds under a limit of m repeats runs exactly min(max(1, attempts), m + 1) times |
| Recurrence.EveryIsPeriodic | src/job/repeat.rs:89-101 | a job that always succeeds under `Every(d, max)` runs max(1, attempts) times, or max + 1 times if that is fewer, and after every run but the last it is due exactly d after that run's finish |
| Recurrence.CronFollowsSchedule | src/job/repeat.rs:78-81 | a cron job that always succeeds runs max(1, attempts) times, each time due exactly when its expression next fires |
| Recurrence.RepeatBackoffIff | src/job/repeat.rs:82-88 | a job repeated with exponential backoff is due d, 2d, 4d, ... after its successes if and only if the last of these delays fits an `i64` |
| Recurrence.FixedDelays | src/job/backoff.rs:87-121 | a job that always fails with a fixed backoff, spelled out or as a non-zero number, waits the same delay before each of its max(1, attempts) - 1 retries |
| Recurrence.NoBackoffNoRetry | src/job/backoff.rs:107-113 | without a backoff, or with the number 0, there is no retry |
| Outcomes.EveryDue | src/queue/mod.rs:1048-1084 | the store after a success under `Every(d, max)`: the job is in the delayed set at the finish's clock plus d (in the wait list should that be 0) while attempts and limit allow, and neither collection changes otherwise |
| Outcomes.CronDue | src/queue/mod.rs:1048-1084 | the same for a cron job and the time its expression next fires |
| Outcomes.ImmediatelyDue | src/queue/mod.rs:1062-1067 | the same for `Immediately`: last in the wait list, up to its limit |
| Outcomes.BackOffDue | src/job/repeat.rs:82-88 | the same for a repeat with backoff: due after the delay of its strategy, exactly if one is registered |
| Outcomes.NoRepeatNotDue | src/utils/mod.rs:241-246 | the same without a repeat policy: the job is not queued again |
| Outcomes.RetryDue | src/queue/mod.rs:1087-1113 | the store after a failure with attempts to spare: in the delayed set at the failure's clock plus the delay of the backoff strategy, exactly if one is registered |
| Outcomes.NoBackoffNotDue | src/utils/mod.rs:294-303 | the same without a backoff option: the job is not queued again |
| Outcomes.FinishesIff | src/queue/mod.rs:762-789 | a run can be finished exactly when the job has a record; otherwise the store does not change |
| Policy.TotalBackoffIff | src/job/backoff.rs:79-89 | for every base delay d and number of attempts, a job that always fails waits d, 2d, 4d, ... if and only if the last of these delays fits an `i64`, and then (2^(attempts-1) - 1) * d in total |
| Policy.ExponentialExactIff | src/job/backoff.rs:81-85 | for every base delay and attempt count the computed delay is the exact one precisely while that fits an `i64` |
| Policy.BackoffOverflows | src/job/backoff.rs:81-85 | an exponent of 64 wraps the delay to zero whatever its base |
| Policy.OldestAreKept | src/queue/mod.rs:916-953 | under a count limit the surviving records of the first n jobs are exactly those of ids 1 to min(n, limit): never more than the limit, but the oldest; a limit of zero keeps all |
| Outcomes.RecordSurvivesIff | src/queue/mod.rs:916-953 | the store after a finished run: the record is gone exactly when the run spent the last attempt and the option for that ending is to delete, or a positive count below the id; a surviving record has the attempt and the end state, and no other record changes |
| Outcomes.InsertionRecords | src/stores/inmemory_store.rs:154-231 | a job is refused exactly for a delay of 1 to 49 ms; otherwise it takes the next id and, with a priority, the next priority number, and its record has no attempt, no token and the state delayed, prioritized or waiting by delay and priority |
| Outcomes.NewStateNamesPlaceIff | src/stores/inmemory_store.rs:184-213 | the recorded state of a new job names the collection that holds it, except exactly for a job in the paused list and one with a negative delay |
| Policy.RequeueNeedsAttempts | src/utils/mod.rs:239-308 | a job is queued again only while attempts are left; it is cleaned up after a success exactly when they are spent, and after a failure exactly when this one was the last |
| Queues.MoveToEnd | src/queue/mod.rs:762-789 | answers the job exactly when it has a record, with one more attempt counted and the end state set |
| Outcomes.MarkedActiveOnce | src/queue/mod.rs:422-470 | moving a recorded job to active lists it last unless it is listed already, counts no attempt, and done again changes nothing |
| Queues.Queue.Activate | src/queue/mod.rs:680-721 | performed call by call on the store object, `move_to_active` has the effect and result of its specification |
| Queues.Queue.PrepareJob | src/queue/mod.rs:731-758 | the same for `prepare_job_for_processing`: lock, state and token written, or the record found missing |
| Queues.Queue.EndJob | src/queue/mod.rs:762-789 | the same for `move_job_to_finished_or_failed` |
| Queues.Queue.MoveState | src/queue/mod.rs:422-470 | the same for `move_job_to_state`, ending and non-ending targets and the missing record |
| Queues.Queue.ProcessResult | src/utils/mod.rs:239-308 | the same for the second half of `process_job` |
| Queues.Queue.Promote | src/utils/mod.rs:549-612 | the same for one poll, with its loop over the missed jobs |
| Queues.Queue.Extend | src/queue/mod.rs:542-561 | the same for `extend_lock` |
| Stores.InMemoryStore.Poll | src/stores/inmemory_store.rs:448-469 | drains the due entries, then the overdue ones, each in score order, and leaves all others |
| Stores.InMemoryStore.Pause | src/stores/inmemory_store.rs:1078-1095 | popping one deque and pushing the other until it is empty appends the first list to the second in order |
| Stores.InMemoryStore.RemoveFrom | src/stores/inmemory_store.rs:948-1037 | unlinks every occurrence from a list, or from a scored set the entry with that score or else every entry of that id |
| Counts.RemovedIsGone | src/stores/inmemory_store.rs:948-1037 | removing an id that is not a score leaves no occurrence of it in that collection, and changes how often no other id, and no id anywhere else, occurs |
| Stores.InMemoryStore.Add | src/stores/inmemory_store.rs:154-231 | counters, placement and record of one insertion, accepted or rejected |
| Stores.InMemoryStore.AddTo | src/stores/inmemory_store.rs:603-658 | on the deques, the id becomes the first or the last of its list; in a scored set it takes its score, overwriting what was there; nothing else changes |
| Counts.UnscoredIsDropped | src/stores/inmemory_store.rs:632-658 | adding to a scored set without a score lists the id nowhere and changes no occurrence of any id |
| Stores.InMemoryStore.PopBackPush | src/stores/inmemory_store.rs:660-673 | on the deques, the last waiting id becomes the first active one; an empty wait list changes nothing |
| Stores.InMemoryStore.Exists | src/stores/inmemory_store.rs:334-357 | the search of a deque, or of a scored set entry by entry, answers membership |
| Counts.ExistsIffHeld | src/stores/inmemory_store.rs:334-357 | for each collection the membership test holds exactly when the id occurs there |
| Stores.InMemoryStore.ReadToken | src/stores/inmemory_store.rs:563-571 | the token of a live lock, evicting an expired one |
| Stores.InMemoryStore.WriteLock | src/stores/inmemory_store.rs:675-687 | through the map with deadlines, stores the token under the tag of the job until its deadline, or for good while expiration is off |
| Stores.InMemoryStore.PopMin | src/stores/inmemory_store.rs:506-522 | the first entry in key order is the one with the least score; nothing from the empty set |

## Where the documentation and the code differ

The model follows the code.

- `all_jobs_completed` is documented as true when every job has completed; with a
  repeat policy an id is counted once per completion (`Completion.RepeatsFoolTheTest`).
- `is_idle` is documented to require `last_id > 0`; it does not test it.
- `QueueMetrics::update` is documented to replace all counters; it leaves the pause
  flag, so a queue keeps the flag it was opened with (src/queue/options.rs:449-461).
  The flag is a parameter of insertion here, and false where an open queue reads it.
- All jobs one poll finds overdue fail with the same timestamp, so only the last of
  them stays in the failed set (`Conservation.TwoOverdue`).
- A negative delay is accepted and recorded, and the job is put in no collection
  (`Conservation.NegativeDelay`).
- A count limit on retention is documented to prune older records; the code compares
  the id with the limit and prunes the newer ones (`Policy.OldestAreKept`).
- A page whose end lies past the last id comes back empty (`Deque.PagesCoverIff`).

## Left out

- Redis and RocksDB stores: they run on an engine whose semantics are elsewhere.
- Stalled-job recovery: `make_stalled_jobs_wait` walks the stalled list only when it is empty, so only its lock is modelled and nothing is ever stalled.
- The global timer coordinator: it merges requests by duration, so delivery of a promoted id is a step that may happen at most once, at any time.
- Worker `run` and `close`, the pause notifier, and the `processing` counters: they depend on the async runtime; `processing` is an argument of the completion test.
- `QueueMetrics::update` and `clear` as updates in place: the completion test is modelled on one snapshot.
- Ids past 2^63 - 1: `clean_up_job` cuts an id to an `i64` before it compares it with a count, the model does not.
- Age-based retention: records are constant entries, on which `expire` has no effect.
- `obliterate`, and `ConcurrentDeque::clear` racing other operations: clearing resets the indices, so it is modelled sequentially only.
- Cron evaluation, the clock, tokens: inputs.
- Default job options (`update_job_opts`), progress updates, job payloads and results, events, serde, metrics: they move no id.
- The guard of a poll on the cached `delayed` counter (src/utils/mod.rs:560): a retry adds to the delayed set without an event, so the counter can be stale and a poll skipped; a skipped poll is no poll of `Deadlines`.
- Scheduling.StablePriority: is about atomic operations; inside the deque a pop can come back empty with entries left (`DequeRace.OvertakenPop`), and a worker then goes on to the prioritized set.
- Overflow checks of debug builds: `i64` arithmetic wraps here, as in a release build.
- Races between two insertions: `Ownership` has one producer at a time, which `Numbering.DistinctIffSerialised` shows to be exactly what distinct ids need.
- A queue opened on a store that is already paused: `move_job_to_state` then does nothing, and no job starts or ends.
- Job records as a map with deadlines keyed by tag: they never expire, so they are a map from ids to records here.
- Stores.InMemoryStore.Poll: one store call is one step; entries changing while it iterates are not modelled.
- Conservation.NoJobLostIff: is stated for plausible runs, because with repeats or with ids that are scores the law is false; `Conservation.RepeatsOccupyTwoPlaces` and `Conservation.RemovalIsExactIff` say exactly how.
- Fencing.LockHeldByLatest: is stated for atomic operations and ids below 2^56, the reach of a tag; `LockRace` covers the two calls of a renewal and `Fencing.SharedLockIff` the larger ids.
- Deadlines.ReleaseTime: assumes a promotion timer that fires exactly when it is due.
