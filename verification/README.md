# RealTube: verified model of the voting system

RealTube lets viewers flag videos. A vote lands in a PostgreSQL table; counters on the
video and its categories are maintained inside the vote transaction; scores are recomputed
asynchronously by two workers (one in the Go backend, one in the Python backend) that
listen for notifications; a channel worker aggregates scores per channel and gives unvoted
videos of flagged channels a preliminary score; a Redis cache and a browser extension with
its own cache, delta synchronisation and offline vote queue sit in front of all that. This
project models those derived copies and proves how they agree with the votes they stand
for, and exactly when they do not.

Both backends run the same algorithms, so each is modelled once. Where they differ (the
end of a rate-limit window, the rounding of a channel score, the fields a delta response
leaves out) the difference is a parameter and both readings are proved.

Run `dafny verify dfyconfig.toml`.

## Modules

| file | subject |
|---|---|
| `Options.dfy` | the option type |
| `Sums.dfy` | sums and maxima over finite maps, independent of the order of rows |
| `Schema.dfy` | the tables, as values and as a mutable database |
| `Scores.dfy` | category shares and their maximum: loops, table form, laws |
| `VoteLedger.dfy` | vote transactions, counters, and what they mean after any history |
| `Recalculation.dfy` | recalculating one video, and batches of videos |
| `Protocol.dfy` | votes, two score workers and the channel worker, interleaved |
| `ScoreWorkers.dfy` | the worker object: pending set, batch, recalculation, invalidation |
| `Channels.dfy` | channel aggregation, roundings, auto-flag, preliminary scores, feedback |
| `ChannelTicks.dfy` | a channel tick in terms of the rows before and after it: when it flags, what it stores, what it leaves alone |
| `RateLimits.dfy` | the fixed-window limiter over timed runs |
| `CacheAside.dfy` | one cache key over interleaved fills, writes and invalidations |
| `OfflineQueues.dfy` | one uninterrupted flush of the offline queue |
| `QueueRuns.dfy` | the offline queue with votes cast while a flush is running |
| `ServerOrder.dfy` | votes on two ways to the server, straight and queued, with requests under way, retried, refused late or lost |
| `ServerSafety.dfy` | what can still reach the server after any moment, and exactly when no older vote can come back |
| `ServerVotes.dfy` | from the user's actions to the vote table they end in |
| `DeltaSync.dfy` | change log, delta responses, merging, successive syncs |
| `PrefixLookup.dfy` | cache-first lookup through hash-prefix groups |

The objects the sources update in place (database, repository, services, workers, limiter,
queue, extension state) are classes; each method is proved against a function on values,
and the laws are lemmas about that function. What these functions do to the rows is stated
once more field by field, with the literal limits of the sources. The interleaved protocols
are step relations with inductive invariants over whole runs.

## What turned out not to hold

Each of these comes with a concrete input or run for which the property fails, and with
the condition that decides when it holds.

- A category's `vote_count` is not its number of live votes: submitting the same category
  again adds one (`VoteLedger.DriftExample`). It is exact iff no vote of the category was
  ever resubmitted (`VoteLedger.CountsAreLiveIff`).
- A stored score can stay wrong with nothing left to correct it, because failed
  recalculations are skipped and notifications are not replayed. That takes a loss by both
  workers, or by the one that recalculated the video last (`Protocol.EventualConsistency`,
  `Protocol.DrainedIsSettled`); each of the two happens (`Protocol.LostUpdateExample`,
  `Protocol.LateWriteExample`), the second although the other worker lost nothing and had
  scored the video correctly. A loss at one worker alone does no harm if the other never
  commits out-of-date reads (`Protocol.OneWorkerSuffices`). From every state it is decided
  which videos a drain settles whatever the schedule (`Protocol.DrainAlwaysSettlesIff`):
  those that are settled or held and, when a worker is about to commit old reads for good,
  those that its commit would leave right coming last of all.
- A channel score can exceed 100, because unvoted videos count in the numerator but not in
  the denominator (`Channels.ScoreAtMostHundredIff`, `Channels.FeedbackExceedsHundred`).
- With both backends ticking on the same tables the database need not reach a fixed point:
  each leaves what the other would iff no channel's score is at a tie above an even
  hundredth (`Channels.BackendsTickAlikeIff`, `Channels.TieExample`). Videos and flags do
  settle, and the rest up to the rounding of the latest tick (`Channels.MixedTicksSettle`).
- Invalidating after every write does not keep the cache fresh: a fill that was already
  reading stores the old response afterwards (`CacheAside.OvertakenFillExample`). Once all
  changes are invalidated the entry was read at the last version iff its fill straddles no
  change (`CacheAside.FreshOnceInvalidatedIff`), and always was if fills stored only when
  nothing was committed since they read (`CacheAside.GuardedStoresStayFresh`). At the store
  it can be told whether the response can outlive every invalidation and be wrong: iff every
  change is already invalidated and it is not what the database holds
  (`CacheAside.WrongForGoodIff`).
- A vote can be deleted from the offline queue without ever being sent
  (`QueueRuns.ClobberExample`): one cast while a flush holds an older vote on its video,
  iff that flush gets to delete the older vote (`QueueRuns.ClobberedIff`).
- The server can end with an older vote than the newest it has taken. The older vote may
  be a request that is being retried (`ServerOrder.LateRetryExample`) or that is refused
  late, queued and flushed (`ServerOrder.LateRefusalExample`); it may have waited in the
  queue from the start (`ServerSafety.NextVoteReturns`). Refused late, it can also replace
  the newer vote in the queue, which is then never sent
  (`ServerOrder.RefusedLateReplacesNewer`). In every session the server is up to date on a
  video iff what it holds was not still waiting or in flight when it took something newer
  (`ServerOrder.ServerHoldsNewestIff`); and at any moment nothing can make it out of date,
  short of a new action of the user, iff it is up to date and at most one action on the
  video can still arrive, none of them older than what it has taken
  (`ServerSafety.SafeIff`, `ServerSafety.TakenIsSafeIff`). With no flush running, whatever
  is waiting or in flight can arrive (`ServerSafety.AtRestUnfinishedArrives`).
- A delta response is not the change log in order: removals are applied before all updates
  (`DeltaSync.BatchIsReplayIff`); over many syncs, an id ends wrong iff the latest response
  touching it ends with the removal of an update it accepted
  (`DeltaSync.SyncsReplayAtIff`); a change that a sync did not see but that is stamped no
  later than the time it returned is never delivered (`DeltaSync.MissedOnceMissedForever`);
  and a client of the Go backend never accepts a score of zero (`DeltaSync.AcceptedIff`).
- The comment at `realtube-go/internal/middleware/ratelimit.go:24` calls the limiter a
  sliding window. The code is a fixed window, so up to twice the maximum (less one in Go)
  passes within one window length (`RateLimits.BurstBound`, `RateLimits.BurstReached`).
- The delay that Python asks a refused client to wait can be up to a second short
  (`RateLimits.RetrySufficesIff`).

## Model

| member | source | states |
|---|---|---|
| Protocol.EventualConsistency | realtube-go/internal/service/score_worker.go:77-145 | for every interleaving of votes, both workers' steps, channel ticks, failures, lost connections and crashes: a video whose stored scores are not those of its votes is owed (queued, pending, batched, being recalculated, or its notification lost) by both workers, or by the one that recalculated it last |
| Protocol.StaleReadsAreCovered | realtube-go/internal/service/score_svc.go:38-108 | in every reachable state a worker whose two reads of a video are out of date has a later notification for it in its queue or pending set, or has lost one |
| Protocol.StepKeepsInv | realtube-python/app/services/score_worker.py:58-113 | each single step keeps the ledger sound, stale reads covered, and every video settled or owed by both workers or by its last writer |
| Protocol.VoteStep | migrations/003_cache_triggers.sql:37-45 | a committed vote leaves its video owed by both workers, takes nothing off either worker, and leaves every other video's weight sums and row as they were |
| Protocol.UnsettledBecause | realtube-go/internal/service/score_svc.go:38-108 | a video is unsettled after a step only because it was before and nobody gave it up, because of a vote on it, or because of a write from out-of-date reads that is covered at its writer |
| Protocol.WrittenVideo | realtube-go/internal/service/score_svc.go:90-108 | a committed recalculation leaves its video right, or its reads were out of date and its writer still owes the video |
| Protocol.PreliminaryNeverHidesVotes | realtube-go/internal/service/channel_worker.go:166-177 | a video that is owed neither by both workers nor by its last writer has exactly the score of its votes when it has any, and otherwise 0 or 60, in every reachable state |
| Protocol.NothingLostWithoutFailures | realtube-go/internal/service/score_worker.go:126-129 | a worker's lost set stays empty in every run without its own failed recalculations, lost connections and crashes |
| Protocol.WorkRunsAreBounded | realtube-go/internal/service/score_worker.go:83-139 | without new votes, every schedule of worker steps is at most as long as a measure of what is held, and loses nothing |
| Protocol.WorkIsPossible | realtube-go/internal/service/score_worker.go:95-139 | a worker that holds anything can take a step |
| Protocol.DrainedIsSettled | realtube-go/internal/service/score_worker.go:112-139 | when no worker step is possible any more, nothing is held, and a video with wrong scores was lost by both workers or by the one that recalculated it last, whatever the schedule |
| Protocol.DrainAlwaysSettlesIff | realtube-go/internal/service/score_worker.go:77-145 | for every video with a row: all complete drains, in whatever order the workers' steps come, leave it settled iff it is settled or held now and no worker is about to commit old reads of it for good, or each worker that is would leave it right by committing after everything else |
| Protocol.DrainSettlesIff | realtube-go/internal/service/score_worker.go:112-139 | the case without such a worker, schedule by schedule: a complete drain settles exactly the videos that were settled or held |
| Protocol.OneWorkerSuffices | realtube-python/app/services/score_worker.py:85-113 | if the other worker never commits out-of-date reads, every wrong score is owed by this one, and none is left once this one is quiet and has lost nothing |
| Protocol.DrainExists | realtube-go/internal/service/score_worker.go:112-139 | from every state the held work can be run to completion |
| Protocol.LostUpdateExample | realtube-go/internal/service/score_worker.go:126-129 | one vote and one failure at each worker leave nothing held and the score wrong |
| Protocol.OutageExample | realtube-go/internal/service/score_worker.go:42-81 | a vote commits while one worker is disconnected and the other has crashed; both come back, nothing is held, and the score is wrong |
| Protocol.OutageLoses | realtube-go/internal/service/score_worker.go:42-81 | a lost connection costs a worker exactly the notifications not yet delivered, a crash everything it held |
| Protocol.UninterruptedRecalculation | realtube-go/internal/service/score_svc.go:25-109 | the separate steps of a recalculation, with nothing in between, do what the score service does |
| Protocol.LateWriteExample | realtube-go/internal/service/score_worker.go:78-81 | Go reads a vote, the vote is withdrawn, the Python worker scores the video correctly, Go loses the second notification and commits its old reads: one loss, and the score ends wrong |
| Recalculation.RecalculationIsRight | realtube-go/internal/service/score_svc.go:25-109 | a recalculation with current reads leaves the video's score, and its category scores, those of its votes |
| Recalculation.WritesAreLocal | realtube-go/internal/service/score_svc.go:90-108 | whatever was read, the writes change nothing but scores of that video |
| Recalculation.BatchingLosesNothing | realtube-go/internal/service/score_worker.go:88-139 | recalculating once per notification, in any order and with repetitions, leaves the same tables as once per distinct video |
| Recalculation.ScoreService.SelectTotalWeight | realtube-go/internal/service/score_svc.go:38-45 | the first read is the sum of the weights of the video's votes |
| Recalculation.ScoreService.SelectCategoryWeights | realtube-go/internal/service/score_svc.go:60-70 | the second read has exactly the categories with a live vote, each with the sum of its weights |
| Recalculation.ScoreService.RecalculateVideoScore | realtube-python/app/services/score_service.py:15-65 | the whole transaction: all writes or, on an error, none |
| ScoreWorkers.ScoreWorker.OnNotification | realtube-go/internal/service/score_worker.go:83-91 | an empty payload is skipped, a repeated one changes nothing |
| ScoreWorkers.ScoreWorker.Flush | realtube-go/internal/service/score_worker.go:112-145 | the pending set is emptied; each of its videos that did not fail is recalculated and, with the cache enabled and Redis reachable, absent from the cache afterwards; every other cache entry is as it was; the failed ones are untouched; the count is the number of distinct videos recalculated |
| ScoreWorkers.FlushThenLookup | realtube-go/internal/service/score_worker.go:112-139 | a fault-free lookup right after a flush answers with the score of the votes, and each live category with its share, for every video of the batch that did not fail and whose cache entry could be dropped |
| ScoreWorkers.ReceiveAndFlush | realtube-go/internal/service/score_worker.go:77-139 | receiving any notifications and flushing equals one recalculation per notification, with one recalculation per distinct video |
| VoteLedger.VoteRepo.SubmitVote | realtube-go/internal/repository/vote_repo.go:30-120 | the whole new state of the tables, the trust returned, and one notification |
| VoteLedger.VoteRepo.DeleteVote | realtube-go/internal/repository/vote_repo.go:123-168 | the whole new state, or no change and no notification when there is no such vote |
| VoteLedger.TransactionFrame | realtube-go/internal/repository/vote_repo.go:39-116 | on any tables a submit, delete or trust change leaves every score, channel and weighted score, every other user, vote and video as they were; new rows start at score zero and without channel, new users at trust 0.3 |
| VoteLedger.LedgerRefinesHistory | realtube-python/app/services/vote_service.py:44-144 | after any history of submits, deletes and trust changes: a vote is stored iff it is the last submit since the last delete, with the trust of that moment; `total_votes` is the number of live votes; each `vote_count` is the live votes of its category plus the same-category resubmissions so far |
| VoteLedger.GuardsNeverBlock | realtube-go/internal/repository/vote_repo.go:145-159 | the guards `total_votes > 0` and `vote_count > 0` never stop a decrement |
| VoteLedger.ApplyKeepsLedgerInv | realtube-go/internal/repository/vote_repo.go:61-116 | every transaction keeps: votes have their rows, `total_votes` is exact, `vote_count` is at least the live votes |
| VoteLedger.CountsAreLiveIff | realtube-go/internal/repository/vote_repo.go:82-110 | `vote_count` is the number of live votes iff no vote of that category was ever resubmitted |
| VoteLedger.DriftExample | realtube-go/internal/repository/vote_repo.go:101-107 | two identical submits leave one vote counted twice |
| VoteLedger.ResendSafety | realtube-extension/src/background/offline-queue.ts:57-73 | on any tables in which the vote is in force with the user's current trust, sending it again leaves votes, `total_votes` and every score as they were, and adds exactly one to one counter |
| VoteLedger.ResendAfterAnyHistory | realtube-extension/src/background/offline-queue.ts:57-73 | after any history, submitting the vote in force again with unchanged trust changes one counter by one and nothing else |
| Scores.ComputeScoresFromVotes | realtube-python/app/services/score_service.py:68-98 | the accumulating and dividing loops compute the filter-and-sum shares and their maximum, for any weights; None exactly when the total is zero |
| Scores.ScoreCategories | realtube-go/internal/service/score_svc.go:72-85 | the row loop computes every share and the largest one, starting from zero |
| Scores.TableScoreIsListScore | realtube-go/internal/service/score_svc.go:111-156 | for every listing of a video's votes the list form and the table form give the same sums and score |
| Scores.ScorePermutationInvariant | realtube-python/app/services/score_service.py:82-98 | the order of the votes changes neither shares nor score |
| Scores.SharesSumToHundred | realtube-python/app/services/score_service.py:90-96 | the shares sum to exactly 100 |
| Scores.ScoreBounds | realtube-python/app/services/score_service.py:90-96 | with non-negative weights each share is within 0 and 100, and the score between 100/k and 100 for k voted categories |
| Scores.AddingAVote | realtube-python/app/services/score_service.py:82-98 | one more vote never lowers its category's share, never raises another's, and never lowers the score when its category was on top |
| Scores.ScalingInvariant | realtube-python/app/services/score_service.py:82-98 | a common positive factor on all weights changes nothing |
| Channels.ChannelWorker.RecalculateChannel | realtube-go/internal/service/channel_worker.go:114-180 | the stored record from the channel's aggregates, the lock and the thresholds, and the number of videos given a preliminary score |
| Channels.ChannelWorker.RecalculateAll | realtube-go/internal/service/channel_worker.go:74-111 | a tick leaves the tables of recalculating all channels with a voted video at once, and its three counters are exact |
| Channels.VisitedIsTick | realtube-go/internal/service/channel_worker.go:97-108 | the order of the channels is irrelevant: each gets the record it would get first |
| Channels.CountsAreExact | realtube-python/app/services/channel_worker.py:114-127 | the running counters are the channels updated, the channels flagged and the videos scored |
| Channels.ScoreFromSum | realtube-go/internal/service/channel_worker.go:137-143 | flagged/tracked times the average flagged score is the sum of flagged scores per tracked video |
| Channels.ScoreAtMostHundredIff | realtube-go/internal/service/channel_worker.go:118-143 | a channel score is at most 100 iff fewer than three videos are tracked or the flagged scores sum to less than 100.005 per tracked video (or exactly that, in Python) |
| Channels.ScoreAtMostHundred | realtube-go/internal/service/channel_worker.go:118-143 | sufficient: scores up to 100 and every flagged video voted on |
| Channels.ScoreAboveHundredExample | realtube-go/internal/service/channel_worker.go:118-143 | a channel with score 120 |
| Channels.GoRoundingsAgreeIff | realtube-go/internal/repository/channel_repo.go:102-109 | truncating after adding a half and rounding half away from zero agree iff the value is above -0.5 |
| Channels.PythonRoundsDifferentlyIff | realtube-python/app/services/channel_worker.py:51-54 | on non-negative values Go and Python round differently exactly at a tie above an even integer, and then by one |
| Channels.ChannelScoresAgree | realtube-go/internal/repository/channel_repo.go:103-109 | worker and pure helper give the same channel score, Python's is at most one cent lower |
| Channels.PreliminarySum | realtube-go/internal/service/channel_worker.go:166-172 | marking a channel's fresh videos adds exactly 60 each to its sum of flagged scores |
| Channels.FlagPersists | realtube-go/internal/service/channel_worker.go:145-177 | from one tick to the next the flag stays, the score does not drop, and the sums grow exactly by the fresh videos |
| Channels.FeedbackSettles | realtube-python/app/services/channel_worker.py:61-98 | with votes and locks unchanged the second tick changes no video and from then on the whole database is a fixed point |
| Channels.MixedTicksSettle | realtube-go/internal/service/channel_worker.go:74-177 | ticks of both backends in any mixture: none after the first changes a video, every flag is the one either backend would have set at first, and the tables are what the latest tick's rounding makes of those after the first |
| Channels.BackendsTickAlikeIff | realtube-python/app/services/channel_worker.py:51-66 | ticks of Go and Python make the same database of the tables iff no recalculated channel's score in hundredths lies halfway above an even number |
| Channels.TieExample | realtube-python/app/services/channel_worker.py:51-54 | scores of 90, 90 and 60.015 are 80.01 for Go and 80.00 for Python |
| Channels.FeedbackScore | realtube-go/internal/service/channel_worker.go:137-177 | the exact score of a flagged channel after the feedback round |
| Channels.FeedbackExceedsHundred | realtube-go/internal/service/channel_worker.go:137-177 | when every voted video of a flagged channel is at 100, the next tick lifts its score above 100 as soon as there is more than one fresh video per 12000 voted ones |
| ChannelTicks.FlaggedIff | realtube-go/internal/service/channel_worker.go:137-157 | a tick flags a channel iff its row is not locked, at least 20 of its videos score 50 or more, at least 3 are voted on, and the scores of 50 or more sum to at least 79.995 for each of these |
| ChannelTicks.RecordedIs | realtube-go/internal/service/channel_worker.go:118-163 | the stored row keeps the lock, has the two counts, and scores zero below three voted videos, else the flagged sum per voted video to the nearest hundredth |
| ChannelTicks.TickChangesOnly | realtube-go/internal/service/channel_worker.go:160-177 | a tick changes the rows of channels with a voted video, and sets to 60 the unvoted videos at zero in those it flags; nothing else |
| ChannelTicks.LockedIsLeftAlone | realtube-go/internal/service/channel_worker.go:145-157 | a tick does not flag a locked channel and changes none of its videos |
| ChannelTicks.ActiveIff | realtube-go/internal/service/channel_worker.go:74-108 | a tick recalculates exactly the channels of voted videos |
| ChannelTicks.ReportedCounts | realtube-python/app/services/channel_worker.py:114-127 | the three counters are the active channels, those flagged afterwards, and the videos whose rows the tick changed |
| ChannelTicks.FlaggedSumIsTotal | realtube-go/internal/service/channel_worker.go:118-128 | for every listing of a channel's videos at 50 or more, the aggregate is the sum of their scores |
| RateLimits.RateLimiter.Allow | realtube-go/internal/middleware/ratelimit.go:85-101 | decision and new table of both backends' test entry point |
| RateLimits.RateLimiter.Handle | realtube-go/internal/middleware/ratelimit.go:43-107 | the middleware decides and records the same as Allow; the headers are the non-negative remainder, the window's end in whole seconds and, on a refusal, the seconds to wait |
| RateLimits.RateLimiter.Check | realtube-python/app/middleware/ratelimit.py:40-67 | the same after dropping expired entries from an oversized table |
| RateLimits.RetrySufficesIff | realtube-python/app/middleware/ratelimit.py:161-171 | waiting as told reaches the next window always in Go, and in Python iff the window ends within the current second or no later within its second than now within this one |
| RateLimits.RateLimiter.Cleanup | realtube-go/internal/middleware/ratelimit.go:109-121 | exactly the expired entries go |
| RateLimits.EvictionUnobservable | realtube-python/app/middleware/ratelimit.py:34-67 | with a clock that does not run backwards, every run with any placement of evictions takes the decisions of a limiter that never evicts |
| RateLimits.KeysAreIndependent | realtube-go/internal/middleware/ratelimit.go:49-63 | other keys' requests change nothing for a key |
| RateLimits.BurstBound | realtube-go/internal/middleware/ratelimit.go:50-69 | in every run and every closed interval of one window length at most 2M-1 (Go) or 2M (Python) requests of a key pass, M being the maximum or one |
| RateLimits.BurstReached | realtube-python/app/middleware/ratelimit.py:53-67 | for every maximum, also below one, and every positive window a run reaches that bound |
| RateLimits.WindowAdmitsExactly | realtube-go/internal/middleware/ratelimit.go:63-80 | in an open window exactly as many further requests pass as the remainder says |
| RateLimits.RemainingIsExact | realtube-go/internal/middleware/ratelimit.go:71-83 | the remainder a response reports is the number of further requests that pass while the window is open |
| RateLimits.ResponseIsRight | realtube-python/app/middleware/ratelimit.py:161-171 | a response tells to wait iff the request was refused, names the second in which the window ends, and the delay is the first whole number of seconds past the end in Go, within a second of it in Python |
| CacheAside.VideoService.LookupByVideoID | realtube-go/internal/service/video_svc.go:32-65 | cache hit, database answer, absence or error, and what is cached, for every combination of failing cache reads, database and cache stores |
| CacheAside.CacheService.InvalidateVideo | realtube-go/internal/service/cache_svc.go:83-88 | the entry is gone, or still there and reported if Redis fails; nothing happens without Redis |
| CacheAside.StaleCacheHasACause | realtube-go/internal/service/vote_svc.go:27-38 | over every interleaving, a cached response that differs from the database implies a change that altered the stale part after the fill had read it, and that was made by the channel worker, is not yet invalidated, or was invalidated before the fill stored |
| CacheAside.FreshOnceInvalidatedIff | realtube-go/internal/service/vote_svc.go:32-38 | once all changes are invalidated, the entry was read at the last version iff its fill straddles no change, and then it shows what the database holds |
| CacheAside.WrongForGoodIff | realtube-go/internal/service/video_svc.go:46-62 | a stored response can, without another store, outlive every invalidation and be wrong iff at the store every change is already invalidated and the response is not what the database holds |
| CacheAside.GuardedStoresStayFresh | realtube-go/internal/service/video_svc.go:46-62 | if fills stored only when nothing was committed since they read, every entry would be current once all changes are invalidated |
| CacheAside.CachedWasHeld | realtube-go/internal/service/video_svc.go:46-62 | every cached response is a row and categories the database held, in that order, during its fill |
| CacheAside.InvalidationReachesTheCache | realtube-go/internal/service/score_worker.go:131-136 | an entry stored before an invalidation never survives it |
| CacheAside.OvertakenFillExample | realtube-go/internal/service/video_svc.go:46-62 | a fill overtaken by a vote and its invalidation leaves the old response cached with nothing left to invalidate it |
| CacheAside.UninterruptedFill | realtube-go/internal/service/video_svc.go:46-62 | a fill that nothing interrupts caches what the database holds |
| OfflineQueues.OfflineQueue.EnqueueVote | realtube-extension/src/background/offline-queue.ts:21-30 | a later vote on the same video replaces the earlier one |
| OfflineQueues.OfflineQueue.FlushPendingVotes | realtube-extension/src/background/offline-queue.ts:33-85 | one uninterrupted flush: the queue up to the first failure is gone, its unexpired votes were accepted in order, the rest is untouched, at most one failure, and the guard is free again on every exit |
| OfflineQueues.HandledUnique | realtube-extension/src/background/offline-queue.ts:49-74 | the flush stops exactly at the first vote that is neither expired nor accepted |
| OfflineQueues.FlushPassesIff | realtube-extension/src/background/offline-queue.ts:49-74 | when everything before it is over seven days old or accepted, a flush gets past a vote iff that is over seven days old or accepted |
| OfflineQueues.SentInTurn | realtube-extension/src/background/offline-queue.ts:49-66 | a vote that a flush gets past is sent in its turn if up to seven days old, and dropped if older |
| OfflineQueues.CurrentHas | realtube-extension/src/background/offline-queue.ts:51-55 | the votes sent are those up to seven days old |
| OfflineQueues.SuffixRemains | realtube-extension/src/background/offline-queue.ts:68-74 | what remains stored is exactly the suffix from that vote on |
| OfflineQueues.FlushConserves | realtube-extension/src/background/offline-queue.ts:49-84 | sent + expired + remaining is what there was |
| QueueRuns.EveryVoteAccounted | realtube-extension/src/background/offline-queue.ts:21-85 | over every interleaving of enqueues with the steps of flushes each vote is in exactly one of sent, expired, pending, superseded and clobbered |
| QueueRuns.ClobberedOnlyDuringFlush | realtube-extension/src/background/offline-queue.ts:41-65 | a vote is clobbered only by a flush that had read the store before it was cast and had sent or expired an older vote on the same video |
| QueueRuns.ClobberedIff | realtube-extension/src/background/offline-queue.ts:49-74 | a vote cast while a flush holds an older vote on its video, and not replaced later, is clobbered iff that flush gets to delete the older vote |
| QueueRuns.DeletedWasHandled | realtube-extension/src/background/offline-queue.ts:51-66 | a vote that a flush deletes was sent or had expired |
| QueueRuns.EnqueueThreatens | realtube-extension/src/background/offline-queue.ts:21-26 | voting again on a video that the running flush holds a vote of puts the new vote in that position |
| QueueRuns.ClobberExample | realtube-extension/src/background/cache.ts:205-210 | changing a vote while the old one is being sent loses the new one |
| QueueRuns.QueuedVotesInOrder | realtube-extension/src/background/offline-queue.ts:49-66 | among the votes that go through the queue, per video they are acknowledged in the order they were enqueued, each once |
| ServerOrder.ServerHoldsNewestIff | realtube-extension/src/background/background.ts:146-175 | in every session of votes and withdrawals, sent straight, retried, refused late, queued, flushed, repeated or lost: the server holds the newest action it has taken on a video iff what it holds was not waiting or in flight when it took a newer one |
| ServerOrder.NeverOvertakingIsUpToDate | realtube-extension/src/background/api-client.ts:104-139 | if nothing older on the video was waiting or in flight whenever the server took an action on it, the server holds the newest it has taken |
| ServerOrder.QueuedIsWhatTheUserDid | realtube-extension/src/background/background.ts:158-163 | in every session each queued vote has the video and category of the vote the user cast under its number; a withdrawal is never queued |
| ServerOrder.FlushPostsWhatTheUserDid | realtube-extension/src/background/offline-queue.ts:57-64 | what a flush asks the server to store is the vote the user cast |
| ServerOrder.RefusedIsStored | realtube-extension/src/background/offline-queue.ts:21-26 | a refused vote is stored under its video with its category and the time of the refusal, and no other entry changes |
| ServerOrder.DoKeeps | realtube-extension/src/background/background.ts:146-175 | every action keeps the invariant behind these claims |
| ServerOrder.OnlyVanishingEnds | realtube-extension/src/background/api-client.ts:104-139 | an answer, a refusal or giving up does not keep the server from processing a request that is still under way |
| ServerOrder.LateRetryExample | realtube-extension/src/background/api-client.ts:104-139 | two votes are on their way at once, as closing the dropdown allows; the server takes the second, then a retry of the first, and nothing was ever queued |
| ServerOrder.LateRefusalExample | realtube-extension/src/background/background.ts:146-168 | the first vote is refused after the second was taken, is queued, and the flush brings it back |
| ServerOrder.RefusedLateReplacesNewer | realtube-extension/src/background/offline-queue.ts:21-30 | both votes are refused, the first one last: it replaces the newer one in the queue, which is never sent |
| ServerSafety.SafeIff | realtube-extension/src/background/background.ts:146-175 | at any moment, also in the middle of a flush: no continuation without a new action on the video leaves the server out of date on it iff it is up to date, at most one action on it can still arrive, and that one is not older than what it has taken |
| ServerSafety.CanArriveIff | realtube-extension/src/background/offline-queue.ts:33-85 | some continuation lets the server take an action iff a request of it is in flight, the running flush may still ask for it, or it is pending and the flush will not delete it before it can stop |
| ServerSafety.TakenIsSafeIff | realtube-extension/src/background/background.ts:151-159 | when the server takes the user's latest action on a video, nothing can bring an older one back iff no older one can still arrive |
| ServerSafety.NothingNewArrives | realtube-extension/src/background/offline-queue.ts:33-85 | once an action can no longer arrive, nothing the queue, the handlers or the network do changes that |
| ServerSafety.NextVoteReturns | realtube-extension/src/background/offline-queue.ts:57-65 | the vote a running flush takes next comes back over anything newer |
| ServerVotes.TableShowsTheNewestAction | realtube-extension/src/background/background.ts:146-175 | for any session of a user and any history of transactions in which the user's are those the server took, among any votes of others and trust changes: if the server is up to date on a video, the vote table holds the user's newest action on it, as a vote in its category or as no vote |
| ServerVotes.OnlyOwnMatter | realtube-go/internal/repository/vote_repo.go:61-80 | the category of a user's vote after any history depends on the user's own transactions alone |
| QueueRuns.UninterruptedFlush | realtube-extension/src/background/offline-queue.ts:49-74 | when no other code runs in between, the separate steps do what the single call does: the same prefix leaves the store, the same votes are sent in the same order, nothing is clobbered |
| QueueRuns.StepKeepsInv | realtube-extension/src/background/cache.ts:192-210 | every single step keeps the invariant behind the claims about whole queue runs |
| DeltaSync.Synchronizer.PerformDeltaSync | realtube-extension/src/background/sync.ts:16-88 | a delta reply acts on cached contents and channel scores as the batch of its changes: per id the last accepted update if any, else absent if removed, else unchanged; updated entries carry the time of the reply; exact counters and watermark; a failed reply changes nothing |
| DeltaSync.LastUpdateIsCached | realtube-extension/src/background/sync.ts:43-60 | the last update of a video with score and categories is cached as it came, with no channel and the time of the reply |
| DeltaSync.WithoutUpdate | realtube-extension/src/background/sync.ts:45-48 | a video without such an update goes iff the reply removes it, and else keeps its entry |
| DeltaSync.LastChannelUpdateIsCached | realtube-extension/src/background/sync.ts:63-78 | the last update of a channel with a score is cached as it came, not flagged |
| DeltaSync.WithoutChannelUpdate | realtube-extension/src/background/sync.ts:65-68 | a channel without such an update goes iff the reply removes it, and else keeps its entry |
| DeltaSync.ReportedIs | realtube-extension/src/background/sync.ts:38-78 | the four counters are the accepted updates and the removals in the reply |
| DeltaSync.SyncInTurn | realtube-extension/src/background/sync.ts:16-88 | syncs run one after the other from an empty cache, against the rows committed by then, leave exactly the client of the claims about successive syncs |
| DeltaSync.BatchIsReplayAtIff | realtube-extension/src/background/sync.ts:43-60 | an id ends as in-order replay would leave it iff its last change is not the removal of an accepted update |
| DeltaSync.BatchIsReplayIff | realtube-extension/src/background/sync.ts:43-60 | the whole cache equals in-order replay iff no id ends that way |
| DeltaSync.BatchIdempotent | realtube-extension/src/background/sync.ts:43-81 | a response applied twice is applied once |
| DeltaSync.OneMoreChange | realtube-extension/src/background/sync.ts:45-60 | what one more change adds: an accepted update lands, an unaccepted one is invisible, a removal works unless the response updates the id |
| DeltaSync.QueryChanges | realtube-go/internal/service/sync_svc.go:25-103 | exactly the rows after the time asked for, in the order of their stamps, and the clock cut to whole seconds |
| DeltaSync.QueryHas | realtube-go/internal/service/sync_svc.go:27-32 | a row is in the query's result iff it is in the log and stamped after the time asked for |
| DeltaSync.ByStampSorts | realtube-go/internal/service/sync_svc.go:31 | the result is sorted by stamp |
| DeltaSync.RedeliveryHarmless | realtube-go/internal/service/sync_svc.go:27-32 | after part of the log, replaying a list that touches everything that part touched beyond a common head gives what replaying head and list once gives |
| DeltaSync.AppliedIsBatch | realtube-extension/src/background/sync.ts:44-60 | one sync acts on the scores and categories of the cache as the batch function does, whatever the time stamps |
| DeltaSync.SyncsReplayAtIff | realtube-go/internal/service/sync_svc.go:25-103 | after any number of syncs with overlapping windows, also when rows are committed later than rows with a later stamp, and if no query misses a row stamped at or before its own time: the client holds for an id what replaying once, in stamp order, all rows seen leaves iff the latest response that touches the id does not end with the removal of an update it accepted |
| DeltaSync.SyncsReplayTheLog | realtube-extension/src/background/sync.ts:43-81 | in particular the whole cache is that of one replay if each response alone equals its replay |
| DeltaSync.DeliveredIff | realtube-go/internal/service/sync_svc.go:27-32 | a sync delivers exactly the committed rows that are stamped after the time it asks for |
| DeltaSync.MissedOnceMissedForever | realtube-go/internal/service/sync_svc.go:98-102 | a row stamped no later than the time some sync returned is delivered by no later sync |
| DeltaSync.DeliveredAtFirstSightIff | realtube-go/internal/service/sync_svc.go:27-32 | a row is delivered by some sync iff it is stamped after the time asked for by the first sync that sees it |
| DeltaSync.AcceptedIff | realtube-go/internal/model/user.go:47-53 | which rows a client takes, from either backend |
| DeltaSync.OnTheWire | realtube-go/internal/service/sync_svc.go:43-61 | which fields each backend leaves out of a row: a zero score and empty categories in Go, categories of anything but an update in both |
| DeltaSync.BackendsAgreeIff | realtube-python/app/routers/sync.py:56-72 | a client treats a row from both backends alike iff it is not an update with a zero score or no category |
| PrefixLookup.Background.CheckVideos | realtube-extension/src/background/background.ts:62-118 | for any hash, any failing prefixes and any server table: the cached entries followed by the server's entries for the misses, as one direct lookup per video would give, without duplicates or unrequested ids, and the cache filled with exactly these |
| PrefixLookup.GroupByPrefix | realtube-extension/src/background/background.ts:72-79 | one group per distinct prefix, each the misses with that prefix in order |
| PrefixLookup.GroupsPartition | realtube-extension/src/background/background.ts:72-79 | the groups together are the misses, as a multiset |
| PrefixLookup.GroupedLookupIsDirect | realtube-extension/src/background/background.ts:81-115 | grouped lookup answers what direct lookup answers |
| PrefixLookup.AnswersSurviveOffline | realtube-extension/src/background/background.ts:88-97 | the same request made afterwards with every call failing gets the same answer |
| PrefixLookup.AnswerIs | realtube-extension/src/background/background.ts:81-115 | answer and cache afterwards: a cached video as it was cached, a missing one with the server's score, categories, channel and time if its prefix was answered, no entry for any other |

## Left out

- Clocks and time stamps in the tables (`last_updated`, `created_at`, `last_active`): nothing modelled reads them, except the change log's own stamps.
- Races between statements of one vote transaction, and between the statements of a channel's recalculation and concurrent votes: transactions and channel steps are atomic; only the two reads and the write of a score recalculation are separate steps.
- Errors in the middle of a channel's recalculation, after which the worker goes on with the next channel.
- Overlapping flush loops after a reconnect of the Go worker: one flush at a time is assumed per worker.
- Python's worker does not notice a lost listening connection; the model lets either worker reconnect or not.
- Order and number of interleaved steps inside the IndexedDB operations of one sync or lookup, and their failures; a browser that stops the extension in the middle of a flush.
- In OfflineQueues and QueueRuns a submission that the server stored but whose answer was lost counts as a failure (what resending it does is `VoteLedger.ResendSafety`); ServerOrder models it.
- ServerOrder and ServerSafety follow the actions of one browser; other devices with the same user id are not modelled.
- The clock that decides which queued votes have expired is arbitrary from flush to flush.
- Order in which concurrent prefix calls complete: the model makes them one after the other; the claims about their results do not mention order between prefixes.
- Rows with equal stamps are taken in commit order; the database may return them in another one. Nothing in the repository writes the change log, so its rows are arbitrary.
- Row limits of the queries (1000 videos per prefix, 10000 changes per sync), and visibility flags: a hidden video is one the server does not have.
- Channel rows of a delta response come from the channel table, not from a log; their query is left out, their merge is not.
- Full synchronisation, its schedule and retries, which overwrite the cache wholesale.
- Trust scores are arbitrary reals set between votes; the formulas behind them are not called by the vote path.
- Enforcement of `locked` on videos, which score recalculation does not consult.
- Floating-point error: arithmetic is over the reals, rounded where the code rounds.
- RateLimits.BurstBound: assumes a positive window, as every configured limiter has, and a clock that does not run backwards.
- CacheAside.StaleCacheHasACause: an invalidation that fails in Redis is one that has not happened; cache expiry may happen at any time.
- A cached value that does not decode counts as a failed cache read.
- HTTP handlers, input validation, hashing, export, user interface: plumbing around the modelled operations.
