# github-pr-watcher, modelled in Dafny

github-pr-watcher has three concurrent producers that can create a review or an override for one pull request
at one commit: the poll loop, the unreviewed scanner and the Kafka command executor. Several small stateful
mechanisms keep them from duplicating or losing work. This project models those mechanisms and proves what
they keep over whole runs.

GitHub, Kafka, trust, filters, regular expressions and lower-casing are arbitrary oracles or functions; the
clock is a value passed to each step and never goes back. Every read that can fail may fail at any step.

| area | specification on values | imperative form | what is proved over runs |
|---|---|---|---|
| trailing coalescer | `CoalesceSpec.dfy` | `Coalescer.dfy` | `CoalesceRuns.dfy`, `CoalesceRate.dfy`, `CoalesceTimers.dfy`, `CoalesceMemory.dfy`, `CoalesceBurst.dfy`, `CoalesceRelease.dfy`, `CoalesceProgress.dfy`, `CoalesceGaps.dfy` |
| poll loop and cursor | `PollSpec.dfy` | `Watcher.dfy` | `PollLaws.dfy`, `PollPromises.dfy`, `PollOwner.dfy`, `PollCursor.dfy`, `PollDeferrals.dfy`, `PollArming.dfy` |
| ledgers and their store | `LedgerSpec.dfy` | `MemDB.dfy`, `Ledgers.dfy` | `LedgerSpec.dfy` |
| the producers together | `ProducerSpec.dfy` | `Producers.dfy` | `ProducerSpec.dfy` |
| unreviewed scanner | `ScannerSpec.dfy` | `Scanner.dfy` | `ScannerRuns.dfy`, `ScannerLaws.dfy` |
| sequential cores | | `TrivialDiff.dfy`, `Titles.dfy`, `ReviewIgnore.dfy` | the same files, `TrivialLaws.dfy`, `TrivialGaps.dfy`, `TaskKeys.dfy` |

The pattern is the same throughout. Objects and loops of the source are classes, methods and loops here, and
each method's contract equates its result and the new state with a function of the inputs and the old state.
The promises are then proved as lemmas about those functions, over unbounded runs. What each main operation answers
is stated once more without those functions, from the history of the pull request (`CoalesceMemory`), the answers of
GitHub (`PollLaws`, `ScannerLaws`), the publishes of the head (`ProducerSpec`) or the lines of the patch
(`TrivialLaws`).

In the coalescer every mutex section is one step, `fire` is split in two, a callback whose `Stop` lost the race
may still run, that a `Stop` came in time is a step of its own, and no callback runs before its hold. A decision
to publish opens a ticket; confirming the ticket (`MarkEmitted`) makes a record. Anything may happen in between.

## Where the code differs from its documentation

Each of these is a lemma with a concrete input or an exact condition.

- `pkg/watcher.go:636` says each (PR, SHA) produces at most one create across all poll cycles. A finished poll
  that does not settle a known head forgets it, and the next sighting publishes again. The commonest such poll
  does not return the pull request at all, because it is outside the search window; others filter it, cannot read
  its details, or leave a label override unsent: `PollOwner.KnownHeadIsKeptIffSettled`,
  `PollOwner.UnsettledHeadIsPublishedAgain`. The source accepts this and relies on deduplication behind Kafka.
- The cursor clamp is skipped when a poll is cancelled, so a deferred pull request can leave the window:
  `PollCursor.CancelledPollKeepsWindowIff`, `PollCursor.CancelledPollCanLoseADeferral`.
- `pkg/watcher.go:1100-1101` and `pkg/watcher.go:1185-1186` say that an unsent override retries on the next poll.
  It counts as handled and nothing clamps the cursor for it, so it does only while it stays in the window:
  `PollCursor.UnsentOverrideIsHandled`, `PollCursor.StaysInWindowIff`; `PollCursor.UnsentOverrideCanLeaveTheWindow`
  is a finished poll that loses one.
- `README.md:142` bounds retries per process lifetime. A pull request missing from one complete scan gets its
  whole budget again, without waiting: `ScannerRuns.EntryCountsPublishesIff` says when,
  `ScannerRuns.ReopenedPullRequestStartsOver` shows that no bound is left.
- `pkg/trivial.go:192-195` says only file headers are skipped and every real change line is validated. The patch of
  one file has no headers, so any changed line that begins with three plus or minus signs is a real change and is
  read by none of the verdicts: `TrivialGaps.EveryLineIsValidatedIff`, `TrivialGaps.PatchAllMissesAHeaderLikeLine`,
  `TrivialGaps.GoSumIsExactIff`, `TrivialGaps.CaskIsExactIff`; for changelogs (`pkg/trivial.go:215-216`)
  `TrivialGaps.AppendOnlyIsExactIff`, `TrivialGaps.AppendOnlyMissesADashedLine`.
- `pkg/retry_guard.go:261-262` says a corrupt entry cannot block a key forever. Until some publish is recorded it
  does: `Check` fails on it, where the override ledger ignores it: `LedgerSpec.CorruptUntil`,
  `LedgerSpec.PruningIsInvisibleToTheGuardIff`. Nothing in this code writes such a value.
- Between a decision and its confirmation, while the leading record or the trailing dispatch is being sent, the
  entry looks idle (`pkg/handler/webhook_handler.go:181-200`, `pkg/watcher.go:968-982`, `pkg/coalesce/coalesce.go:361-389`).
  A poll or a push there can take a second decision, and both are published:
  `CoalesceGaps.PollWhileSendingIsAdmittedIff`, `CoalesceGaps.PushWhileSendingIff`, `CoalesceGaps.BothAreRecorded`. A
  push that is coalesced there is forgotten when the first decision is confirmed, so the last pushed head gets no
  record: `CoalesceGaps.PushWhileSendingIsDropped`. Four concrete runs do this, with a dispatch in flight
  (`CoalesceGaps.PollDuringDispatchOvertakes`, `CoalesceGaps.LastPushCanBeLost`) and without any
  (`CoalesceGaps.LeadingPushesCanDouble`, `CoalesceGaps.PushAfterLeadCanBeLost`).
- A pruned entry restarts its generations, so a callback of its earlier life can match:
  `CoalesceTimers.StepKeepsGenerationsIff`, `CoalesceGaps.LeftoverCallbackIsStray`.
- So one record per hold window, plus one per release, is no bound for all runs. It is one for every run whose
  confirmed decisions are the coalescer's own and not overtaken: `CoalesceRate.UncontestedRateBound`. Any run keeps it
  exactly when its other confirmations (overtaken, stray, bypassing) come a hold after the record before them:
  `CoalesceRate.PlainBoundIffTimely`, `CoalesceRate.StretchBoundIffTimely`. `CoalesceRuns.RateBound` counts the early
  records instead. The head of a dropped push is not lost for good: `CoalesceProgress.OwedHeadIsAdmitted`.
- `pkg/watcher.go:1158-1159` says an approve never lands without its arming. That holds exactly when the trust
  check at the arming site says trusted, so for a trust check that is constant during a visit:
  `PollArming.ArmBeforeApprove`, `PollArming.ApproveCanLandUnarmed`.

## Model

| member | source | states |
|---|---|---|
| Coalescing.Coalescer.Push | pkg/coalesce/coalesce.go:224-255 | the new entries, timers and verdict are those of the push section, for every key and hold |
| Coalescing.Coalescer.Admit | pkg/coalesce/coalesce.go:258-308 | the poll-side section: only the newest push seen moves, and the decision is Emit, Hold or Settled in the order of the source |
| Coalescing.Coalescer.MarkEmitted | pkg/coalesce/coalesce.go:311-319 | the head is claimed and a pending dispatch is dropped with a new generation |
| Coalescing.Coalescer.Release | pkg/coalesce/coalesce.go:333-343 | only the exact head that is claimed is unclaimed; pending state stays |
| Coalescing.Coalescer.Close | pkg/coalesce/coalesce.go:350-357 | every handle is stopped, every other field and entry stays |
| Coalescing.Coalescer.FireTake | pkg/coalesce/coalesce.go:360-373 | first section of a callback: takes the pending head if its generation is current, else changes nothing |
| Coalescing.Coalescer.FireRearm | pkg/coalesce/coalesce.go:375-386 | the section after a failed dispatch re-arms unless a push did |
| Coalescing.Coalescer.Schedule | pkg/coalesce/coalesce.go:393-402 | stops the old callback and arms one with the next generation |
| Coalescing.Coalescer.Prune | pkg/coalesce/coalesce.go:407-419 | above the size bound exactly the idle entries past their hold are dropped |
| Coalescing.Coalescer.ClearPending | pkg/coalesce/coalesce.go:432-446 | the handle is stopped and the generation moves on |
| CoalesceRuns.RunKeepsInv | pkg/coalesce/coalesce.go:224-446 | any interleaving of sections keeps records ordered, regular records a hold apart, and every open decision and unrun callback harmless |
| CoalesceRuns.RateBound | pkg/coalesce/coalesce.go:224-419 | every run, every window: records of one pull request are at most 1 + span/hold + releases + early records in the window, and no early record is regular; pruning adds none |
| CoalesceRate.UncontestedRateBound | pkg/coalesce/coalesce.go:224-419 | every window of every run whose confirmed decisions are the coalescer's own, taken for the present entry and not overtaken: at most 1 + span/hold + releases records, however late the confirmations |
| CoalesceRate.PlainRateBound | pkg/coalesce/coalesce.go:224-419 | the same for every timely run: one whose overtaken, stray and bypassing confirmations come a hold after the record before them or after a release; nothing is asked of the others |
| CoalesceRate.PlainBoundIffTimely | pkg/coalesce/coalesce.go:234-307 | a run without releases keeps 1 + span/hold records in every window iff it is timely |
| CoalesceRate.StretchBoundIffTimely | pkg/coalesce/coalesce.go:224-343 | any run, releases included, keeps 1 + span/hold + releases records on every stretch of its history iff it is timely |
| CoalesceRate.DecisionIsTimely | pkg/coalesce/coalesce.go:311-389 | a decision of the coalescer, confirmed after any run, makes a regular record iff no other record was confirmed in between, and then comes a hold after the last one or after a release |
| CoalesceTimers.StepKeepsGenerationsIff | pkg/coalesce/coalesce.go:360-446 | a step keeps "at most one unrun callback with the current generation, only while a dispatch is pending, always one until shutdown, no callback of an earlier entry" iff it does not prune the entry under a callback that may still run |
| CoalesceTimers.OneOwnerAlways | pkg/coalesce/coalesce.go:360-446 | the same over every run of such steps, callbacks whose Stop came in time being out of the way; then no record is stray |
| CoalesceTimers.OnlyTheOwnerDispatches | pkg/coalesce/coalesce.go:360-373 | a callback dispatches iff it owns the pending dispatch; it takes the pending head and leaves no owner |
| CoalesceMemory.RunIsRemembered | pkg/coalesce/coalesce.go:176-446 | over every run without a callback left behind, the entry, its map, timers and generations hold no more than the last record, the newest push seen and the pending dispatch |
| CoalesceMemory.AnswersFollowHistory | pkg/coalesce/coalesce.go:224-373 | after any such run: a push leads iff it repeats nothing and record and newest push are a hold old, a poll is settled iff it repeats the published head and admitted iff it is new, nothing is pending and all is a hold old, a callback publishes iff it was armed last |
| CoalesceMemory.RepeatedDeliveryIsIgnored | pkg/coalesce/coalesce.go:235-239 | a repeated delivery of the published head is a look and nothing else; below the size bound every later run is as without it |
| CoalesceMemory.ShutdownStopsEverything | pkg/coalesce/coalesce.go:345-357 | the only callback of a pull request neither run nor stopped is the one its entry holds; after shutdown, whatever happened before, there is none |
| CoalesceBurst.DecisionOpensBurst | pkg/coalesce/coalesce.go:224-307 | a push that leads and a poll that is admitted each open a burst, whatever older decisions are still open |
| CoalesceBurst.BurstKeepsInv | pkg/coalesce/coalesce.go:224-419 | the burst invariant holds through any number of pushes, polls, superseded and failed callbacks and events of other pull requests, also while a record is being sent |
| CoalesceBurst.BurstMakesAtMostTwoRecords | pkg/coalesce/coalesce.go:5-23 | a burst of any length adds the leading record and at most one more, which carries the last pushed head and comes a hold after that push |
| CoalesceGaps.BurstCanMakeTwoRecords | pkg/coalesce/coalesce.go:5-12 | a concrete burst that makes both records, so the bound is reached |
| CoalesceGaps.PollWhileSendingIsAdmittedIff | pkg/coalesce/coalesce.go:272-307 | between any decision and its confirmation a poll is admitted iff its head is new and nothing is published or push and record are a hold old; the decision being sent does not count |
| CoalesceGaps.PushWhileSendingIff | pkg/coalesce/coalesce.go:234-254 | between any decision and its confirmation a push of a new head leads iff nothing is published for the entry or push and record are a hold old, otherwise it is coalesced |
| CoalesceGaps.BothAreRecorded | pkg/coalesce/coalesce.go:311-319 | then both decisions can be confirmed, two records at any two instants in order, the second overtaken |
| CoalesceGaps.PushWhileSendingIsDropped | pkg/coalesce/coalesce.go:311-319 | a push coalesced there is dropped by the confirmation, which records only the head decided on and leaves nothing pending; a failed dispatch keeps it |
| CoalesceGaps.PollDuringDispatchOvertakes | pkg/coalesce/coalesce.go:361-389 | a concrete run: the trailing head is published twice at one instant |
| CoalesceGaps.LastPushCanBeLost | pkg/coalesce/coalesce.go:361-387 | a concrete run with a dispatch in flight: the last pushed head has neither a record nor anything pending |
| CoalesceGaps.LeadingPushesCanDouble | pkg/handler/webhook_handler.go:181-200 | a concrete run: the first two pushes of a pull request both lead and are published at one instant |
| CoalesceGaps.PushAfterLeadCanBeLost | pkg/handler/webhook_handler.go:181-200 | a concrete run without a dispatch: a push coalesced while a leading head is sent has neither a record nor anything pending |
| CoalesceGaps.LeftoverCallbackIsStray | pkg/coalesce/coalesce.go:407-419 | concrete run over 4096 other entries: pruning lets an old callback publish inside the hold |
| Watching.Watcher.TryAutoMerge | pkg/watcher.go:1409-1440 | an arming attempt exactly for a labelled pull request of a trusted author |
| Watching.Watcher.TryUpdateBranch | pkg/watcher.go:1245-1290 | a branch update exactly for a labelled, stale, not superseded, trusted pull request |
| Watching.Watcher.TrySupersedeDepBump | pkg/watcher.go:1361-1394 | a close attempt exactly for a dirty trusted dependency bump; only a successful one stops processing |
| Watching.Watcher.MaybeLabelTrivial | pkg/watcher.go:1450-1484 | a label attempt exactly for an opted-in trivial pull request |
| Watching.Watcher.TryOverride | pkg/watcher.go:1063-1090 | the label override with its id in both cursor maps only when sent |
| Watching.Watcher.QualifiesForMechanicalOverride | pkg/watcher.go:1579-1635 | the gate's three answers, and what qualifying implies |
| Watching.Watcher.TryMechanicalOverride | pkg/watcher.go:1109-1188 | dedupe before gate, label and arm before publish, handled even when unsent |
| Watching.Watcher.MechanicalOverrideOutcome | pkg/watcher.go:1019-1053 | the deferral count goes up, or is cleared |
| Watching.Watcher.PublishReviewOutcome | pkg/watcher.go:948-993 | Settled and published heads are remembered, held ones deferred, failed ones neither |
| Watching.Watcher.ProcessPR | pkg/watcher.go:828-944 | filter, details, side effects, then the first of override, mechanical override, dedupe, review |
| Watching.Watcher.ProcessPRs | pkg/watcher.go:653-701 | the loop's cursor, clamp and early return on cancellation |
| Watching.Watcher.Poll | pkg/watcher.go:549-596 | one poll from stored cursor to stored cursor; a failed save keeps the old one |
| PollLaws.DecideIsStated | pkg/watcher.go:887-993 | what the dedupe step publishes, learns, keeps, counts and reports, each from the answers themselves: labels, trust, opt-in, files, known tasks and the coalescer |
| PollLaws.VisitIsStated | pkg/watcher.go:828-944 | the same for a whole visit, with everything it attempts before, in order |
| PollPromises.TaskMeansHandled | pkg/watcher.go:828-993 | a visit whose head had a task or gets one is handled at its own updated-at and holds nothing back |
| PollPromises.FinishedPollReachesTheNewest | pkg/watcher.go:653-701 | a finished poll in which every pull request has a task leaves the cursor at the newest of them |
| PollPromises.EverythingIsAllowed | pkg/watcher.go:828-1188 | over any run, every publish and attempt was allowed by the answers about its own pull request: label and trusted author for an override, a passed gate for an approve, Emit and no override for a review |
| PollPromises.EvaluationIsUnreadableIff | pkg/watcher.go:1579-1635 | a gate counts as unreadable iff nothing speaks for the head and the first answer it needs fails: trust, then opt-in, then files |
| PollPromises.DetailsAreReadOnce | pkg/watcher.go:1803-1824 | a second visit of a pull request in one poll does the same whatever details it would be shown |
| PollOwner.DecideStep | pkg/watcher.go:897-943 | at one visit a head is claimed by a review or mechanical override only if unknown, claims are remembered, and known ids are carried unless a label override stays unsent |
| PollOwner.KnownHeadIsKeptIffSettled | pkg/watcher.go:630-652 | a finished poll keeps a known head iff some visit settles it |
| PollOwner.SteadyRunsKeepOwner | pkg/watcher.go:887-993 | from any cursor, over runs whose finished polls settle the head once it is known, only the first claim on a head is a review or mechanical override, and a claimed head stays in the cursor |
| PollOwner.AtMostOneOwner | pkg/watcher.go:653-701 | any number of polls with failing sends and duplicates publish at most one review or mechanical override per head, none if it was known before; polls before the pull request appears included |
| PollOwner.UnsettledHeadIsPublishedAgain | pkg/watcher.go:636-652 | without steadiness: publish, any unsettling poll, publish again |
| PollArming.ArmBeforeApprove | pkg/watcher.go:872-928 | each visit arms at most once and only with the label there before; an approve has its arming before it iff trust at the arming site is Trusted |
| PollArming.ApproveCanLandUnarmed | pkg/watcher.go:1158-1188 | the concrete visit that approves and arms nothing |
| PollArming.NoStrandedApprove | pkg/watcher.go:1147-1187 | with trust constant per visit, every approve of every run has an earlier arming attempt on its pull request |
| PollCursor.FinishedPollPosition | pkg/watcher.go:672-700 | a finished poll's cursor never goes back, never passes a deferred pull request, and stops short of a handled one only for a deferred one |
| PollCursor.StaysInWindowIff | pkg/watcher.go:672-700 | after a finished poll a pull request is still in the window iff no newer one was handled or one as old was deferred |
| PollCursor.UnsentOverrideIsHandled | pkg/watcher.go:1082-1090 | a label or mechanical override that is due and not sent counts as handled and leaves no id, so only the window brings it back |
| PollCursor.UnsentOverrideCanLeaveTheWindow | pkg/watcher.go:1100-1101 | a concrete finished and saved poll after which an unsent override is outside the window and unknown |
| PollCursor.CancelledPollKeepsWindowIff | pkg/watcher.go:665-671 | a cancelled poll keeps a deferred pull request in the window iff nothing newer was handled before |
| PollCursor.CancelledPollCanLoseADeferral | pkg/watcher.go:665-671 | concrete poll that loses one |
| PollCursor.NothingDeferredIsLost | pkg/watcher.go:572-588 | over any run in which a pull request is only deferred, failed searches and saves included, it stays in the search window |
| PollDeferrals.StoredCountIsTheStreak | pkg/watcher.go:1019-1053 | over any run the stored count is the number of unreadable evaluations in a row, in polls whose cursor was saved, modulo four; absent or 1 to 3 |
| PollDeferrals.EveryFourthUnreadableGateIsReviewed | pkg/watcher.go:1009-1053 | at any point of any run the first three unreadable evaluations defer, the fourth takes the review path and clears the count |
| MemDB.OrderIsUnique | pkg/memdb.go:178-188 | the sorted snapshot does not depend on the map's iteration order |
| MemDB.LessAtFirstDifference | pkg/memdb.go:178-188 | the order of keys is decided at the first difference, and a proper beginning comes first |
| MemDB.SortedKeys | pkg/memdb.go:178-188 | every key once, in Go's string order, forward or reversed |
| MemDB.MemBucket.Iterator | pkg/memdb.go:163-188 | a snapshot of exactly the present keys over the live map |
| MemDB.MemIterator.Item | pkg/memdb.go:192-198 | the snapshot's key with whatever the bucket holds for it now |
| MemDB.MemIterator.Seek | pkg/memdb.go:209-217 | the first key not before the given one, in either direction |
| Ledgers.Prune | pkg/override_ledger.go:216-237 | deleting while iterating visits every key of the snapshot exactly once and leaves exactly the fresh decodable records |
| Ledgers.OverrideLedger.Record | pkg/override_ledger.go:145-167 | prunes, then stores |
| Ledgers.OverrideLedger.Suppressed | pkg/override_ledger.go:172-214 | true exactly for a decodable record at most an hour old; a missing bucket or record and a corrupt value are false |
| Ledgers.RetryGuard.Record | pkg/retry_guard.go:236-258 | prunes, then stores |
| Ledgers.RetryGuard.Check | pkg/retry_guard.go:153-181 | missing, corrupt, stale and fresh records, with the age clamped at zero |
| Ledgers.RetryGuard.DecideFresh | pkg/retry_guard.go:188-234 | a verdict at the head or an unreadable lookup publishes, otherwise the in-flight run refuses |
| LedgerSpec.PruningIsInvisibleToSuppressed | pkg/override_ledger.go:145-237 | for any start and any timely run of records the pruned ledger answers as one that never prunes |
| LedgerSpec.SuppressedIffRecordedWithinTheHour | pkg/override_ledger.go:19-30 | suppressed iff some override was recorded for the head within the last hour |
| LedgerSpec.PruningAndTheGuard | pkg/retry_guard.go:153-322 | exactly how pruning changes the guard's answer: stale becomes absent, corrupt stops failing |
| LedgerSpec.CorruptUntil | pkg/retry_guard.go:260-284 | a corrupt value survives exactly until the first recorded publish |
| LedgerSpec.PruningIsInvisibleToTheGuardIff | pkg/retry_guard.go:153-322 | the guard acts as on an unpruned ledger iff no corrupt value was pruned by another head's publish |
| LedgerSpec.RefusedIffInFlight | pkg/retry_guard.go:153-234 | a forced review is refused iff a publish was recorded within the hour, reviews are readable and none is a verdict at the head |
| LedgerSpec.GuardSays | pkg/retry_guard.go:153-234 | why the guard answers as it does after any run, and which publish it names when it refuses |
| LedgerSpec.AnswersAtAnyClock | pkg/override_ledger.go:172-214 | at any clock a decodable record counts until an hour after its publish, future ones too, ages are never negative, and a corrupt value fails the guard only |
| Producers.Publisher.PublishCreate | pkg/watcher.go:156-222 | suppress, trust, send, record: the producers' step, true iff published |
| Producers.Publisher.PublishLabelOverride | pkg/watcher.go:301-349 | handled iff trusted, recorded iff sent |
| Producers.Publisher.PublishMechanicalOverride | pkg/watcher.go:355-384 | recorded iff sent |
| Producers.Publisher.DeferWebhookMechanicalOverride | pkg/command/trigger_pr_review_executor.go:218-252 | releases the claim in the coalescer exactly for an unforced webhook command of a listed author |
| Producers.Publisher.RunTriggerPRReview | pkg/command/trigger_pr_review_executor.go:91-193 | the executor's early exits in order, one step of the producers |
| ProducerSpec.RunMirrors | pkg/override_ledger.go:32-61 | after any run both ledgers are what recording the publish history leaves |
| ProducerSpec.CreatePublishesIff | pkg/watcher.go:156-222 | after any run the poll loop or scanner publishes iff no override of that very head is within the hour and trust check and send work; so suppression ends |
| ProducerSpec.CommandPublishesIff | pkg/command/trigger_pr_review_executor.go:91-193 | after any run any command publishes iff it is readable, listed, trusted, not left to the poll loop and sendable, no override of that very head is within the hour and, if forced without a known verdict, no review either |
| ProducerSpec.OverridePublishesIff | pkg/watcher.go:301-384 | an override is published iff it is sent and, for a label, its author is trusted |
| ProducerSpec.HeadsAreIndependent | pkg/override_ledger.go:239-240 | in every run a head gets what its own steps alone would have published: no publish or refusal of another head matters |
| ProducerSpec.ProducersKeepApart | pkg/command/trigger_pr_review_executor.go:164-191 | every run: no review within the hour after an override of the head, and forced retries without a verdict an hour after every earlier review by anyone |
| ProducerSpec.DeferralGivesTheHeadBack | pkg/command/trigger_pr_review_executor.go:218-252 | a deferred command publishes nothing, and afterwards a poll of its head is not settled; it is admitted iff nothing is pending when the webhook held the claim |
| CoalesceRelease.ReleasedHeadIsOwed | pkg/coalesce/coalesce.go:321-343 | after a release and any run that does not claim the head again, no poll of it is Settled; with no record since it is Emit iff nothing is pending, otherwise Emit only a hold after the last one |
| CoalesceProgress.OwedHeadIsAdmitted | pkg/coalesce/coalesce.go:258-308 | after any run, a poll of a head other than the one recorded last is never Settled; it is Emit if nothing is pending, the last record is released or a hold old and no push seen by any path is younger than the hold, and only if the first two are so |
| CoalesceRelease.ClaimedHeadIsSettled | pkg/coalesce/coalesce.go:133-148 | without the release, after a confirmed head and any run that leaves the claim, every poll of it is Settled |
| CoalesceRelease.OtherReleaseIsIgnored | pkg/coalesce/coalesce.go:329-332 | a release naming another head leaves every later run as it was |
| Scanning.UnreviewedScanner.Scan | pkg/unreviewed_scanner.go:193-249 | one scan: skipped, aborted or complete, with state, publishes and gauge |
| Scanning.UnreviewedScanner.Qualify | pkg/unreviewed_scanner.go:364-433 | the checks in order, which of them abort, and what is cached |
| Scanning.UnreviewedScanner.CachedReviewed | pkg/unreviewed_scanner.go:440-451 | a hit needs the same updated-at; a moved one drops the entry |
| Scanning.UnreviewedScanner.Retry | pkg/unreviewed_scanner.go:257-292 | the retry pass with failed sends and cancellation |
| Scanning.UnreviewedScanner.RetriesExhausted | pkg/unreviewed_scanner.go:297-307 | budget used up and a threshold gone by, or retrying disabled |
| Scanning.UnreviewedScanner.PruneState | pkg/unreviewed_scanner.go:312-327 | exactly the entries of pull requests in the search result stay |
| ScannerRuns.RetriedIff | pkg/unreviewed_scanner.go:257-292 | a head is published again iff its budget is due and a reached candidate can be sent; nothing else touches its entry |
| ScannerRuns.RunKeepsBudget | pkg/unreviewed_scanner.go:193-327 | in every run a head's entry is exactly its publish count and last instant since the last complete scan that missed its pull request |
| ScannerRuns.RetriesAreBounded | pkg/unreviewed_scanner.go:251-292 | in every run, with failing, overlapping, aborted and cancelled scans: at most `RetryMax` publishes per head, a threshold apart, between losses of its entry, and `RetryMax` more per loss |
| ScannerRuns.EntryCountsPublishesIff | pkg/unreviewed_scanner.go:309-327 | the stored budget counts all publishes of a head iff no complete scan after the first of them missed its pull request |
| ScannerRuns.ExhaustedMeansGivenUp | pkg/unreviewed_scanner.go:294-307 | in every run the gauge's mark is true iff the head was published `RetryMax` times since it was last missed and a threshold has passed, or retrying is off |
| ScannerRuns.ReopenedPullRequestStartsOver | pkg/unreviewed_scanner.go:309-327 | a pull request missed by n complete scans in between is published n times at one instant, for every n, budget and threshold |
| ScannerRuns.CacheAgrees | pkg/unreviewed_scanner.go:388-451 | after any run the scan finds the candidates an uncached scan would, whenever the latter completes |
| ScannerLaws.PublishedIsOwed | pkg/unreviewed_scanner.go:364-433 | a head any scan publishes belongs to a pull request of that scan that is unfiltered, unlabelled, a threshold old, trusted, not parked and without a reviewer's verdict at it |
| ScannerLaws.PublishedIffOwed | pkg/unreviewed_scanner.go:193-292 | after any run, a scan that can read everything publishes exactly the heads that are so owed, reached and sendable, as far as the budget goes |
| ScannerLaws.AbortedScanPublishesNothing | pkg/unreviewed_scanner.go:193-249 | a scan that is cancelled or cannot read an uncached pull request publishes nothing, spends nothing and sets no gauge |
| ScannerLaws.CachedIffReviewed | pkg/unreviewed_scanner.go:388-451 | what looking at a pull request caches and drops |
| TrivialDiff.GoSumMechanical | pkg/trivial.go:90-149 | the map-counting loops accept iff the patch is not empty, every changed line is a hash line, no module loses lines and no exact line is on both sides |
| TrivialDiff.GoSumIgnoresOrder | pkg/trivial.go:80-149 | the verdict is the same for every reordering of the lines |
| TrivialDiff.CaskMechanical | pkg/trivial.go:156-190 | accepts iff the changed lines are one version and one hash on each side |
| TrivialDiff.CaskIgnoresOrder | pkg/trivial.go:151-190 | the same for every reordering |
| TrivialDiff.PatchAll | pkg/trivial.go:197-213 | accepts iff the patch is not empty and every changed line that does not look like a file header matches |
| TrivialGaps.EveryLineIsValidatedIff | pkg/trivial.go:192-213 | for every pattern, go.sum's and the casks' included: that is "every line with a plus or minus matches" iff the header-like lines match too or another line fails |
| TrivialGaps.PatchAllMissesAHeaderLikeLine | pkg/trivial.go:192-213 | a concrete added line no pattern is tried on |
| TrivialGaps.GoSumIsExactIff | pkg/trivial.go:80-149 | an accepted patch obeys the go.sum rule over all changed lines iff its header-like lines are hash lines, no module loses more of them than its surplus of additions, and none has its exact line on the other side; without such lines the verdict is the rule |
| TrivialGaps.CaskIsExactIff | pkg/trivial.go:151-190 | an accepted patch obeys the cask rule over all changed lines iff no line looks like a header; without such lines the verdict is the rule |
| TrivialDiff.AppendOnly | pkg/trivial.go:217-232 | accepts iff the patch is not empty and no line counts as removed |
| TrivialGaps.AppendOnlyIsExactIff | pkg/trivial.go:215-232 | that is "removes no line" iff no line begins with three dashes or some line begins with one or two |
| TrivialGaps.AppendOnlyMissesADashedLine | pkg/trivial.go:215-232 | a concrete removal it misses |
| TrivialDiff.ClassifyTrivial | pkg/trivial.go:47-82 | trivial iff there are files and each is mechanical by its name's rule |
| TrivialLaws.LinesAreUnique | pkg/trivial.go:102 | the lines of a patch are the one sequence without newlines that joins to it |
| TrivialLaws.PairedIff | pkg/trivial.go:80-149 | go.sum lines pair iff no module or go.mod loses more lines than it gains and no hash is replaced at an unchanged version |
| TrivialLaws.OneBumpIff | pkg/trivial.go:151-190 | the cask verdict as counts of version and hash lines per side, with no other line read |
| TrivialLaws.MechanicalIff | pkg/trivial.go:56-78 | a file is mechanical iff it has a patch, is of one of six kinds by name, and the lines of the patch obey the rule of that kind |
| Titles.SlugifyTitle | pkg/filename.go:126-145 | the builder loop, trimming and cut give the words joined by single hyphens, cut without a trailing one |
| Titles.SlugIsClean | pkg/filename.go:118-125 | only a-z, 0-9 and single inner hyphens, at most `maxSlug` long |
| Titles.SlugIsIdempotent | pkg/filename.go:118-145 | slugging a slug changes nothing |
| Titles.WordsKeepLetters | pkg/filename.go:126-139 | before the cut no letter or digit is lost, gained or moved |
| Titles.WordsInARow | pkg/filename.go:126-139 | the words of two texts in a row are those of each, with a hyphen between iff there is a gap where they meet |
| Titles.SlugIsWhatFits | pkg/filename.go:139-145 | a cut slug is a beginning of the words that lacks at most a hyphen |
| Titles.ComputeTaskTitle | pkg/filename.go:77-116 | stem cut to what the suffix leaves, then the whole suffix |
| Titles.TitleKeepsSuffix | pkg/filename.go:20-35 | the suffix is always whole, the length at most max(maxTitle, suffix), the stem a prefix, uncut when it fits |
| Titles.RetryTitlesDiffer | pkg/filename.go:29-35 | different retry tokens of one length give different titles, for every limit |
| Titles.KindsShareTitleIff | pkg/filename.go:73-76 | review and override titles coincide iff the suffix leaves at most three characters |
| Titles.FittingTitlesCoincideIff | pkg/filename.go:77-100 | titles that fit coincide iff kind, provider, owner-repository, number, the first eight characters of the commit and slug do |
| TaskKeys.DecodeOfKey | pkg/taskid.go:16-55 | every legal key decodes to what it was made from |
| TaskKeys.KeysAreDistinct | pkg/taskid.go:26-55 | the three encodings are injective and pairwise disjoint |
| ReviewIgnore.Matcher.Parse | pkg/reviewignore/reviewignore.go:57-70 | empty iff every line is blank or a comment |
| ReviewIgnore.Matcher.Match | pkg/reviewignore/reviewignore.go:78-119 | excluded iff the path or some directory above it, in either spelling, is matched, and never the file itself |
| ReviewIgnore.ExcludedIff | pkg/reviewignore/reviewignore.go:78-119 | excluded iff a pattern matches the path or a directory it lies in |
| ReviewIgnore.ExclusionIsInherited | pkg/reviewignore/reviewignore.go:86-104 | nothing below an excluded or directory-matched path can be included again |

## Left out

- HTTP, Kafka, the GitHub client, metrics, logging and configuration parsing: plumbing around the decisions modelled here.
- JSON: ledger records are stored as values, with one value for bytes that do not decode; cursor files are assumed to load what was saved, and a corrupt cursor file (which starts cold) is not modelled.
- UUIDs: an identifier is its key; collisions of the hash are not modelled.
- The generation counter is unbounded here and 64 bits wide in the source.
- The pass over labelled pull requests (pkg/watcher.go:728-790): it repeats side effects only and touches neither cursor nor ledgers.
- The scan at the end of a poll is its own run in `ScannerRuns`; the poll's coalescer and ledger answers are oracles in `PollSpec`, and `ProducerSpec` covers the ledgers across producers.
- Command bodies, frontmatter, parking by size and the `.reviewignore` exclusion counts: single-branch or structural.
- Checking a ledger and publishing is one step in `ProducerSpec`; a ledger that cannot be read or written, and a restart that empties it, are not part of its runs.
- CoalesceBurst.BurstMakesAtMostTwoRecords: leaves out releases, bypassing webhook actions and confirmations of older decisions for that pull request. While one of its records is being sent it assumes that the entry is not pruned, that no poll of it is admitted and that no push of it arrives but a repeated delivery; `CoalesceGaps` says what those polls and pushes do, and a dispatch that fails after its entry was pruned is not re-armed. `CoalesceRuns.RateBound` covers all these runs.
- CoalesceRate.PlainBoundIffTimely: counts over windows of time, so it leaves releases out; `CoalesceRate.StretchBoundIffTimely` covers them by counting between two marks of the history.
- CoalesceMemory.AnswersFollowHistory: is about runs that never prune an entry under a callback still to run; `CoalesceGaps.LeftoverCallbackIsStray` shows what happens in the others.
- ProducerSpec.CreatePublishesIff: is about heads without separators of the key in owner, repository or commit, as are `ProducerSpec.CommandPublishesIff` and `ProducerSpec.HeadsAreIndependent`; GitHub allows no others.
- Titles.FittingTitlesCoincideIff: assumes no blank in kind, provider, owner, repository and commit.
- PollOwner.AtMostOneOwner: is about polls that are saved and, when finished, settle a head they know; `PollOwner.KnownHeadIsKeptIffSettled` says exactly which those are.
- ProducerSpec.DeferralGivesTheHeadBack: the coalescer's other sections are one arbitrary step here; their runs are those of `CoalesceRelease`.
- PollCursor.NothingDeferredIsLost: is about polls that run to their end; a pull request whose details or publish failed is not clamped by the source.
- ScannerRuns.CacheAgrees: assumes that an unchanged updated-at means an unchanged head and that reviews are only added.
- Titles.ComputeTaskTitle: lengths are characters, which are bytes for the ASCII segments GitHub allows; other encodings are not modelled.
- MemDB.SortedKeys: an insertion sort stands in for the library's sort; only the sorted result matters.
