# esync verification model

esync copies a file tree once, from a sender to a receiver, over one encrypted
control channel and several encrypted data channels. This project models the parts
of it whose correctness is not visible from one function at a time, and proves what
they keep. All of it is Dafny; `dafny verify dfyconfig.toml` checks the project.

The model follows the source: what the source computes with expressions is a
function, what it computes with a loop is a method with a loop, and what it keeps in
an object under a mutex is a class. A method is proved against a function of its
inputs or of the old state, and the theorems are about that function. Concurrency is
a transition system whose steps are the critical sections, in any interleaving, and
the theorems are about every run.

## Modules

- **Receiver accounting.** `NeedQueue` is the need queue and its object;
  `QueueClients` is the queue with any clients that end each pop by one done or
  requeue; `QueueMonitor` is its condition variables. `HardlinkMap` is the hard-link
  map. `Receiver` puts decide workers and fetch workers on both, with a place for
  every file id; `ReceiverInvariant` proves that the places are exact,
  `ReceiverSafety` that nothing is forgotten, `ReceiverTaking` that a file is taken up
  once and its outcome is final, `ReceiverRank` that the work left decreases.
  `ReceiverRuns` holds the theorems over whole sessions and `ReceiverDrain` that a
  session which can go no further has drained. `ReceiverKeys` proves that links join
  files of one hard-link key, `ReceiverRaces` how many files of a key are fetched on
  their own. `QueueOrder` proves that the queue is first in, first out.
- **Data and control protocol.** `DataChannel` is one data channel with a fetch
  worker at one end and a servicer at the other; `FetchSession` joins the receiver's
  accounting with one channel for each fetch worker, over shared part files, and
  `FetchLapse` is a session in which it publishes a file twice. `Servicer` is one request served; `Tracker` the sender's
  completion accounting; `Credit` the manifest credit protocol end to end. `Pipeline` joins that protocol with
  the receiver's accounting, and `Planned` starts it from a plan.
- **Plan.** `Order` is the ordering of entries, `Choosing` the filtering of lists,
  `Plan` the plan as a function of the entries, `PlanBuild` its loops, `PlanContents`
  what it holds in terms of the rules alone, `PlanDigest` what its digest determines, `Grouping` the
  greedy grouping, `ManifestBudget` the proof that every group fits a control record.
- **Wire and records.** `Codec` is the writer and the latched-error reader, `Fields`,
  `Lists` and `Rows` the field tables and lists over it, `Frame` the nineteen
  messages, `Wire` their bodies and frames. `Padding`, `Record`, `RecordStream` and
  `RecordChannel` are the record layer.
- **Persistent and printed formats.** `Radix` is digits and the packing of bytes into
  them, `PairCode` and `PairText` the pairing code, `FieldText`, `Journal`,
  `JournalLog` and `JournalResume` the resume journal, `DigestCache` the digest cache.
- `Bytes`, `Finite`, `Optional` and `Fault`, the fault codes, hold what several of
  these share.

NFC, UTF-8 validity, the filter matcher, the system-file rules, SHA-256, CRC-32,
CRC-32C, the content hash, HMAC and AES-CBC are function values the theorems quantify
over; of AES-CBC they ask that it keeps the length of whole blocks and can be undone,
of HMAC that it yields 32 bytes, of the checksums nothing. File-system outcomes,
randomness, cancellation, channel loss and the bytes a socket delivers are parameters
or choices between steps.

## Findings

- The byte sum that closes a group wraps in 64 bits. Two adjacent files of 2^62 bytes
  share a group whatever the target (`Grouping.OverflowJoinsTwoHugeFiles`).
  `Grouping.GreedyIsOptimal` gives the exact condition under which the groups respect
  their caps, and `Grouping.SmallFilesNeverOverflow` a simple sufficient one.
- A resumed session appends to the journal as it finds it. When the journal ends in a
  torn line, whole or not, the first new record merges with it, and the next parse loses
  that line and everything appended (`JournalResume.AppendAfterMissingNewline`,
  `JournalResume.AppendAfterFirstField`). `JournalResume.ResumeAfterCut` gives the result
  for every log, every cut and everything appended: nothing is lost when the cut fell
  behind a newline, everything appended is lost otherwise, unless the tear lies inside
  the first field and two checksums collide; then it gives the record that is misread.
- The digest cache appends behind a torn tail in the same way
  (`DigestCache.AppendAfterLostByte`). Reloading gives what memory holds when the file
  had no torn tail on opening; otherwise it gives only what opening found, unless the
  torn record's checksum collides (`DigestCache.LoadAfterAppend`,
  `DigestCache.Cache.Reload`).
- In-flight requests equal serve calls in progress exactly when no FILE_CANCEL has hit
  one of them (`Tracker.InflightCountsServes`). `Tracker.CancelReleasesEarly` is the
  shortest run in which they differ; its cancel must arrive on another channel, since a
  servicer reads its own only between requests. The receiver never sends FILE_CANCEL.
- The comment on Build calls the outcome a pure function of the entry set, but the
  exclusions are listed in the order of the input: `Plan.ExclusionsFollowTheInput` swaps
  two entries and gets another plan. Two orders of the same entries give one plan exactly
  when the entries recorded as excluded come in the same order (`Plan.SamePlanIff`);
  everything else is the same for every order (`Plan.OrderOfInputIrrelevant`).
- The planner and the record layer accept paths of up to 65535 bytes, the receiver's
  decoder up to 4096: a published group is read back exactly when every path and link
  target in it is that short (`ManifestBudget.GroupReadBackIffShort`).
- A journal that refuses the record of a file already moved into place is a fatal error
  (E7007), but a fetch worker looks first at whether it was cancelled. A worker the tuner
  retires at that moment returns its item: the file is fetched and published again and
  the error is lost (`FetchLapse.PublishedTwice`). Every file is published once, and the
  accounting has exactly the published files on disk, if and only if the journal took
  every record (`FetchSession.PublishedOnceIff`).
- Looking up the path of a hard-link key, claiming the key and marking its primary are
  three critical sections. Two decide workers can come to lead one key at once, and a
  claim that finds the path already known leads the key instead of linking to it; then
  both files are fetched and not linked to each other (`ReceiverRaces.TwoLeaders`).
  Without refused links and failed primaries a key has at most one leader if and only if
  no claim races (`ReceiverRaces.OneLeaderIff`).
- `--group-credit` has no upper bound but travels in 16 bits. A multiple of 65536 grants
  nothing, and no group is ever published or decided (`Credit.NoGrantNoManifest`); with
  any other setting a session that can go no further has settled every file
  (`Planned.EveryPlannedFileSettles`).
- The group count travels in 32 bits. With 2^32 groups, which takes as many entries, the
  control reader closes its manifest channel before the first manifest
  (`Credit.CountWrapsRound`); it has closed it too early exactly when it has read the
  count modulo 2^32 (`Credit.ReaderNeverBlocks`), so never with fewer groups.

## Model

| member | source | states |
|---|---|---|
| `ReceiverRuns.EverySecondaryIsAwaited` | internal/receiver/decide.go:74-182 | in every reachable state, a key that is seen and not on disk, and any key with a parked secondary, has a primary still being decided, queued or in flight |
| `ReceiverKeys.SecondaryAwaitsOwnKey` | internal/receiver/decide.go:404-436 | a secondary is parked on the key of its own manifest entry, and awaits a live primary with that key |
| `ReceiverKeys.KeysAreTheirOwn` | internal/receiver/decide.go:404-449 | in every reachable state a primary leads the key of its manifest entry, whatever is parked on a key has that key and its own path, and the path of a key is that of a landed, published or skipped file of that key |
| `ReceiverKeys.LinkedWithinKey` | internal/receiver/decide.go:404-493 | a linked file was linked to the path of another file of its own key whose content is on disk |
| `ReceiverKeys.ItemsAreTheirOwn` | internal/receiver/decide.go:277-304 | whatever is queued or in flight carries the path and size of its manifest entry |
| `ReceiverKeys.BeginsByKey` | internal/receiver/decide.go:406-438 | an entry without a key is compared on its own; one with a key consults the map |
| `ReceiverKeys.SeeksOwnPath` | internal/receiver/decide.go:408-414 | an entry whose key has a path is linked to that path, and claims its key otherwise |
| `ReceiverKeys.ClaimsOwnKey` | internal/receiver/decide.go:427-435 | an entry parks behind the others of its key exactly while the key is seen and not on disk, and goes on to lead it otherwise |
| `ReceiverKeys.LeadsOwnKey` | internal/receiver/decide.go:424-435 | the new leader is the primary of its own key, which is seen from then on |
| `ReceiverKeys.FallsBack` | internal/receiver/hlfallback.go:33-56 | a secondary that cannot be linked is queued with its own path and size when its metadata is known and there is space, and failed and counted otherwise |
| `ReceiverRaces.OneLeaderIff` | internal/receiver/decide.go:406-436 | in a session without a refused link or a failed primary of a key, at most one file leads the key if and only if no claim of it came while another worker was about to lead it or after its path was known |
| `ReceiverRaces.TwoLeaders` | internal/receiver/decide.go:406-436 | a session in which two files come to lead one key |
| `ReceiverRuns.DrainedMeansSettled` | internal/receiver/fetch.go:52-137 | once the queue is drained no secondary is parked, no file is under way, and the failed, transferred and rejected counters count exactly the files with those outcomes |
| `ReceiverRuns.EveryDecidedFileSettles` | internal/receiver/decide.go:227-362 | in every reachable drained state a file has exactly one of the five outcomes if and only if its group was taken up, and is undecided otherwise |
| `ReceiverTaking.StaysTaken` | internal/receiver/decide.go:406-449 | no step makes a file undecided again |
| `ReceiverTaking.PassesBy` | internal/receiver/decide.go:227-362 | only taking up its own group moves an undecided file, only finishing it moves a published one, and nothing moves a file that has its outcome |
| `ReceiverRuns.NothingDuplicated` | internal/receiver/decide.go:406-503 | every planned file has one status, and an unresolved one is in exactly the one place its status names, once |
| `ReceiverRuns.MetadataAlwaysKnown` | internal/receiver/hlfallback.go:33-56 | whatever is about to be linked, fetched or failed has its metadata on record, so the "no metadata" branch is dead |
| `ReceiverRuns.RetriesBounded` | internal/receiver/fetch.go:52-137 | over any session every file id is enqueued at most once, so pushes never exceed the planned files; it has at most one holder, no attempt count exceeds the maximum, and pops never exceed (maximum + 1) x planned files + uncharged requeues |
| `ReceiverRank.StepLowers` | internal/receiver/fetch.go:52-137 | every step lowers the rank of the work left, but for an uncharged requeue, which raises it by one |
| `ReceiverRuns.RunsTerminate` | internal/receiver/fetch.go:52-137 | the length of every run is bounded by the plan: (2 x maximum + 12) x files + 2 x groups + 1, and 2 for each uncharged requeue |
| `ReceiverDrain.StoppedMeansDrained` | internal/receiver/run.go:725-743 | of the workers alone, with at least one fetch worker and no group above the queue capacity: a run that can only requeue uncharged or not go on at all has drained |
| `Pipeline.DrainedMeansAllSettled` | internal/receiver/run.go:576-743 | in every run of the manifest exchange and the workers together, once the queue has drained every planned group was decided and credited exactly once, and every file of every planned group has exactly one outcome |
| `Pipeline.StoppedMeansAllSettled` | internal/receiver/run.go:576-743 | a run of both that can only requeue uncharged or not go on at all has drained with every file of every planned group settled |
| `Pipeline.SessionsTerminate` | internal/receiver/run.go:576-743 | the length of every run of both is bounded: (2 x maximum + 12) x files + 10 x groups + 4, and 2 for each uncharged requeue |
| `Pipeline.TakeNeverRefused` | internal/receiver/run.go:683-696 | whatever group a worker takes off the manifest channel is planned, has not been started, and finds the queue open |
| `Pipeline.StepKeeps` | internal/receiver/decide.go:227-362 | every step of either side keeps them in step: the groups started are those taken, a group without its decision is being decided, and the queue closes only once every decide worker has returned |
| `Planned.SessionPlanWellFormed` | internal/plan/plan.go:252-285 | the groups the planner forms list every regular file exactly once |
| `Planned.PlannedGroupFits` | internal/receiver/config.go:21-23 | no planned group is larger than the need queue of a session |
| `Planned.DecodedGroupFits` | internal/wire/frame.go:192-205 | nor is any group that decodes, whoever sent it |
| `Planned.GroupArrives` | internal/sender/manifest.go:58-117 | a published group of short paths decodes to the group the session is about: the same file ids, and of every entry its kind, path, size, mode, times, digest, link target and hard-link key |
| `Planned.EveryPlannedFileSettles` | internal/receiver/run.go:650-743 | for every plan of fewer than 2^32 groups, every credit setting that grants something and any workers of either kind, a session that can go no further has drained and every regular file of the plan has exactly one outcome |
| `ReceiverRuns.RefinesClients` | internal/receiver/fetch.go:52-137 | every step of decide and fetch workers is a step of the queue's client discipline, or leaves the queue alone |
| `ReceiverRuns.StepKeeps` | internal/receiver/decide.go:406-503 | every critical section of every worker keeps the whole invariant |
| `ReceiverSafety.RefusedHandsOver` | internal/receiver/decide.go:406-449 | after a refused link the key is unseen and has no path, exactly the secondaries parked on it are with the worker, in order, and every other file stays where it was |
| `ReceiverSafety.ParkSide` | internal/receiver/decide.go:102-114 | a secondary parks only on a key with a live primary |
| `ReceiverSafety.PublishHandsOver` | internal/receiver/fetch.go:279-281 | publishing a primary gives its key its first path and its worker exactly the secondaries parked on that key; every other file stays where it was |
| `ReceiverSafety.GiveUpHandsOver` | internal/receiver/fetch.go:119-131 | giving up a primary frees its key and gives its worker exactly the secondaries parked on that key, and no other key's |
| `HardlinkMap.SharedLinks.LookUp` | internal/receiver/decide.go:91-96 | the materialised path of a key |
| `HardlinkMap.SharedLinks.ClaimSecondary` | internal/receiver/decide.go:102-114 | parks exactly when the key is seen and not on disk |
| `HardlinkMap.SharedLinks.BecomePrimary` | internal/receiver/decide.go:116-121 | the new map after markPrimary |
| `HardlinkMap.SharedLinks.Clear` | internal/receiver/decide.go:134-142 | retires the key and returns every parked secondary |
| `HardlinkMap.SharedLinks.AbandonPrimary` | internal/receiver/decide.go:155-167 | retires the key of a failed primary and returns its secondaries |
| `HardlinkMap.SharedLinks.RegisterMaterialised` | internal/receiver/decide.go:169-182 | records the first path of the key and returns its secondaries |
| `NeedQueue.LargestFirstFacts` | internal/receiver/queue.go:55-85 | pushGroup's ordering is a stable permutation, largest first |
| `QueueOrder.FirstInFirstOut` | internal/receiver/queue.go:55-157 | in every client run the items taken out, in order, and then those still queued are the items put in, in order |
| `NeedQueue.SharedQueue.TryPushGroup` | internal/receiver/queue.go:55-85 | one look of pushGroup: cancelled, closed, full, or the group appended whole, with its signals |
| `NeedQueue.SharedQueue.RequeueItem` | internal/receiver/queue.go:89-97 | the item returns to the queue and leaves flight, group count untouched |
| `NeedQueue.SharedQueue.PushFallbackItem` | internal/receiver/queue.go:119-126 | appends past capacity and after close |
| `NeedQueue.SharedQueue.PopItem` | internal/receiver/queue.go:130-157 | one look of pop: an item, drained, cancelled or wait |
| `NeedQueue.SharedQueue.DoneItem` | internal/receiver/queue.go:162-177 | resolves one item of its group and forgets the group at zero |
| `NeedQueue.SharedQueue.CloseQueue` | internal/receiver/queue.go:194-200 | closes and wakes everyone |
| `QueueClients.QueueConserves` | internal/receiver/queue.go:26-177 | in every client run pushed = queued + in flight + resolved, pending is exactly the unresolved items of each group, occupancy stays within capacity + workers + fallbacks, and every file id has one owner |
| `QueueClients.DrainedForever` | internal/receiver/run.go:725-743 | once drained the queue stays drained for the rest of any run |
| `QueueClients.PopsBounded` | internal/receiver/queue.go:89-157 | attempts never exceed the maximum and pops never exceed (maximum + 1) x pushed + uncharged requeues |
| `QueueClients.StepKeeps` | internal/receiver/queue.go:55-177 | every client step keeps the conservation invariant |
| `QueueMonitor.NeverLost` | internal/receiver/queue.go:130-228 | in every reachable monitor state a parked goroutine's wake condition is false, or its cancel broadcast is still to come |
| `QueueMonitor.BlockedPushMeansPop` | internal/receiver/queue.go:55-85 | a pushGroup parked with a group no larger than the capacity implies pop has an item |
| `QueueMonitor.OversizePushNeverReturns` | internal/receiver/queue.go:55-85 | of the queue alone: over every run without a close and without a cancel of that goroutine, a pushGroup call with a group larger than the capacity stays in the call; no session has such a group |
| `DataChannel.FetchOne` | internal/receiver/fetch.go:139-241 | the receive loop computes the verdict and the count of messages taken of the message-by-message definition |
| `DataChannel.PartHoldsChunks` | internal/receiver/fetch.go:179-241 | whatever arrives, the part file holds exactly the chunks received, contiguous from where it stood, what is published passed every check, and the loop stops in sync exactly at a terminal message |
| `DataChannel.VerdictIs` | internal/receiver/fetch.go:164-258 | the worker publishes exactly a file of the announced length that matches all three digests, and gives up with each code for exactly one reason |
| `DataChannel.ErrorPassesOn` | internal/receiver/fetch.go:173-235 | a FILE_ERROR ends the request with its code, in step, and a local failure with its own |
| `DataChannel.NothingLeftUnread` | internal/receiver/fetch.go:52-137 | a worker about to ask again on a live channel leaves no request unserved and no reply unread |
| `DataChannel.OwnRepliesOnly` | internal/receiver/fetch.go:139-241 | every message fetchOne consumes was sent for its own request, and it never meets an unexpected message or offset |
| `DataChannel.PublishedIsWhole` | internal/receiver/fetch.go:243-290 | what is published is the body of one whole response to the request in hand, of the planned size and manifest digest |
| `DataChannel.StepKeeps` | internal/sender/serve.go:39-61 | every step of either end, and the death of the transport, keeps the channel in step |
| `FetchSession.OneHolderOneWriter` | internal/receiver/fetch.go:52-137 | a worker asks only for the item it holds and a file id has one holder, so no two workers write one part file |
| `FetchSession.EveryPublicationIsFaithful` | internal/receiver/fetch.go:52-290 | in every session of all workers and channels, across retries, requeues, losses and journal errors, no two workers write one part file, every publication is the whole data of one request with the planned size and digest, the files the accounting has on disk are exactly those with a recorded publication and have no part file left, and a file is published again only behind one that the journal refused and a cancelled worker returned |
| `FetchSession.PublishedOnceIff` | internal/receiver/fetch.go:58-96 | each file is published once, and the accounting has exactly the published files on disk, if and only if the journal took every record; once drained, if and only if no cancelled worker swallowed its error |
| `FetchLapse.PublishedTwice` | internal/receiver/fetch.go:264-278 | a session in which a file is published twice and the error is lost |
| `Servicer.AtZero` | internal/sender/serve.go:63-223 | the responses to a request at offset 0 are exactly those the receiver's end of the channel expects, for files below 2^63 bytes |
| `Servicer.FateIs` | internal/sender/serve.go:63-223 | a request is served exactly when its file is known, regular, of the planned identity, size and digest, everything local works and the transport takes it all; and each code is sent for exactly what fails first |
| `Servicer.Respond` | internal/sender/serve.go:63-223 | what is sent and recorded is what the environment decides: the whole of the data read and a completion, the code of the first failing check, or an error return; the response is open or whole from the requested offset |
| `Servicer.Stream` | internal/sender/serve.go:141-223 | header, chunks contiguous from the requested offset in 64 bits and the terminal message, or a prefix of them when the transport fails; a failed seek is E6004, and completion at offset 0 matches the manifest digest |
| `Servicer.Serve` | internal/sender/serve.go:63-73 | every exit releases the request's slot by exactly one tracker call; an error return leaves the file unresolved |
| `Tracker.SharedTracker.ReevalLocked` | internal/sender/state.go:136-154 | closes the two flags exactly when their conditions hold |
| `Tracker.SharedTracker.DecisionArrives` | internal/sender/state.go:157-179 | records a decision once, with the group of each needed file and the skipped and rejected tallies; out of range and duplicate decisions are errors that change nothing |
| `Tracker.NeededExactly` | internal/sender/state.go:157-179 | in every run a file is needed exactly when an accepted decision has an index of it from the first file of its group; it is attributed to the group of such a decision; one decision is accepted for each decided group; and the tallies are their sums |
| `Tracker.AttributedWithin` | internal/sender/state.go:168-174 | when decisions stay within their groups, every needed file lies between the first file of its group and that of the next |
| `Tracker.RefusedExactly` | internal/sender/state.go:160-166 | a decision is E5001 exactly when it names no group and E5009 exactly when one for its group was accepted before |
| `Tracker.SharedTracker.ReqStarted` | internal/sender/state.go:186-192 | takes a slot |
| `Tracker.SharedTracker.ReqEnds` | internal/sender/state.go:194-240 | completion, failure and cancellation release the slot if it is held, tally files and bytes once, and re-evaluate |
| `Tracker.ResolvedExactly` | internal/sender/state.go:194-240 | in every run a file is resolved, failed or completed exactly when the released serve calls say so, and the bytes are those of first completions |
| `Tracker.InflightCountsServes` | internal/sender/state.go:186-240 | with distinct request ids, in-flight is the number of serve calls in progress less those a cancel released: equal exactly when there is none |
| `Tracker.CancelReleasesEarly` | internal/sender/state.go:221-240 | a run with one request being served and none in flight |
| `Tracker.SummaryIsTrue` | internal/sender/state.go:157-240 | in every run no file is counted as completed twice, completed and failed files are resolved, and the files attributed to groups are the needed ones |
| `Tracker.DoneWhenFinished` | internal/sender/state.go:136-154 | done is closed whenever every group is decided, nothing is in flight and every needed file is resolved |
| `Tracker.DoneOnlyWhenFinished` | internal/sender/state.go:136-154 | no step closes done while a group is undecided, a request is in flight or a needed file unresolved |
| `Tracker.DoneIsFinal` | internal/sender/state.go:136-179 | once done is closed, for the rest of the run it stays closed, every group stays decided and the needed set is frozen and resolved |
| `Tracker.NoDecisionAccepted` | internal/sender/state.go:157-166 | when every group is decided any further decision is an error |
| `Credit.CreditGate.Acquire` | internal/sender/state.go:63-81 | over any wake-ups, a unit is taken exactly when what there was and what arrived leaves one, at the first wake-up that does, and what is left is all but that unit; it returns without one only when cancelled |
| `Credit.CreditConserved` | internal/sender/manifest.go:47-54 | available credit, manifests anywhere between publication and credit, and credits in transit add up to the grant in every run; undecided manifests never exceed it |
| `Credit.NoGrantNoManifest` | internal/receiver/run.go:530-530 | a credit setting that is a multiple of 65536 grants nothing, and no run publishes or decides a group |
| `Credit.ExchangeTerminates` | internal/sender/manifest.go:33-56 | every run of the exchange has at most eight steps for each group, and three |
| `Credit.ReaderNeverBlocks` | internal/receiver/run.go:571-608 | the control reader never finds its manifest channel full, and finds it closed before a manifest exactly when it has read the announced count, which is the group count modulo 2^32: never, with fewer groups |
| `Credit.CountWrapsRound` | internal/sender/manifest.go:35-41 | with 2^32 groups the channel is closed before the first manifest |
| `Credit.DecidedExactlyOnce` | internal/receiver/decide.go:316-356 | no group is decided twice; with at most 2^32 groups no decision reaches the sender twice or out of range, and with fewer, when the pool is done, every group was decided and credited exactly once |
| `Plan.OrderOfInputIrrelevant` | internal/plan/plan.go:117-214 | for distinct paths any permutation of the input gives the same entries, keys, ids, groups, digest and totals, and the same exclusions up to order |
| `PlanContents.InPlanIff` | internal/plan/plan.go:137-185 | an input entry is in the plan exactly when it is not beneath a pruned directory, no system rule matches it unless system files are kept, and the filters admit it |
| `PlanContents.PlanHolds` | internal/plan/plan.go:137-185 | the plan holds exactly those entries, as often as the input does, and its exclusions are exactly the refused entries not beneath a pruned directory, in input order, with the system rule or else the filter rule and the prune flag that follows |
| `PlanContents.PlanInOrder` | internal/plan/plan.go:187-206 | entries come in the order of their keys, ties broken by path; a key is the normal form of a valid path; and a key stands for the first entry that has it |
| `PlanContents.PlanPacksBest` | internal/plan/plan.go:223-285 | in terms of the entries: groups hold at most 1024 entries, the target in bytes of regular files and the manifest budget exactly when no sum overflows, and then no such partition has fewer |
| `PlanContents.TotalsAreOfFiles` | internal/plan/plan.go:206-210 | the totals count the regular files of the plan and their bytes |
| `PlanDigest.SameInputIff` | internal/plan/plan.go:343-375 | under the same options two plans have the same bytes hashed exactly when their entries agree, in order, in key, kind, size and modification time |
| `Plan.SamePlanIff` | internal/plan/plan.go:158-185 | for distinct paths and valid filters, two orders of the same entries give one plan if and only if the entries recorded as excluded come in the same order |
| `Plan.ExclusionsFollowTheInput` | internal/plan/plan.go:158-185 | an input whose plan changes when two excluded entries are swapped |
| `Plan.PrunedSubtreeIrrelevant` | internal/plan/plan.go:158-185 | adding or removing anything beneath a present pruned directory changes nothing in the plan |
| `Order.AnySortAgrees` | internal/plan/plan.go:190-195 | on distinct paths every comparison sort, stable or not, gives the same order |
| `Order.LessTrichotomy` | internal/plan/plan.go:190-195 | bytes compare as a strict total order |
| `Order.LessIff` | internal/plan/plan.go:190-195 | one key comes before another exactly when it is a proper prefix of it or has the smaller byte at the first difference |
| `PlanBuild.IsUnderPruned` | internal/plan/plan.go:327-339 | true exactly when some proper ancestor of the path is pruned |
| `PlanBuild.ClassifyAll` | internal/plan/plan.go:134-156 | pass 1 yields every entry's own verdict and exactly the pruned directories; what the verdict is, PlanContents.PlanHolds says |
| `PlanBuild.ApplyAll` | internal/plan/plan.go:158-185 | pass 2 keeps, records or silently drops each entry as the plan's definition says |
| `PlanBuild.Tally` | internal/plan/plan.go:197-210 | first id of each key, and the totals in 64 bits |
| `PlanBuild.DigestOf` | internal/plan/plan.go:343-375 | the digest is SHA-256 of the preamble, the signature and the entries in order |
| `PlanBuild.BuildPlan` | internal/plan/plan.go:117-214 | the loops compute the plan the theorems are about |
| `Grouping.GreedyIsOptimal` | internal/plan/plan.go:252-285 | groups partition the ids into non-empty contiguous ranges; they respect the three caps exactly when no byte sum at a boundary overflows, and then no partition obeying the caps has fewer groups |
| `Grouping.CapsHoldIff` | internal/plan/plan.go:270-283 | from any start, the code's grouping obeys the caps iff no boundary sum overflows, and then equals exact greedy grouping |
| `Grouping.GreedyStaysAhead` | internal/plan/plan.go:262-285 | exact greedy grouping never needs more groups than a partition that starts no further on |
| `Grouping.OverflowJoinsTwoHugeFiles` | internal/plan/plan.go:276-282 | the input on which the byte cap is not respected |
| `Grouping.SmallFilesNeverOverflow` | internal/plan/plan.go:276-282 | no overflow when files and target stay below 2^62 |
| `Grouping.ComputeGroupStarts` | internal/plan/plan.go:262-285 | the loop with its wrapping accumulator computes the grouping |
| `Grouping.GroupId` | internal/plan/plan.go:424-428 | the unique group whose range holds the id, or the number of groups |
| `ManifestBudget.EncodedSize` | internal/wire/wire.go:86-100 | an entry's encoding is exactly ManifestEntrySize of its real lengths |
| `ManifestBudget.EstimateCovers` | internal/plan/plan.go:230-250 | the planner's estimate is never below the real size |
| `ManifestBudget.EveryGroupFits` | internal/plan/plan.go:223-285 | every group, with any digests of at most 64 bytes, encodes to a GROUP_MANIFEST frame whose padded length the control-channel writer accepts |
| `ManifestBudget.GroupReadBackIffShort` | internal/wire/frame.go:319-348 | a published group is read back exactly when every path and link target in it is at most 4096 bytes |
| `Codec.Reader.Need` | internal/wire/codec.go:47-56 | fails exactly when the error is latched or the buffer is short |
| `Codec.Reader.Uint` | internal/wire/codec.go:58-92 | a big-endian integer, or zero and a latched error; the cursor stays inside the buffer |
| `Codec.Reader.Int64` | internal/wire/codec.go:94-94 | a two's complement integer |
| `Codec.Reader.Raw` | internal/wire/codec.go:133-148 | exactly n bytes within the bound, or nothing and a latched error |
| `Codec.Reader.LengthPrefixed` | internal/wire/codec.go:98-130 | a length and that many bytes, within the bound |
| `Wire.ErrorRead` | internal/wire/frame.go:289-297 | an ERROR message either ends after its fixed fields, and then its detail is empty, or carries the encoding of its detail there |
| `Codec.Writer.LengthPrefixed` | internal/wire/codec.go:18-27 | appends the length and the bytes |
| `Fields.AllBack` | internal/wire/codec.go:35-155 | reading a table of fields where it was written gives the values back, whatever follows |
| `Bytes.MostSignificantFirst` | internal/wire/codec.go:11-15 | integers are written most significant byte first |
| `Fields.PutAllRead` | internal/wire/codec.go:35-155 | writing what was read without failing gives the bytes it was read from |
| `Fields.ReadAll` | internal/wire/codec.go:35-155 | reading field after field with the latched reader is the definition |
| `Rows.ListBack` | internal/wire/frame.go:192-231 | a counted list of rows within the bound is read back |
| `Rows.ReadList` | internal/wire/frame.go:196-205 | the list loop, with its count check and early stop |
| `Wire.RoundTrip` | internal/wire/wire.go:115-143 | Unmarshal(Marshal(m)) is m exactly for the messages within the declared bounds and the frame ceiling |
| `Wire.UnmarshalBounded` | internal/wire/frame.go:149-317 | whatever decodes is within every declared bound, of the type the frame named |
| `Wire.DecodedIsEncoded` | internal/wire/frame.go:149-348 | a body that decodes begins with the encoding of its message, or is an ERROR without its detail |
| `Wire.TrailingBytesIgnored` | internal/wire/frame.go:149-317 | bytes after a body change nothing |
| `Wire.ErrorWithoutDetail` | internal/wire/frame.go:289-297 | an ERROR body that ends before its detail decodes with an empty one |
| `Wire.EntryRoundTrip` | internal/wire/frame.go:120-136 | a manifest entry whose optional fields are set only when announced survives its row |
| `Wire.EncodeBody` | internal/wire/frame.go:7-118 | the writer calls produce the body |
| `Wire.DecodeBody` | internal/wire/frame.go:149-317 | the reader calls compute the decoding, unknown types and malformed bodies included |
| `Wire.MarshalFrame` | internal/wire/wire.go:115-126 | header and body |
| `Wire.UnmarshalFrame` | internal/wire/wire.go:128-143 | length checks, then the body |
| `Padding.UnpadInvertsPad` | internal/crypto/record/record.go:242-267 | unpad accepts exactly the images of pad (section 6.3 of RFC 5652) and inverts it |
| `Padding.Pkcs7Pad` | internal/crypto/record/record.go:242-250 | the padding loop |
| `Padding.Pkcs7Unpad` | internal/crypto/record/record.go:252-267 | the unpadding checks |
| `Record.OneBack` | internal/crypto/record/record.go:174-240 | a whole record is read back exactly when its number is the expected one, and is E4004 otherwise |
| `Record.GotIff` | internal/crypto/record/record.go:174-240 | whatever the input, a frame is yielded exactly when it begins with a record of this version and channel, of an acceptable length, whose tag is that of its header, IV and ciphertext, with the expected number, and the frame is what it decrypts to |
| `Record.FaultIff` | internal/crypto/record/record.go:174-240 | what each of the six error codes says of the input |
| `Record.AlteredIsRefused` | internal/crypto/record/record.go:207-216 | a written record whose number, IV or ciphertext was altered is E4003, unless the altered text has the same tag |
| `RecordStream.YieldsOnlyGenuine` | internal/crypto/record/record.go:174-240 | on any input, the frames of a stream come from authentic records with consecutive numbers, and end of file from an authentic CLOSE behind them |
| `RecordStream.WholeStream` | internal/crypto/record/record.go:105-240 | a reader given the whole stream yields exactly the frames, then end of file |
| `RecordStream.CutStream` | internal/crypto/record/record.go:174-205 | for every strictly shorter prefix it yields exactly the frames wholly present, then E4005 |
| `RecordStream.PickedStream` | internal/crypto/record/record.go:218-239 | for any sequence of whole records, repeated, dropped or reordered, it yields a prefix of the frames, and end of file only after all of them |
| `RecordChannel.Writer.WriteRecord` | internal/crypto/record/record.go:105-152 | appends one record or gives the exact code: closed, out of sequence numbers, too long, no random bytes (E4007), or a socket that took only part of it (E3003) |
| `RecordChannel.Writer.WriteFrame` | internal/crypto/record/record.go:92-98 | adds exactly its frame to what was written, or refuses with the exact code, the empty frame included |
| `RecordChannel.Writer.Close` | internal/crypto/record/record.go:101-103 | writes CLOSE once |
| `RecordChannel.Reader.ReadFrame` | internal/crypto/record/record.go:174-240 | one frame, and then only from an authentic record with the expected number, end of file for good, or the first failing check's code; a socket that breaks is E3003 where one that ends is E4005 |
| `RecordChannel.ReadBack` | internal/crypto/record/record.go:90-240 | reading all that a closed writer wrote gives its frames and end of file |
| `Radix.PackBack` | internal/paircode/paircode.go:43-47 | unpacking undoes packing, for hex, base32 and base64 (section 6 of RFC 4648) |
| `PairCode.ParseBack` | internal/paircode/paircode.go:145-208 | a payload's bytes parse to it, or to E2004 without a usable endpoint |
| `PairCode.ParseRead` | internal/paircode/paircode.go:145-208 | bytes that parse are the bytes of what they parse to |
| `PairCode.ParseIff` | internal/paircode/paircode.go:145-208 | bytes parse to a payload exactly when they are its bytes and it has a usable endpoint; E2002 is any other version, E2004 a payload without a usable endpoint |
| `PairText.DecodeEncode` | internal/paircode/paircode.go:69-208 | decoding an encoded payload gives it back, for every payload with at least one endpoint, up to what a code can carry |
| `PairText.EncodeDecode` | internal/paircode/paircode.go:120-208 | a code that decodes is, cleaned and grouped, the code of its payload |
| `PairText.SamePayloadSameText` | internal/paircode/paircode.go:210-232 | two codes carry one payload exactly when they clean to one text |
| `PairText.WrittenAlike` | internal/paircode/paircode.go:210-232 | two texts clean to one exactly when, separators aside, they agree symbol by symbol up to case and the aliases O, I and L, and then they decode alike |
| `PairText.CleanGroup` | internal/paircode/paircode.go:105-115 | cleaning undoes grouping |
| `PairText.GroupText` | internal/paircode/paircode.go:105-115 | the grouping loop |
| `PairText.CleanText` | internal/paircode/paircode.go:212-232 | the cleaning loop |
| `PairText.AlphabetIndex` | internal/paircode/paircode.go:234-241 | the position in the alphabet, or -1 |
| `PairText.EncodeCode` | internal/paircode/paircode.go:69-103 | the code as built step by step |
| `PairText.DecodeCode` | internal/paircode/paircode.go:120-143 | the checks in order, up to the payload |
| `PairText.ParsePayload` | internal/paircode/paircode.go:145-208 | version, header, endpoints, secret, checksum and usability, in order |
| `FieldText.UintBack` | internal/fsx/journal.go:203-207 | a number's text parses to it |
| `FieldText.CutUintDiffers` | internal/fsx/journal.go:203-206 | a number's text cut short parses to another number or to none |
| `FieldText.Base64Back` | internal/fsx/journal.go:175-175 | base64 text decodes to its bytes |
| `Journal.LineBack` | internal/fsx/journal.go:171-215 | a record's line decodes to it |
| `Journal.TornLine` | internal/fsx/journal.go:197-215 | a record's line cut anywhere decodes to nothing, whatever the checksum function |
| `Journal.DecodedIsChecked` | internal/fsx/journal.go:197-215 | a line that decodes has five fields, and its checksum is that of the first four |
| `JournalLog.CutLog` | internal/fsx/journal.go:180-215 | a log cut at any byte parses to exactly the map of the records whose text is wholly present |
| `JournalLog.LastRecordCounts` | internal/fsx/journal.go:180-195 | the map of a log holds the last record of every file in it |
| `JournalResume.ResumeAfterCut` | internal/fsx/journal.go:103-195 | for every log, every cut and all that is appended to it: all of it is read back when nothing was torn; otherwise the torn line and everything appended are lost, or, on a checksum collision inside the first field, the misread record is given |
| `JournalResume.DecodeMerged` | internal/fsx/journal.go:197-215 | a torn line and the line appended to it decode together to nothing, but for that collision |
| `JournalResume.AppendAfterMissingNewline` | internal/fsx/journal.go:103-122 | a log that lost only its last newline yields its record, and loses it once anything is appended |
| `JournalResume.AppendAfterFirstField` | internal/fsx/journal.go:103-122 | a log torn behind the first field loses what is appended, whatever the checksum |
| `JournalLog.ParseCompleteLog` | internal/fsx/journal.go:182-195 | the loop over lines |
| `DigestCache.KeyBack` | internal/digest/cache.go:198-220 | decoding an encoded key gives it back |
| `DigestCache.KeyOfBytes` | internal/digest/cache.go:198-220 | any 57 bytes are the encoding of the key they decode to |
| `DigestCache.TakenIff` | internal/digest/cache.go:114-137 | an entry is loaded exactly from the record of that entry, its checksum included |
| `DigestCache.CutFile` | internal/digest/cache.go:102-137 | a cache file cut at any byte loads exactly the entries wholly present, and is unusable when cut inside its magic line |
| `DigestCache.LoadCache` | internal/digest/cache.go:102-137 | the load loop |
| `DigestCache.LoadAfterAppend` | internal/digest/cache.go:102-186 | entries appended to any file are all loaded when it has no torn tail, and none is when it has one whose checksum does not collide |
| `DigestCache.AppendAfterLostByte` | internal/digest/cache.go:102-186 | behind a record that lost its last byte an appended entry is lost, unless it begins with that byte |
| `DigestCache.Cache.constructor` | internal/digest/cache.go:76-98 | opens on whatever bytes there are, keeps what loads, and writes on unless the magic line is unknown or the file cannot be opened |
| `DigestCache.Cache.Get` | internal/digest/cache.go:148-159 | what opening loaded for the key, or else the first digest worth keeping that was put for it |
| `DigestCache.Cache.PutDigest` | internal/digest/cache.go:163-186 | records a digest once, ignores empty, overlong and known ones, and stops writing after a short write; while writing, the file is what opening found and what was kept since |
| `DigestCache.Cache.Reload` | internal/digest/cache.go:102-186 | loading the file again gives what memory holds when it had no torn tail on opening; with one and no collision it gives what opening found, which is memory only if nothing was appended |

## Left out

- Handshake, key schedule, X25519, and the internals of AES, HMAC, SHA-256 and the CRCs.
- Dry runs: they park secondaries and enqueue nothing, so the accounting claims do not apply.
- The file system itself (destination, walk, stat keys, part-file I/O): outcomes are parameters or choices between steps.
- Clocks, keepalive, timeouts, drain watchdogs, backoff and dialing; the adaptive tuner appears only as a worker that may be cancelled and a channel that may appear.
- Runs end at the first fatal error: a cancelled pushGroup, a failed send or an exhausted disk that is fatal stops the run there. A fatal error in a cancelled fetch worker does not: its item is requeued, as in the source.
- The FilesSkipped counter of the receiver, which counts parked and linked entries together with skipped ones, and the share of FilesRejected that counts directories and symlinks: the model counts rejected regular files.
- Liveness of the sender's drain and the equality of the two completion digests: the sender is not told when the receiver gives up a retryable file.
- Offsets and sizes on the receiving end of a data channel are not wrapped at 2^64: a file is shorter than 2^63 bytes.
- Channels that are lost for ever: each loss is an uncharged requeue, and the bounds on runs count those.
- Fields are split at ASCII white space only: an encoded journal line holds no other, but a damaged one might.
- Nil caches and the warnings a cache logs.
- Plan entries of negative size: the walker yields none.
- Frames: strings are bytes, not checked for UTF-8, as in the source.
- ValidatePath, collisions, the space guard, the fault catalogue, logging, configuration, the command line and the install script.
