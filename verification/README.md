# Verified models of bocchi_bot

Dafny models of the parts of the bot that hold state, order or arithmetic, with proofs about every run or
every input. Code that updates objects step by step is modelled by classes whose methods are proved against
functions on values; the properties of those functions, and of whole runs of them, are lemmas.

| file | what it models |
|---|---|
| `Lifespan.dfy`, `Renewals.dfy` | the deadline scheduler with lazy deletion and its watchdog, as steps between suspensions; deadlines told from the calls |
| `LowPriorityWriter.dfy`, `WriterHistory.dfy` | the bounded write-behind buffer: appends, batches, restoring, timeouts, backoff, cancellation |
| `SendQueue.dfy`, `SendOutcomes.dfy` | the send queue, its workers, starts and shutdowns that may overlap, the rate gate, and what callers get |
| `Common.dfy`, `Text.dfy` | shared definitions and string operations |
| `Gold.dfy`, `RandomSplit.dfy`, `RedBags.dfy`, `RedBagRuns.dfy`, `RedBagLives.dfy`, `RedBagOpening.dfy` | gold sums, the random split, red bags and festivals over several groups, the life of one bag, overlapping openings of it |
| `Wallet.dfy`, `WalletBook.dfy` | wallets and reservations under interleaving; the ledger told from the requests |
| `Bank.dfy`, `BankTerms.dfy` | deposits, withdrawals, interest settlement, and their terms |
| `Markers.dfy`, `BotConsole.dfy`, `StoredNames.dfy`, `GroupConsole.dfy`, `GroupCache.dfy`, `GroupMerge.dfy` | module names in marker strings, the two consoles, the sets the cache reads from them, merging duplicate group records |
| `RateLimiter.dfy` | the sliding-window limiter over call histories |
| `EnvLines.dfy`, `EnvMerge.dfy`, `EnvText.dfy`, `EnvReread.dfy` | blocks of an environment file, the merge, its text, and reading it again |
| `Prefilter.dfy`, `Choices.dfy`, `Activation.dfy` | the three-valued rule prefilter, the choice whether to run a matcher, and selection under lane budgets |
| `RouteIndex.dfy` | the command index by first character |

A name is clean when it has neither `<` nor a comma, and readable when it has no `<` and does
not begin or end with a comma; only readable names survive being stored. It is plain when it is not empty, has no
`<`, and neither white space nor a comma at either end.

Some properties the code is meant to have hold only under a condition. In those cases one lemma shows an input
outside it and another says exactly when the property holds: stored or requested names that are not clean
(`Markers`, `BotConsole`, `StoredNames`, `GroupConsole`), a registration while the watchdog is being cancelled
(`Lifespan`), a start while a shutdown waits for its workers (`SendQueue`), adding a negative amount (`Wallet`),
overlapping openings of a bag (`RedBagOpening`), an environment file without a final line feed (`EnvText`,
`EnvReread`), empty patterns (`Prefilter`).

## Model

| member | source | states |
|---|---|---|
| `Lifespan.LiveResourcesStayScheduled` | bocchi/utils/lifespan.py:95-158 | In every reachable interleaving each live resource has a heap entry with exactly its current deadline; when the watchdog is about to reclaim, the heap head is that resource's own entry, and the unconditional pop removes just it. |
| `Lifespan.WatchdogSettles` | bocchi/utils/lifespan.py:87-174 | No lost wake-up and no endless popping: at any instant a running watchdog can take only so many steps of its own, in whatever run and whatever the probes answer, and when none is left no live resource is overdue. |
| `Lifespan.WatchdogCatchesUp` | bocchi/utils/lifespan.py:87-174 | From any reachable state with a running watchdog such a run exists: its own steps lead to a state without an overdue live resource. |
| `Lifespan.CatchesUpIffRunning` | bocchi/utils/lifespan.py:32-35 | The watchdog's steps can leave nothing overdue if and only if nothing is overdue already or a watchdog runs that is not being cancelled. |
| `Lifespan.RegisterRunsIffNotCancelling` | bocchi/utils/lifespan.py:27-35 | A registration with a positive ttl is followed by a running watchdog if and only if none was being cancelled. |
| `Lifespan.OwnStepMakesProgress` | bocchi/utils/lifespan.py:94-158 | Every own step of the watchdog, whatever a probe answers, passes an entry that is due, consumes the wake-up flag, or leaves a parked state. |
| `Lifespan.AnswerUsesEntry` | bocchi/utils/lifespan.py:128-158 | A busy answer puts the resource behind the present instant, an idle one reclaims it: in both cases an entry that was due is gone. |
| `Lifespan.OneCleanupPerRegistrationOverRuns` | bocchi/utils/lifespan.py:53-67 | In any run, between two cleanups of one resource it was registered again; no cleanup comes before its deadline. |
| `Lifespan.CleanupOnlyAfterDeadline` | bocchi/utils/lifespan.py:120-173 | A step cleans up at most one resource, which was live with its current deadline passed; it is forgotten and no other resource changes. |
| `Lifespan.ReclaimKeepsInv` | bocchi/utils/lifespan.py:150-158 | The pop after a reclaim removes the head, which is the reclaimed resource's entry, and every other live resource keeps its own. |
| `Lifespan.OverdueNeverStuck` | bocchi/utils/lifespan.py:90-118 | A parked watchdog with an overdue resource always has an enabled step: the flag is set, or it sleeps on the heap minimum. |
| `Lifespan.CancelledWatchdogForgets` | bocchi/utils/lifespan.py:32-35 | A registration between a cancellation and its delivery is left without a watchdog: a reachable state shows it. |
| `Lifespan.StepKeepsInv` | bocchi/utils/lifespan.py:53-173 | Every step of register, touch, unregister, watchdog and cancellation keeps the invariant (heap order, entries, parking, cleanup accounts). |
| `Lifespan.ScanKeepsInv` | bocchi/utils/lifespan.py:94-118 | Discarding stale heads terminates, keeps all resources and parks only on a current entry or an empty heap. |
| `Lifespan.HeapPushSorted` | bocchi/utils/lifespan.py:64-64 | Pushing keeps the heap ordered, and a strictly later entry does not displace the head. |
| `Lifespan.LifespanManager.RegisterResource` | bocchi/utils/lifespan.py:37-67 | Registers, pushes, wakes and starts the watchdog; a ttl that is not positive unregisters instead. |
| `Lifespan.LifespanManager.TouchResource` | bocchi/utils/lifespan.py:69-80 | Moves a live resource's deadline and pushes the new entry; an unknown resource is left alone. |
| `Lifespan.LifespanManager.ScanHeap` | bocchi/utils/lifespan.py:94-118 | The inner loop reaches exactly the state of the recursive scan and restores the full invariant. |
| `Lifespan.LifespanManager.ProbeReturned` | bocchi/utils/lifespan.py:128-158 | A busy resource is renewed with its own ttl, a resource changed meanwhile is left, otherwise it is reclaimed and the heap popped. |
| `Renewals.DeadlinesAreAsAsked` | bocchi/utils/lifespan.py:37-85 | Over every run, told from the events: exactly the resources whose life goes on are stored, each with the time of its latest renewal (registration, touch or busy answer) plus the ttl of that renewal as its deadline, and the ttl and probe of its registration. |
| `Renewals.NoEarlyCleanup` | bocchi/utils/lifespan.py:120-158 | Over every run no cleanup comes before the ttl of the latest renewal has passed since that renewal. |
| `Renewals.SettledServesRenewals` | bocchi/utils/lifespan.py:87-174 | A running watchdog that has no step left at some time has left no resource whose latest renewal plus ttl is at or before that time. |
| `Renewals.RegisteredFor` | bocchi/utils/lifespan.py:52-64 | A registration for a positive ttl stores its own time plus that ttl, and this stays as long as nothing concerns the resource. |
| `Renewals.ClockFollows` | bocchi/utils/lifespan.py:56-126 | No step reads another time than that of its event. |
| `Renewals.FirstRegistrationStarts` | bocchi/utils/lifespan.py:32-35 | The very first registration starts the watchdog. |
| `Renewals.RestartsAfterCancellation` | bocchi/utils/lifespan.py:174-181 | Once a cancellation is delivered the next registration starts the watchdog again. |
| `Renewals.OnlyProbesFindBusy` | bocchi/utils/lifespan.py:128-138 | Only a resource that was registered with a probe can be found busy. |
| `LowPriorityWriter.RecordsAccountedFor` | bocchi/services/low_priority_writer.py:99-105 | Over any run appended = written + dropped + lost in cancelled writes + in flight + buffered; a cancelled write loses at most one batch; the buffer stays within max_retain. |
| `LowPriorityWriter.NoRecordVanishes` | bocchi/services/low_priority_writer.py:193-215 | The same account record by record, as multisets. |
| `LowPriorityWriter.WritesKeepAppendOrder` | bocchi/services/low_priority_writer.py:194-244 | Over any run the written batches, then the batch in flight, then the buffer are a duplicate-free subsequence of the append order. |
| `LowPriorityWriter.FailedFlushIsInvisible` | bocchi/services/low_priority_writer.py:225-244 | Take a batch, append anything, let the write fail: buffer and drop counter equal those of a run that never took the batch. |
| `LowPriorityWriter.AppendAllKeepsNewest` | bocchi/services/low_priority_writer.py:99-105 | Appending with drop-oldest keeps exactly the newest max_retain records and counts the others. |
| `LowPriorityWriter.BeginWritesIff` | bocchi/services/low_priority_writer.py:182-198 | The writer begins to write if and only if something is buffered and the flush is forced, or neither is the database paused nor the writer backing off and a cycle may write at all; it takes the oldest records, as many as fit in a batch. |
| `LowPriorityWriter.CycleWritesBounded` | bocchi/services/low_priority_writer.py:193-215 | Whatever happens during it, an unforced cycle writes fewer than max_items_per_cycle + batch_size records. |
| `LowPriorityWriter.ForcedCycleAccounts` | bocchi/services/low_priority_writer.py:123-146 | From the beginning of the forced flush, paused or backing off as the writer may be, through every run of its cycle in which writes succeed, whatever is appended meanwhile: the records that waited or came are stored in order, counted as dropped, or waiting, each just once; when the cycle ends none waits. |
| `LowPriorityWriter.ForcedCycleDrains` | bocchi/services/low_priority_writer.py:182-215 | A forced flush, paused or backing off as the writer may be, and without appends: it ends and has stored the whole buffer in order. |
| `LowPriorityWriter.BackoffGrowsToMaximum` | bocchi/services/low_priority_writer.py:260-266 | Each further failure waits at least as long as the one before, never beyond the maximum. |
| `LowPriorityWriter.StepKeepsInv` | bocchi/services/low_priority_writer.py:99-256 | Every append, begin, success, failure, timeout and cancellation keeps bounds, counts, loss and order. |
| `LowPriorityWriter.StepKeepsRecords` | bocchi/services/low_priority_writer.py:99-256 | Every step keeps each appended record in exactly one place. |
| `LowPriorityWriter.Writer.AppendRecord` | bocchi/services/low_priority_writer.py:92-108 | Drops the oldest record when full, then appends. |
| `LowPriorityWriter.Writer.TakeBatch` | bocchi/services/low_priority_writer.py:225-230 | Takes the oldest batch_size records in order and leaves the rest. |
| `LowPriorityWriter.Writer.RestoreBatch` | bocchi/services/low_priority_writer.py:233-244 | Puts back the newest records of the batch that fit, in front and in order, and counts the others as dropped. |
| `LowPriorityWriter.Writer.ContinueFlush` | bocchi/services/low_priority_writer.py:194-198 | The head of the loop takes the next batch unless the cycle has written its maximum. |
| `LowPriorityWriter.Writer.PrependAll` | bocchi/services/low_priority_writer.py:239-240 | The reversed loop puts the records in front in their order. |
| `LowPriorityWriter.ForcedRun` | bocchi/services/low_priority_writer.py:194-215 | From any point of a forced cycle a run of successful writes brings everything in flight or buffered to the table in order. |
| `WriterHistory.CycleGoesOnIff` | bocchi/services/low_priority_writer.py:194-198 | After a successful write the cycle goes on with the next oldest batch if and only if records are left and it may write more. |
| `WriterHistory.StoredAreSuccessfulWrites` | bocchi/services/low_priority_writer.py:199-213 | Over every run, stored are exactly the batches whose write succeeded, in order, and lost those whose write was cancelled. |
| `WriterHistory.StepFates` | bocchi/services/low_priority_writer.py:201-211 | A write that times out gives its batch up and counts it, a cancelled one loses it; neither changes the buffer. |
| `WriterHistory.BacksOffForItsFailures` | bocchi/services/low_priority_writer.py:212-215 | Over every run, told from the events: the writer backs off until its latest failure plus the base doubled for each earlier failure in a row, up to the maximum, and not at all after a success; the time of the last flush is that of the latest success. |
| `SendQueue.ShutdownLeavesNothingPending` | bocchi/services/send_queue.py:313-332 | When the only shutdown returns, joined or timed out, and no start has let calls in meanwhile, every future ever enqueued is settled, the queue and the unfinished count are empty and no worker is left. |
| `SendQueue.StopSettlesEarlier` | bocchi/services/send_queue.py:313-332 | Whatever is started or stopped meanwhile: when a shutdown returns, a future enqueued before its count reached zero or its time ran out is settled, unless a worker that another shutdown has cancelled still holds it. |
| `SendQueue.LateCallSettledIff` | bocchi/services/send_queue.py:214-236 | When the only shutdown is about to return and the queue has room, one more call is settled with all the others if and only if no start has let calls in; otherwise the shutdown returns and leaves it waiting. |
| `SendQueue.StartDuringStopLeavesPending` | bocchi/services/send_queue.py:278-286 | A start during a shutdown is possible as far as these functions go: the shutdown then returns with a call still queued. The bot itself starts the queue only at startup and stops it only at shutdown (bocchi/services/runtime_bootstrap.py:135, 142). |
| `SendQueue.UnfinishedCountsHeldFutures` | bocchi/services/send_queue.py:175-259 | Over any run the unfinished count is the queue length plus the items held by workers; an unsettled future is waiting or held; every future was settled before its task_done. |
| `SendQueue.OutcomesAreFinal` | bocchi/services/send_queue.py:186-194 | Over any run a settled future keeps its outcome: each is resolved at most once. |
| `SendQueue.ShutdownSettles` | bocchi/services/send_queue.py:313-332 | In every run of steps that take a shutdown forward there are at most three more than there are workers, and when none is left the shutdown has returned, whatever else is under way. |
| `SendQueue.ShutdownCompletes` | bocchi/services/send_queue.py:313-332 | Such a run exists, of at most two steps more than there are workers. |
| `SendQueue.StepKeepsInv` | bocchi/services/send_queue.py:175-332 | Calls, callers giving up, workers, cancellation, starts, drains and any number of shutdowns at once keep order, task accounts and crew. |
| `SendQueue.SendsAreSpaced` | bocchi/services/send_queue.py:124-131 | Sends that pass the gate one after another lie at least k intervals apart, k being their distance, however long the sleeps overshoot. |
| `SendQueue.Queue.CallApi` | bocchi/services/send_queue.py:215-245 | Queues exactly when not stopping and not full, with a fresh future at the end of the queue. |
| `SendQueue.Queue.WorkerEnds` | bocchi/services/send_queue.py:188-202 | A cancelled worker settles the future it holds and calls task_done before it goes. |
| `SendQueue.Queue.DrainPending` | bocchi/services/send_queue.py:248-259 | Settles and counts every waiting future. |
| `SendQueue.Queue.StartQueue` | bocchi/services/send_queue.py:278-286 | At any time: lets calls in, and spawns the workers unless one is listed. |
| `SendQueue.Queue.JoinTimedOut` | bocchi/services/send_queue.py:316-328 | Drains, then asks every worker to cancel. |
| `SendQueue.RateGate.Pass` | bocchi/services/send_queue.py:124-131 | Is left not before it was entered and at least the interval after the last send. |
| `SendOutcomes.OutcomesAreAsTold` | bocchi/services/send_queue.py:178-202 | Over every run, told from the events: a future is sent if and only if, while it was pending, a worker that held it finished it as sent; given up if and only if its caller gave up; failed if and only if it was finished as not sent, its worker was cancelled, or it was drained. |
| `SendOutcomes.OldestIsSentFirst` | bocchi/services/send_queue.py:175-177 | A worker gets the oldest waiting future. |
| `SendOutcomes.FreeWorkerGetsIff` | bocchi/services/send_queue.py:175-177 | A free worker gets a future if and only if one waits and no shutdown has cancelled the worker. |
| `SendOutcomes.CallQueuedIff` | bocchi/services/send_queue.py:214-236 | A call is queued if and only if no shutdown has closed the queue and fewer than 2000 wait. |
| `SendOutcomes.QueueIsBounded` | bocchi/services/send_queue.py:25-27 | Over every run at most 2000 futures wait. |
| `SendOutcomes.StartSpawns` | bocchi/services/send_queue.py:278-286 | A start brings three new workers that take calls when none does. |
| `SendOutcomes.StartKeepsWorkers` | bocchi/services/send_queue.py:281-283 | And none when some worker takes calls. |
| `SendOutcomes.WorkersChangeOnly` | bocchi/services/send_queue.py:175-202 | A worker goes only when it is cancelled, and only a start brings new ones. |
| `SendOutcomes.StopCancelsServing` | bocchi/services/send_queue.py:325-328 | A shutdown cancels just the workers that no other one has cancelled. |
| `SendOutcomes.GateWaitsNoLonger` | bocchi/services/send_queue.py:124-131 | The rate gate lets a send pass at once, or as soon as 0.05 seconds have passed since the last one. |
| `RandomSplit.SplitIsFair` | bocchi/builtin_plugins/gold_redbag/config.py:348-371 | For all weights that do not sum to zero the split has exactly num shares (one for none), they add up to the amount, none is negative unless the amount is, and shuffling permutes them. |
| `RandomSplit.RandomRedBag` | bocchi/builtin_plugins/gold_redbag/config.py:348-371 | The loops compute a permutation of that split. |
| `RandomSplit.SharesNonNegative` | bocchi/builtin_plugins/gold_redbag/config.py:362-369 | Truncated shares before the last never exceed the total, so the last one is not negative. |
| `RandomSplit.SharesArePortions` | bocchi/builtin_plugins/gold_redbag/config.py:362-369 | Every share before the last is the whole part of the amount times its weight's part of all weights; nothing of an amount that is not positive. |
| `RandomSplit.SplittableIff` | bocchi/builtin_plugins/gold_redbag/config.py:358-366 | Only several shares of a positive amount whose random weights are all zero cannot be split (the code divides by zero there). |
| `RandomSplit.FillShares` | bocchi/builtin_plugins/gold_redbag/config.py:358-369 | The loop gives each share its truncated portion and the last one the rest. |
| `RandomSplit.FillFirst` | bocchi/builtin_plugins/gold_redbag/config.py:362-368 | The loop: every share before the last is the truncated portion, or nothing once the amount is given out. |
| `RandomSplit.ShuffleList` | bocchi/builtin_plugins/gold_redbag/config.py:370-370 | Swapping from the end down, each position with one not beyond it. |
| `RedBags.OpenKeeps` | bocchi/builtin_plugins/gold_redbag/config.py:220-263 | Opening moves gold from bags to the user and keeps every remaining bag fair; the bags deleted as finished hold nothing. |
| `RedBags.PoppedBalances` | bocchi/builtin_plugins/gold_redbag/config.py:246-258 | Taking a share keeps shares + openers = num and unopened + opened = amount; a bag runs out exactly when openers reach num. |
| `RedBags.GrantUsesClaim` | bocchi/builtin_plugins/gold_redbag/config.py:237-240 | A festive share uses up the user's one claim on that festival. |
| `RedBags.PutOk` | bocchi/builtin_plugins/gold_redbag/config.py:333-346 | Storing a bag under its promoter replaces just that promoter's bag and its unopened gold. |
| `RedBags.OpenPaysUser` | bocchi/builtin_plugins/gold_redbag/config.py:251-253 | Opening changes nobody else's wallet. |
| `RedBagRuns.RunConservesGold` | bocchi/builtin_plugins/gold_redbag/config.py:220-346 | Over any run over several groups, wallets plus unopened shares, beyond what accounts are opened with, change only by festive minting and by the unopened rest of overwritten, expired and removed bags; every bag stays fair. |
| `RedBagRuns.FestivalPaysOnce` | bocchi/builtin_plugins/gold_redbag/config.py:19-38 | Over any run and all groups together a user takes at most one share of a festival. |
| `RedBagRuns.SettleConserves` | bocchi/builtin_plugins/gold_redbag/config.py:277-298 | Settling gives back exactly the unopened gold and ends a festive bag's festival. |
| `RedBagRuns.AddAccounts` | bocchi/builtin_plugins/gold_redbag/config.py:325-346 | A new bag creates gold only when festive and loses only what an overwritten bag still held; a refusal changes nothing but opening the account. |
| `RedBagRuns.BagsAreFair` | bocchi/builtin_plugins/gold_redbag/config.py:41-71 | What the invariant says of a live bag: it has an unopened share, shares + openers = num, unopened + opened = amount. |
| `RedBagRuns.GroupRedBag.AddRedBag` | bocchi/builtin_plugins/gold_redbag/config.py:300-346 | Refuses or debits the promoter and stores a bag with a fair split; the whole new state. |
| `RedBagRuns.GroupRedBag.Open` | bocchi/builtin_plugins/gold_redbag/config.py:220-263 | Both loops together reach exactly the specified opening, wallets and festivals included, as one step. |
| `RedBagRuns.GroupRedBag.Settlement` | bocchi/builtin_plugins/gold_redbag/config.py:277-298 | Returns the unopened gold, deletes the bag and credits the promoter. |
| `RedBagRuns.GroupRedBag.RemoveFestiveRedBag` | bocchi/builtin_plugins/gold_redbag/config.py:160-165 | Deletes the first festive bag. |
| `RedBagRuns.GroupRedBag.Debit` | bocchi/builtin_plugins/gold_redbag/config.py:325-332 | Opens the promoter's account and debits it unless the bag is refused or festive. |
| `RedBagRuns.OthersKeepTheirGold` | bocchi/builtin_plugins/gold_redbag/config.py:220-346 | No operation changes the wallet of anyone but its user or promoter. |
| `RedBagRuns.OpenConserves` | bocchi/builtin_plugins/gold_redbag/config.py:220-263 | Opening keeps the gold of wallets and bags together. |
| `RedBagRuns.StepUsesAllowance` | bocchi/builtin_plugins/gold_redbag/config.py:237-240 | No step, in any group, lets a user take a festival's share without using up the allowance. |
| `RedBagRuns.GroupRedBag.TakeShare` | bocchi/builtin_plugins/gold_redbag/config.py:235-258 | One round of the loop: admission, festival mark, share, credit, opener, and whether the bag is finished. |
| `RedBagRuns.GroupRedBag.TakeShares` | bocchi/builtin_plugins/gold_redbag/config.py:235-258 | The loop over the bags. |
| `RedBagRuns.GroupRedBag.Delete` | bocchi/builtin_plugins/gold_redbag/config.py:259-262 | The loop that deletes the finished bags. |
| `RedBagLives.AssignedBagIsForOne` | bocchi/builtin_plugins/gold_redbag/config.py:220-346 | Over runs: an accepted bag for one person stays as it was asked for until it is overwritten, settled, expired, removed or opened by that person; an opening by anybody else pays nothing from it and leaves it, one by that person pays the whole amount unless its festival refuses. |
| `RedBagLives.AddedBagIsFestive` | bocchi/builtin_plugins/gold_redbag/config.py:333-346 | Over runs: a bag added with a festival's id is one of that festival's bags as long as it is there, so its shares are among those of which each user gets at most one. |
| `RedBagLives.AddStores` | bocchi/builtin_plugins/gold_redbag/config.py:325-346 | An accepted bag is stored with exactly the promoter, amount, number, festival, assigner and shares that were asked for, in place of an earlier one. |
| `RedBagLives.OpeningOf` | bocchi/builtin_plugins/gold_redbag/config.py:235-263 | What an opening does to each bag: it takes the last share if the festivals allow it when the bag is reached, and removes the bag with its last share. |
| `RedBagLives.WalletGetsGiven` | bocchi/builtin_plugins/gold_redbag/config.py:247-255 | The user gets just what the opening reports to have taken from the bags. |
| `RedBagLives.LetInIsMarked` | bocchi/builtin_plugins/gold_redbag/config.py:237-240 | Whoever is let in at a festive bag is marked in its festival, a share taken or not; nothing else changes in the festivals. |
| `RedBagLives.BagStaysTheSame` | bocchi/builtin_plugins/gold_redbag/config.py:220-346 | Through every run that does not end it a bag keeps all it was stored with but its shares and openers. |
| `RedBagLives.SettleEnds` | bocchi/builtin_plugins/gold_redbag/config.py:289-298 | Settling takes away just the promoter's bag and ends its festival. |
| `RedBagLives.RemoveFestiveEnds` | bocchi/builtin_plugins/gold_redbag/config.py:160-165 | Removing takes away just the first festive bag. |
| `RedBagLives.ExpireEnds` | bocchi/builtin_plugins/gold_redbag/config.py:265-275 | Expiring takes away just the bag under the festive key. |
| `RedBagLives.FestivalsStartAndEnd` | bocchi/builtin_plugins/gold_redbag/config.py:22-34 | A festival starts with nobody having taken part and is over for everybody; other festivals go on. |
| `RedBagOpening.OverlapsConserveGold` | bocchi/builtin_plugins/gold_redbag/config.py:235-258 | However openings of a bag overlap between taking a share, paying it out and recording the opener: no gold is lost or paid twice, and every share is in the bag, under way or recorded. |
| `RedBagOpening.OnceEachIff` | bocchi/builtin_plugins/gold_redbag/config.py:244-254 | Over any run of overlapping openings nobody takes two shares if and only if nobody opens the bag again while an opening of theirs is under way; the plugin's cooldown of five seconds per user (bocchi/builtin_plugins/gold_redbag/__init__.py:100) is what usually prevents that. |
| `RedBagOpening.FestiveOnceEach` | bocchi/builtin_plugins/gold_redbag/config.py:237-240 | From a festive bag nobody takes two shares, however openings overlap, as the claim is marked before the share is taken. |
| `RedBagOpening.RaisesIff` | bocchi/builtin_plugins/gold_redbag/config.py:236-247 | While nobody has two shares, an opening raises if and only if it is let in, all shares are taken, and one of those openings is still under way. |
| `RedBagOpening.LastShareRaises` | bocchi/builtin_plugins/gold_redbag/config.py:247-247 | Such a run exists: two people open the last share, and the second one's opening raises. |
| `RedBagOpening.FinishedIff` | bocchi/builtin_plugins/gold_redbag/config.py:255-257 | When all shares are recorded the bag is finished if and only if nobody took two; otherwise every opening that is let in raises. |
| `RedBagOpening.TwiceTakenStays` | bocchi/builtin_plugins/gold_redbag/config.py:236-257 | After somebody took two shares the bag is never finished, whatever follows. |
| `RedBagOpening.SamePersonTwice` | bocchi/builtin_plugins/gold_redbag/config.py:244-247 | Two overlapping openings of one person take two shares of any bag that is neither festive nor meant for one person and has two left. |
| `RedBagOpening.NewBagTwice` | bocchi/builtin_plugins/gold_redbag/config.py:244-247 | A new bag of two shares is such a bag. |
| `RedBagOpening.AloneIsOneStep` | bocchi/builtin_plugins/gold_redbag/config.py:235-258 | An opening that no other overlaps does exactly what the opening in one step does, and never raises. |
| `RedBagOpening.SharedBag.Begin` | bocchi/builtin_plugins/gold_redbag/config.py:236-247 | The stretch up to the first suspension: who gets a share, and when it raises. |
| `Wallet.LedgerIsExact` | bocchi/models/user_console.py:27-49 | After every run, whatever the amounts and however the coroutines interleave, gold plus open reservations is exactly what was got and not spent. |
| `Wallet.SettledOnce` | bocchi/models/user_console.py:27-49 | Over any run a reservation is never both spent and given back and never given back twice; no coroutine is left stuck. |
| `Wallet.SecondHasNoEffect` | bocchi/models/user_console.py:27-40 | After a commit or the start of a release, a further commit or release of that reservation changes nothing at all. |
| `Wallet.NoWalletGoesNegative` | bocchi/models/user_console.py:163-231 | However coroutines interleave between check, guarded update and log, no wallet is below zero, given that no negative amount is added or reserved (the code accepts both). |
| `Wallet.NonNegativeIff` | bocchi/models/user_console.py:142-231 | With any amounts: wallets stay at or above zero all through a run if and only if no step adds a negative amount that the wallet does not cover. |
| `Wallet.NegativeAddOverdraws` | bocchi/models/user_console.py:142-157 | Such a step exists: adding a negative amount takes a new wallet below zero. |
| `Wallet.StepOverdrawsIff` | bocchi/models/user_console.py:184-194 | The guard of the update keeps wallets from going negative even when the check before it is outdated; only an update that adds an uncovered negative amount does so. |
| `Wallet.StepKeepsGap` | bocchi/models/user_console.py:142-231 | No step changes the difference between wallet and log other than through a reservation. |
| `Wallet.UserConsole.ResumeReduce` | bocchi/models/user_console.py:189-199 | The guarded update takes the gold and goes on to the log, or takes nothing. |
| `Wallet.UserConsole.ReserveGold` | bocchi/models/user_console.py:199-222 | The check of a reservation; an account it would create is rolled back when the gold does not suffice. |
| `Wallet.UserConsole.Release` | bocchi/models/user_console.py:38-41 | Sets its flag before the refund, and does nothing on a settled reservation. |
| `Wallet.UserConsole.GuardedUpdate` | bocchi/models/user_console.py:189-194 | The conditional update takes the amount exactly when it is there. |
| `Wallet.UserConsole.Commit` | bocchi/models/user_console.py:27-36 | In one stretch, as appending to the log does not suspend: the entry is logged and the flag set, or nothing on a settled reservation. |
| `Wallet.UserConsole.ResumeReserve` | bocchi/models/user_console.py:223-237 | The guarded update takes the gold and makes the reservation, or does nothing. |
| `WalletBook.LedgerIsAsAsked` | bocchi/models/user_console.py:27-49 | After every run, told from the requests: gold and open reservations together are the starting gold and what was asked to be added, less what was asked to be taken where the wallet covered it and what was spent of reservations; the log has exactly the finished requests and the commits, in order. |
| `WalletBook.CoroutinesAreAsAsked` | bocchi/models/user_console.py:142-237 | Every coroutine and every reservation is that of a request that was let in, with its user and amount. |
| `WalletBook.DebitTakesIff` | bocchi/models/user_console.py:189-199 | A resumed debit takes exactly its amount and goes on to log it if and only if the wallet covers it; else it takes nothing. |
| `WalletBook.ReservationTakesIff` | bocchi/models/user_console.py:223-237 | A resumed reservation takes exactly its amount and is made if and only if the wallet covers it. |
| `WalletBook.RowsAreCreated` | bocchi/models/user_console.py:117-126 | Adding and reducing create the user's row, a refused reservation does not. |
| `Bank.BankBalances` | bocchi/builtin_plugins/bocchi_bank/data_source.py:302-336 | Over any run of checked deposits, checked withdrawals and settlements each balance covers the user's incomplete deposits, and wallet plus balance is the opening gold plus exactly the interest logged for that user. |
| `Bank.SettlementCompletesDeposits` | bocchi/builtin_plugins/bocchi_bank/data_source.py:411-430 | After a settlement no user with a wallet has an incomplete deposit. |
| `Bank.SettlementPaysDue` | bocchi/builtin_plugins/bocchi_bank/data_source.py:393-426 | Settlement pays each user exactly the interest on the free balance and on each incomplete deposit, and logs it. |
| `Bank.DepositsEarn` | bocchi/builtin_plugins/bocchi_bank/data_source.py:411-415 | Every incomplete deposit earns at least one gold when rates and hours are not negative. |
| `Bank.WithdrawKeepsUser` | bocchi/builtin_plugins/bocchi_bank/data_source.py:67-88 | A withdrawal that passes its check leaves the locked gold in the bank. |
| `Bank.DepositKeepsUser` | bocchi/models/bocchi_bank.py:33-56 | A deposit moves gold into the bank and locks just that much. |
| `Bank.CompletedLogs` | bocchi/builtin_plugins/bocchi_bank/data_source.py:411-417 | Completing touches only incomplete deposits of users being settled and no interest. |
| `Bank.BankManager.Deposit` | bocchi/builtin_plugins/bocchi_bank/data_source.py:32-65 | Check and deposit: the whole new state, and accepted if and only if all three limits allow it. |
| `Bank.BankManager.Withdraw` | bocchi/builtin_plugins/bocchi_bank/data_source.py:67-88 | Check and withdrawal: accepted exactly when the free balance covers a positive amount. |
| `Bank.BankManager.Settlement` | bocchi/builtin_plugins/bocchi_bank/data_source.py:375-431 | The grouping loop and both payment loops compute exactly the specified settlement. |
| `Bank.BankManager.GroupLogs` | bocchi/builtin_plugins/bocchi_bank/data_source.py:386-390 | The incomplete deposits by user, users in the order of their first. |
| `Bank.BankManager.PayFree` | bocchi/builtin_plugins/bocchi_bank/data_source.py:393-410 | The loop over the balances pays and logs the interest on what is free. |
| `Bank.BankManager.PayDeposits` | bocchi/builtin_plugins/bocchi_bank/data_source.py:411-426 | The loop over users pays and logs the interest on their deposits. |
| `Bank.BankManager.MarkCompleted` | bocchi/builtin_plugins/bocchi_bank/data_source.py:416-430 | Completes exactly the deposits paid. |
| `BankTerms.BalanceIsWhatWasMoved` | bocchi/builtin_plugins/bocchi_bank/data_source.py:302-336 | Over any run a balance is what accepted deposits brought less what accepted withdrawals took, and bears the default rate. |
| `BankTerms.DepositMovesIff` | bocchi/builtin_plugins/bocchi_bank/data_source.py:32-65 | A deposit moves its amount and is logged as pending if and only if it is positive, covered by the wallet, within the user's limit and below the number of deposits a day. |
| `BankTerms.WithdrawMovesIff` | bocchi/builtin_plugins/bocchi_bank/data_source.py:67-88 | A withdrawal moves its amount and is logged if and only if it is positive and not locked. |
| `BankTerms.ChecksOpenAccounts` | bocchi/builtin_plugins/bocchi_bank/data_source.py:44-60 | The checks of a positive amount create the account, and for a deposit the wallet, if there is none. |
| `BankTerms.NoWalletNoSettlement` | bocchi/builtin_plugins/bocchi_bank/data_source.py:383-400 | Who has no wallet, or nothing in the bank, is left alone by a settlement. |
| `BankTerms.FreeInterestIs` | bocchi/builtin_plugins/bocchi_bank/data_source.py:393-410 | The interest on free gold is amount times rate, cut toward zero. |
| `BankTerms.DepositInterestIs` | bocchi/builtin_plugins/bocchi_bank/data_source.py:411-415 | The interest on a deposit is amount times rate times hours, cut toward zero, but one gold for what would be nothing. |
| `BankTerms.RowIsLogged` | bocchi/builtin_plugins/bocchi_bank/data_source.py:393-410 | Every row with free gold of a user with a wallet gets an entry of that interest at the row's rate. |
| `BankTerms.DepositsAreLogged` | bocchi/builtin_plugins/bocchi_bank/data_source.py:411-426 | Every deposit gets one entry of its interest, in order and at its own rate. |
| `BankTerms.CompletingKeepsEntries` | bocchi/builtin_plugins/bocchi_bank/data_source.py:416-430 | Settling keeps every earlier entry but for the flag of the deposits it completes. |
| `Markers.RoundTripIffReadable` | bocchi/models/bot_console.py:187-201 | Printing and parsing a list gives it back if and only if every name is readable. |
| `Markers.ContainsIffSomeBegins` | bocchi/models/bot_console.py:229-229 | The raw substring test finds a marker in a printed list if and only if some name of the list begins with it up to a comma or its own end. |
| `Markers.TestIsMembershipIff` | bocchi/models/bot_console.py:229-229 | The test is list membership if and only if no other name begins that way while the name itself is absent. |
| `Markers.RemoveTextIff` | bocchi/models/bot_console.py:232-233 | First-occurrence replace is removing the name from the list if and only if the first name the search meets is that name. |
| `Markers.MarkerIsRun` | bocchi/models/bot_console.py:229-235 | In a list of clean names the marker of any name whatever is found only as the print of names that follow one another, and replacing it removes just these. |
| `Markers.CommaMakesFalsePositive` | bocchi/models/bot_console.py:229-229 | A name with a comma reads back, but the substring test finds a name that is not in the list. |
| `Markers.PrintThenParse` | bocchi/models/group_console.py:40-53 | The same round trip for the group's reader, which skips blank pieces. |
| `BotConsole.AvailableAndBlockedPartition` | bocchi/models/bot_console.py:203-418 | Over any run of enable, disable, enable-all and disable-all for any names whatever, on disjoint duplicate-free lists of clean names, the strings read back as a partition of the same set. |
| `BotConsole.ToggleIsListMoveIff` | bocchi/models/bot_console.py:223-238 | Toggling the strings is moving one name between the lists, or reporting it absent, if and only if the search for the marker meets that name first, if it meets anything. |
| `BotConsole.CleanToggleIff` | bocchi/models/bot_console.py:223-238 | On lists of clean names, toggling any name is the list move if and only if the name is clean or its marker is not found. |
| `BotConsole.ApplyRefinesIff` | bocchi/models/bot_console.py:203-418 | An operation on the strings is the same operation on the lists they print if and only if it is one for all names, or for a clean name, or for a marker that is not found. |
| `BotConsole.RunRefinesIff` | bocchi/models/bot_console.py:203-418 | A run on the strings is, step by step, the run on the lists if and only if every operation of it is such. |
| `BotConsole.ToggleMovesRun` | bocchi/models/bot_console.py:226-238 | Whatever the name, a request leaves the strings alone or moves names that follow one another. |
| `BotConsole.ApplyKeepsPartition` | bocchi/models/bot_console.py:347-418 | Every operation on lists keeps them disjoint, duplicate-free and covering the same names. |
| `BotConsole.UncleanNameMovesTwo` | bocchi/models/bot_console.py:232-235 | With an unclean name one request moves two markers. |
| `BotConsole.BotRecord.ToggleField` | bocchi/models/bot_console.py:203-240 | Updates the two fields of one feature and raises exactly when the marker is in neither. |
| `BotConsole.BotRecord.SetAll` | bocchi/models/bot_console.py:346-418 | Gathers both fields of one feature in one of them and leaves the other feature alone. |
| `BotConsole.GatherIsConcatenation` | bocchi/models/bot_console.py:359-373 | Gathering two strings of clean names prints the first list followed by the second. |
| `StoredNames.PartitionKeptIffClean` | bocchi/models/bot_console.py:203-418 | The strings of two disjoint duplicate-free lists read back as a partition of the same names after every run if and only if all stored names are clean. |
| `StoredNames.BrokenByHead` | bocchi/models/bot_console.py:226-238 | A stored name with a comma can be made to disappear by at most two requests for its head. |
| `StoredNames.OtherNameIsLost` | bocchi/models/bot_console.py:232-233 | After a request that meets another name first, that name is read back from neither string. |
| `GroupConsole.BlockThenUnblockIff` | bocchi/models/group_console.py:480-537 | Blocking an absent module and unblocking it again restores the stored string if and only if its name is readable and the text test does not find its marker before; a marker found falsely blocks nothing, and only the superuser mode then leaves the string alone. |
| `GroupConsole.ModesAgreeIff` | bocchi/models/group_console.py:480-537 | On readable names the list mode and the text mode do the same to a module if and only if the text test finds no absent name. |
| `GroupConsole.UnblockRaisesIff` | bocchi/models/group_console.py:522-537 | The text mode raises if and only if its test hits although the name is absent, that is when another name begins with it up to a comma; the list mode never raises. |
| `GroupConsole.BlockThenUnblockRestores` | bocchi/models/group_console.py:480-495 | For clean names it always restores the string, in either mode. |
| `GroupConsole.BlockTakesEffectIff` | bocchi/models/group_console.py:480-495 | Blocking an absent module puts it into the list that is read back if and only if its name is readable and, in the text mode, its marker is not found falsely. |
| `GroupConsole.BlockKeepsOthers` | bocchi/models/group_console.py:480-495 | Blocking a readable module leaves every other one in the list, or out of it. |
| `GroupConsole.BlockHasNoEffect` | bocchi/models/group_console.py:488-492 | With `a,b` stored, the text mode takes `a` for blocked and leaves it unblocked. |
| `GroupConsole.BlockTakesEffect` | bocchi/models/group_console.py:488-495 | For clean names the raw text test agrees: after blocking the module is found, and the others as before. |
| `GroupConsole.UnblockCanRaise` | bocchi/models/group_console.py:531-535 | With an unclean name the text test passes and the removal raises. |
| `GroupConsole.MergeFieldsContents` | bocchi/models/group_console.py:278-288 | Merging keeps the order, adds each module once and has exactly the modules of some record. |
| `GroupConsole.MergedFieldReadsBack` | bocchi/models/group_console.py:278-288 | For any stored text the merged field reads back as the merged list. |
| `GroupConsole.MergeModuleField` | bocchi/models/group_console.py:278-288 | Both loops compute that merge. |
| `GroupConsole.GroupRecord.SetBlock` | bocchi/models/group_console.py:458-495 | Changes one field of the record as specified and no other. |
| `GroupConsole.GroupRecord.SetUnblock` | bocchi/models/group_console.py:500-537 | Changes one field, or raises and changes none. |
| `GroupCache.BlockedAtRunTimeIff` | bocchi/services/cache/runtime_cache.py:98-109 | After blocking, the sets that decide at run time (bocchi/models/group_console.py:445-456, 543-549) have the module if and only if they had it before, or its name is plain and, in the text mode, its marker is not found falsely. |
| `GroupCache.OthersAtRunTime` | bocchi/services/cache/runtime_cache.py:98-109 | Blocking a plain module leaves every other one in these sets, or out of them. |
| `GroupCache.UnblockedAtRunTimeIff` | bocchi/services/cache/runtime_cache.py:98-109 | After unblocking, the sets still have the module if and only if another stored name is shown as it. |
| `GroupCache.ShownIffPlain` | bocchi/services/cache/runtime_cache.py:102-108 | A stored name is shown as it is if and only if it has neither white space nor a comma at an end. |
| `GroupCache.PlainNamesTakeEffect` | bocchi/services/cache/runtime_cache.py:98-109 | Among plain names without commas, blocking and unblocking always take effect at run time. |
| `GroupCache.ParseBlockModules` | bocchi/services/cache/runtime_cache.py:98-109 | The loop over the pieces collects exactly the shown names. |
| `GroupMerge.KeptCombinesAll` | bocchi/models/group_console.py:290-335 | The kept record blocks exactly what some duplicate blocks, is on only when all are and super when any is; its level is the lowest, its counts and flag the highest found in any duplicate; name and platform are some duplicate's or missing in all. |
| `GroupMerge.RoundsCombineAll` | bocchi/models/group_console.py:290-335 | Merging in two rounds combines, in this sense, all the records of both. |
| `GroupMerge.Best` | bocchi/models/group_console.py:262-276 | The kept record has the highest score, the newest among equals. |
| `GroupMerge.KeptNameIsNewest` | bocchi/models/group_console.py:307-333 | Of several duplicates the kept record has the id of the best, and the name and platform of the newest that have one, else no name and the default platform. |
| `GroupMerge.NameIsWorth` | bocchi/models/group_console.py:262-267 | What makes a duplicate win: eight points for a name (`PlainIsWorthNothing`: none for an empty record). |
| `GroupMerge.CountsAreWorth` | bocchi/models/group_console.py:266-267 | Four for either member count. |
| `GroupMerge.RightsAreWorth` | bocchi/models/group_console.py:268-269 | Four for a flag and for super rights. |
| `GroupMerge.ChangesAreWorth` | bocchi/models/group_console.py:270-271 | Three for being off and for a level other than five. |
| `GroupMerge.ScoreCountsBlocks` | bocchi/models/group_console.py:272-275 | One for every block in each of the four fields. |
| `GroupMerge.GroupTable.Deduplicate` | bocchi/models/group_console.py:290-335 | Exactly the kept record remains. |
| `GroupMerge.FindNewest` | bocchi/models/group_console.py:296-302 | Finds the newest record that has a name, or a platform, if there is one. |
| `GroupMerge.OneRecordRemains` | bocchi/models/group_console.py:329-333 | Deleting the rows with other ids leaves exactly the kept one. |
| `RateLimiter.EveryWindowBounded` | bocchi/utils/limiters.py:91-101 | In any history with non-decreasing time every interval (t - window, t] has at most max_calls accepted calls of a key. |
| `RateLimiter.AcceptedIffWindowHasRoom` | bocchi/utils/limiters.py:95-101 | A call is accepted exactly when fewer than max_calls accepted calls of its key lie in its window. |
| `RateLimiter.LeftTimeIsExact` | bocchi/utils/limiters.py:103-107 | After a rejection, with no other call of the key, a later check succeeds exactly when the reported time has passed, if any call is allowed at all. |
| `RateLimiter.QueueStaysRecent` | bocchi/utils/limiters.py:91-101 | The stored queue is always a suffix of the accepted times that holds all of the window. |
| `RateLimiter.Limiter.Check` | bocchi/utils/limiters.py:91-101 | The expiring loop keeps the queues those of the history and records the call. |
| `RateLimiter.Limiter.TimeLeft` | bocchi/utils/limiters.py:103-107 | Reports the time until the oldest call leaves the window, never a negative one. |
| `EnvMerge.SyncOnlyInserts` | bocchi/cli.py:107-137 | Without the new lines the old lines are there in order; the blocks of the result are the old blocks, none fused or split, with the missing example blocks between them. |
| `EnvMerge.AllKeysPresent` | bocchi/cli.py:110-137 | Afterwards the first key of every example block is assigned in the file. |
| `EnvMerge.SyncIsIdempotent` | bocchi/cli.py:113-119 | A second merge changes nothing. |
| `EnvMerge.PlacedBeforeNextKnown` | bocchi/cli.py:76-80 | A block goes directly before the first block anchored by the next later example block the file knows, else to the end. |
| `EnvMerge.InsertAddsBlock` | bocchi/cli.py:83-93 | Inserting at a block's start or the end makes exactly one new block there. |
| `EnvMerge.SyncEnvMissingItems` | bocchi/cli.py:107-137 | The loops of the merge compute exactly the specified lines. |
| `EnvMerge.FindEnvBlockStart` | bocchi/cli.py:76-80 | Finds where the first block with the anchor starts, or nothing. |
| `EnvMerge.FindAnchor` | bocchi/cli.py:127-134 | The loop over later blocks finds the index at which the block goes in. |
| `EnvMerge.CollectKeys` | bocchi/cli.py:110-110 | The set of assigned keys. |
| `EnvMerge.FindMissing` | bocchi/cli.py:113-116 | The loop collects exactly the missing blocks with those behind them. |
| `EnvMerge.InsertMissing` | bocchi/cli.py:121-137 | The loop inserts them one after the other. |
| `EnvMerge.OldLinesRemain` | bocchi/cli.py:121-137 | However many blocks go in, the old lines remain in order. |
| `EnvLines.SplitEnvBlocks` | bocchi/cli.py:58-73 | The loop returns every block with the index at which it starts. |
| `EnvLines.BlocksConcat` | bocchi/cli.py:58-73 | Files put together at a blank line have exactly the blocks of both. |
| `EnvLines.StartSplits` | bocchi/cli.py:63-72 | A start index is a boundary at which the blocks divide. |
| `EnvLines.BlocksHaveLines` | bocchi/cli.py:63-72 | The blocks hold exactly the lines that are not blank. |
| `EnvLines.AssignmentReadsBack` | bocchi/cli.py:30-37 | An assignment to a name has that name as its key. |
| `EnvLines.KeyOfIff` | bocchi/cli.py:30-37 | A line has a key if and only if, stripped, it is no comment and has an equals sign, and what is before the first one, stripped, is made of letters, digits and underscores, not underscores alone. |
| `EnvLines.AnchorOfIs` | bocchi/cli.py:30-37 | Behind one comment sign a line has the anchor it has as key without the sign; a line that is no comment has its key as anchor. |
| `EnvLines.BlockKeyIsFirst` | bocchi/cli.py:40-55 | The key of a block is that of its first line that assigns one, its anchor that of its first line that does or would without its comment sign. |
| `EnvLines.CommentReadsBack` | bocchi/cli.py:30-37 | A commented assignment is an anchor for its name and assigns nothing. |
| `EnvText.WrittenReadsBack` | bocchi/cli.py:107-139 | The written file reads back as the merged lines if and only if the old file ended with a line feed or nothing went to its very end. |
| `EnvText.UnterminatedFileFuses` | bocchi/cli.py:88-93 | So for any file of one unterminated line and any example of one other line the two merged blocks read back as one. |
| `EnvText.AssignmentsFuse` | bocchi/cli.py:88-93 | Assignments to two different names are such a file and example. |
| `EnvText.JoinReadsBack` | bocchi/cli.py:107-139 | Joined lines read back as the same lines exactly when each but the last ends with a line feed. |
| `EnvReread.SecondRunKeepsText` | bocchi/cli.py:107-139 | A second run leaves the text of every file as the first wrote it, with or without a final line feed. |
| `EnvReread.AllKeysInFile` | bocchi/cli.py:107-139 | The first key of every example block is assigned in the file as it is read from the written text. |
| `EnvReread.CreatedFileStays` | bocchi/cli.py:99-105 | A file created from the example is left as it is by the next run. |
| `EnvReread.BlocksReadBackIff` | bocchi/cli.py:83-93 | The written file has the merged blocks when read again, up to white space at the ends of lines, if and only if the old file ended with a line feed or with a blank line that follows no block, or nothing went to its end; otherwise exactly two blocks are fused. |
| `EnvReread.WrittenIsReread` | bocchi/cli.py:107-139 | What is read when something went behind an unterminated last line: the merged lines, that line joined with the one behind it. |
| `Prefilter.MissIsSound` | bocchi/builtin_plugins/hooks/auth_activation.py:674-810 | A miss is justified by a rule that rejects, given no empty pattern. |
| `Prefilter.UnsoundMissIff` | bocchi/builtin_plugins/hooks/auth_activation.py:710-714 | With empty patterns: an unjustified miss is exactly a list of accepting rules that count as no match, an empty pattern among them. |
| `Prefilter.EmptyPatternMisses` | bocchi/builtin_plugins/hooks/auth_activation.py:712-714 | A single empty pattern accepts everything and yields a miss. |
| `Prefilter.MatchIff` | bocchi/builtin_plugins/hooks/auth_activation.py:804-810 | A match is decided exactly when no rule is opaque, every rule accepts or is skipped, and a text rule accepts. |
| `Prefilter.MatchIsSound` | bocchi/builtin_plugins/hooks/auth_activation.py:804-805 | After a match all rules accept if and only if no empty full pattern and no empty class list was skipped that rejects. |
| `Prefilter.RejectionIsFound` | bocchi/builtin_plugins/hooks/auth_activation.py:688-803 | A rejecting rule leads to a miss unless an earlier rule cannot be decided. |
| `Prefilter.CandidatesCoverTexts` | bocchi/builtin_plugins/hooks/auth_activation.py:637-664 | The plain text, the event's plain text and the raw text, stripped, and their unescaped forms are candidates unless blank; no candidate is empty or there twice. |
| `Prefilter.PairMeaning` | bocchi/builtin_plugins/hooks/auth_activation.py:715-803 | A start, end, full and keyword rule asks that the text is the value followed by something, something followed by it, just it, or something around it. |
| `Prefilter.OtherMeaning` | bocchi/builtin_plugins/hooks/auth_activation.py:705-790 | A pattern is looked for in the raw text, or in the plain one if there is none; to-me and type rules ask of the event what they say. |
| `Prefilter.CommandMeaning` | bocchi/builtin_plugins/hooks/auth_activation.py:1306-1332 | A command asks that a pattern behind `re:` is found, else that the text begins with it, and goes on with nothing, white space or, behind a character that is not ASCII, anything. |
| `Prefilter.MatcherRuleMatchesText` | bocchi/builtin_plugins/hooks/auth_activation.py:674-810 | The loop with its flags and early returns computes the declarative decision, and its result is sound: a miss has a rejecting rule or only silently accepting ones with an empty pattern, a match leaves no rule rejecting but skipped ones. |
| `Prefilter.LookAtTexts` | bocchi/builtin_plugins/hooks/auth_activation.py:715-803 | The nested loops over candidates and values, case folding included, find exactly whether some candidate satisfies the rule. |
| `Activation.SelectsAdmitted` | bocchi/builtin_plugins/hooks/auth_activation.py:245-270 | In every lane exactly the first matchers within the budget are selected, in order; outside the lanes every matcher not skipped is. |
| `Activation.CertainAre` | bocchi/builtin_plugins/hooks/auth_activation.py:256-261 | The certain matchers are exactly those whose choice is certain, whatever the budget. |
| `Activation.BudgetLeft` | bocchi/builtin_plugins/hooks/auth_activation.py:1489-1499 | What is left of a lane is the budget less the demand, never below zero. |
| `Activation.RoundsShareBudget` | bocchi/builtin_plugins/hooks/auth_activation.py:245-270 | Selecting from two priorities one after the other, the second with the budget the first leaves, is selecting from both together. |
| `Activation.HandlerActivationIndex.SelectPriority` | bocchi/builtin_plugins/hooks/auth_activation.py:245-270 | The loop selects exactly the admitted matchers and leaves the specified budget. |
| `Activation.HandlerActivationIndex.ConsumeBroadPassiveBudget` | bocchi/builtin_plugins/hooks/auth_activation.py:1489-1499 | Takes a unit if the lane has one, refuses if it has none, and always allows a lane without budget. |
| `Choices.DroppedIff` | bocchi/builtin_plugins/hooks/auth_activation.py:272-370 | A matcher is dropped for a message if and only if it is not temporary and: it is of another type, or its rules decide against the message, or it is like a command and nothing in the texts calls it (no Alconna head; or no command, no shortcut and no custom rule). |
| `Choices.CertainIff` | bocchi/builtin_plugins/hooks/auth_activation.py:272-370 | A matcher is certain if and only if it is a message of its type and its rules match or, for one like a command, it has no custom rule, no rule decides against it, something calls it and no route goes elsewhere. |
| `Choices.OtherEventsDropIff` | bocchi/builtin_plugins/hooks/auth_activation.py:281-282 | An event that is no message drops exactly the matchers of another type and those like commands. |
| `Choices.DroppedForAReason` | bocchi/builtin_plugins/hooks/auth_activation.py:272-370 | So a matcher without empty patterns is dropped only for its type, because a rule of it rejects, or because nothing calls it. |
| `Choices.PlainCommandsIff` | bocchi/builtin_plugins/hooks/auth_activation.py:299-370 | A matcher for plain commands is dropped for a message with text if and only if no text calls one of them; it is certain if and only if one is called and no AI route goes elsewhere. |
| `Choices.PlainCommandCalledIff` | bocchi/builtin_plugins/hooks/auth_activation.py:1306-1332 | A plain command is called if and only if it stands alone or before white space. |
| `Choices.SelectCommandDescriptor` | bocchi/builtin_plugins/hooks/auth_activation.py:299-370 | The branches with their loops and early returns make the specified choice. |
| `Choices.SelectHeads` | bocchi/builtin_plugins/hooks/auth_activation.py:139-155 | The loop over the Alconna heads: a match ends it, an undecided head keeps the matcher, otherwise it is a miss. |
| `RouteIndex.BucketEqualsScan` | bocchi/builtin_plugins/hooks/auth_checker.py:278-291 | The bucket of the first character gives exactly what a scan of all (command, module) pairs gives. |
| `RouteIndex.PairsMeaning` | bocchi/builtin_plugins/hooks/auth_checker.py:244-262 | The pairs are those of the plugins with commands, none of them ambiguous. |
| `RouteIndex.ModulesMeaning` | bocchi/builtin_plugins/hooks/auth_checker.py:249-259 | A module has commands in the index if and only if a plugin with commands, none of them ambiguous, goes by its name, be it the plugin's or its module's. |
| `RouteIndex.Routes.EnsureRouteIndex` | bocchi/builtin_plugins/hooks/auth_checker.py:234-263 | Fills both maps so that they hold exactly those pairs, once. |
| `RouteIndex.Routes.MatchRouteModules` | bocchi/builtin_plugins/hooks/auth_checker.py:278-291 | The loop returns what the scan returns. |
| `RouteIndex.Routes.AddCommands` | bocchi/builtin_plugins/hooks/auth_checker.py:260-262 | The loop puts every command into both maps. |
| `RouteIndex.MatchBeginsAlike` | bocchi/builtin_plugins/hooks/auth_checker.py:266-275 | A command that matches begins with the text's first character. |
| `Text.CommandMatchesMeaning` | bocchi/builtin_plugins/hooks/auth_activation.py:1323-1332 | A text matches a command exactly when it is the command, or the command followed by white space and anything. |

## Left out

- Database, ORM, network, bot adapters, message sending, drawing, logging and configuration: input and output. Tables are maps, lists and logs inside the models; clocks, random numbers, configuration limits and the results of calls are parameters.
- Floating-point rounding: times and rates are real numbers.
- Unicode beyond ASCII in `str.strip`, `str.isspace` and `str.isalnum`, and line ends other than the line feed in `str.splitlines`.
- Lifespan: stretches between awaits are steps, since the manager's lock is never held across an await; identifiers are numbers; the heap is an ordered list, as the library's heap is not part of this model; probes and callbacks are modelled as suspending, their exceptions as an answer "idle" and a return.
- LowPriorityWriter: re-registering with another configuration, polling, the due test and the pause signal; one writer is modelled, the flush lock being the rule that no second flush begins.
- LowPriorityWriter: the late completion of a write that timed out, which the code counts as dropped.
- SendQueue: patching the adapter (a call is modelled as queued even after a shutdown has taken the patch away), platform scopes, the API semaphore and the observer; a call that finds the queue full or stopping sends directly and is not tracked; a shutdown that is itself cancelled.
- RedBagRuns.GroupRedBag.Open: does not model the suspension between popping a share and recording its opener; every operation is one step. `RedBagOpening` models that suspension, for one bag that stays where it is; a dictionary that changes while an opening is suspended in its loop is not modelled.
- RedBagRuns.GroupRedBag.AddRedBag: requires one share for an assigned bag, as its handler arranges (bocchi/builtin_plugins/gold_redbag/__init__.py:155-156), and does not model the division by zero when all random weights are zero.
- RedBagRuns: bag timeouts, the interval check of the handlers, rankings and pictures.
- Wallet: uid allocation, caches, props; database transactions are the two steps check and guarded update, with roll-back of a new account; a coroutine that is cancelled, and a refund or log write that fails, are not modelled. The log is the sequence of appended entries, what the low-priority writer then does with them is `LowPriorityWriter`.
- Bank: random interest events, the user's impression and the daily maximum are parameters of a deposit. A deposit saves the rate column without setting it, so balances bear the default rate; the model follows the code. Withdrawals without their check, loans and repayments are not part of this model.
- GroupConsole: when the cache is refreshed, group settings, channels and tasks of plugins.
- GroupMerge: that name and platform are the newest ones is stated for one round (`FindNewest`); over several rounds they are only some record's, because the kept record need not be the newest.
- EnvMerge: values of keys that exist already; a block is inserted whole, so a key further down in it can be repeated.
- Prefilter: regular expressions, case folding and HTML unescaping are arbitrary functions; collecting command literals and normalising them (their result is the rule's list of commands).
- Choices: what a shortcut pattern, an Alconna head and the heads of an AI route match are arbitrary functions. Whether a matcher may be throttled is given.
- RouteIndex: extracting and normalising commands from plugin metadata.
- Circuit breakers and cooldown limiters (counters with a reset time), the in-memory caches (lookups with expiry), the second bank model (field updates without checks) are not part of this model.
