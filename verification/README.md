# sanecache: a verified model

This project models the three connected parts of the in-memory cache that are hard to get
right and proves what they promise.

**The shard and its policies** (`shard.go`, `s3fifo.go`). `Shards.Shard` is the shard as the
cache keeps it: a map of heap entries, two doubly linked lists through the entries' own
`prev` and `next`, running totals, the ghost list (`Ghosts.GhostList`) and the tokens of the
loads in progress (`Loads.LoadRegistry`). Each of its methods is one critical section of the
shard's lock and is proved equal to a function on values in `ShardModel`, and `ShardRuns`
drives one heap shard through any sequence of operations, answering each as the run over
values does. The policy theorems are proved about those functions, over whole runs: the S3FIFO
eviction loop is totally correct and linear, S3FIFO resists scans, LRU's queue is the order of
last use and a larger LRU cache never misses what a smaller one hits, answers are always the
last unexpired write, every read counts and the first that is due refreshes, and a sharded
cache stays within its total budget. `Budgets` and `Shares` say in numbers when a write is
refused, when it evicts and which queue gives; `ScanBytes` is scan resistance in bytes.

**Loads** (`loader.go`, `view_loader.go`, the token part of `shard.go`). `Flights` is a state
machine with one step for each critical section of the shard's lock and with each group's
mutex held across several of them, so that deletes, writes, publications of other groups and
other callers' steps fall between a token's beginning, the second look and the registration.
The source has a version, so that staleness can be said. Any number of groups (the cache's
and those of views) share the storage key; `FlightProgress` shows that none of them is ever
stuck, `CallerProgress` that every caller can be answered, and `FlightAnswers` with what.
`FlightGroups.FlightGroup` is one group's own data structure.

**Batches** (`loader_batch.go`). `LoadHost.Host` has the loops of `getMany`, `acquire`,
`runBatch` and `collect`, and the load of one key, as methods over the entries, a flight group
and a load registry in which other keys' loads may be in flight. `LoadHost.BothWays` calls
both on two caches and shows that a batch load is the loads of its keys one by one.
`BatchLoading` has what they compute, `Snapshots` the steps they are made of, and
`BatchCancellation` is the state machine of a batch's shared context.

`Races` adds what the read lock allows: lost read counts, a refresh claimed by
load and compare-and-swap, and a lookup that finds an expired entry, lets the read lock go and
comes back for the write lock; `LoneReads` shows that without a race it is the shard's read.

## Where the code is more exact than its prose

- S3FIFO's share: an arbitrarily long scan costs the main queue at most
  `max(maxEntries/10 - 1, 1)` entries: fewer than the small queue's share, except that a share
  of one entry can still cost one.
- "One load per key" (`loader.go:189-191`): between a load's registration and the next load
  of the group there is an event that lost the answer, unless the first load had already been
  invalidated when it was registered and nothing was cached. `Reloads.SinceRegistration` says
  exactly when, `Reloads.InvalidatedWhileStarting` gives a run where it had, and
  `Reloads.LoadedAgainOnlyIfLost` is the statement that holds of all runs, counted from the
  beginning of the load's token.
- A batch error that wraps `ErrNotFound` does store that the keys do not exist, though the
  comment in `runBatch` says that nothing of a failed call is worth caching
  (`BatchLoading.FailedBatch`).
- Ghosts are bounded by the number of entries at the last add, not at every moment
  (`Ghosts.GhostList.Add`).

## Model

| member | source | states |
|---|---|---|
| GhostLog.LatestAddIsLast | s3fifo.go:117-125 | A hash's latest add, by number, is its last place among all the adds. |
| GhostLog.AddMakesGhost | s3fifo.go:128-139 | An add makes its hash a ghost and makes no other hash one. |
| GhostLog.AddForgetsOldest | s3fifo.go:128-139 | Of the other ghosts exactly those stay whose latest add is one of as many as the limit allows besides the new one. |
| GhostLog.TakeForgets | s3fifo.go:141-149 | After a take of a hash, exactly the other ghosts are left. |
| Ghosts.GhostList.Add | s3fifo.go:128-139 | The queue, its first number and the map refine the log with one more add; the queue keeps no more than the limit, and at least one. |
| Ghosts.GhostList.Take | s3fifo.go:141-149 | Reports whether the hash is a ghost in the log of adds and takes, and logs the take. |
| Ghosts.GhostList.Clear | s3fifo.go:151-154 | Refines the empty log again. |
| Ghosts.NumberIndexesQueue | s3fifo.go:117-126 | Each number in the map finds its hash in the queue, at its last occurrence. |
| Ghosts.NumbersAreTheGhosts | s3fifo.go:113-125 | The map's hashes are exactly the ghosts of the log: last added within the window and untaken since; and they are no more than the queue holds. |
| ShardModel.TurnShrinksEffort | s3fifo.go:73-108 | Every turn of the eviction loop keeps keys unique and uses up some of the potential: two for another small entry, one more than its reads for another main entry. |
| Eviction.StuckOnlyInside | s3fifo.go:92-99 | The loop's break is reached only once the shard is inside its budget, that is never while over. |
| Eviction.TurnSpares | s3fifo.go:73-108 | A turn leaves the entry just stored where and as it was. |
| Eviction.EvictS3FifoCorrect | s3fifo.go:66-111 | Total correctness: the loop ends inside the budget, never evicts the entry it was called for nor changes its queue, and its turns are bounded by the potential. |
| Eviction.EvictionIsLinear | s3fifo.go:66-111 | At most 2 turns per small entry and 4 per main entry. |
| Eviction.EvictS3FifoConserves | s3fifo.go:66-111 | Whatever is counted, reads apart, is left in the shard or among the victims, once. |
| Eviction.EvictLruTakesShortestSuffix | shard.go:305-312 | The LRU victims are the shortest suffix of the list, oldest first, whose removal fits the budget; survivors keep their order. |
| Eviction.EvictLruConserves | shard.go:305-312 | The LRU loop loses nothing but its victims. |
| Eviction.EvictCorrect | shard.go:279-313 | Under every policy eviction ends inside the budget and spares the entry just stored, unchanged. |
| Eviction.EvictConserves | shard.go:279-313 | Under every policy what was there is what is left and the victims. |
| Shares.SmallQueueGives | s3fifo.go:73-90 | The small queue gives up its oldest entry, unless that is the one just stored, while it holds a tenth of the bytes or of the entries, one at least, where those have a budget, or when the main queue has nothing else: one that was read heads the main queue without reads, one that was not leaves. |
| Shares.MainQueueGives | s3fifo.go:92-107 | Otherwise the main queue's oldest entry but the one just stored goes to the front with one read fewer, or leaves if it has none. |
| Shares.VictimsAreUnread | s3fifo.go:66-108 | The victims of the two queues are all the victims; none has a read, and those of the small queue were in it, unread, when the eviction began. |
| Shares.EachReadIsARound | s3fifo.go:100-107 | An entry of the main queue is there after an eviction with as many reads fewer as the loop came to it, or has left, the loop having come to it once more than it had reads. |
| Budgets.RefusedExactlyWhenTooLarge | shard.go:183-193 | A write is refused exactly if the entry alone costs more than the bytes allowed, and dropped exactly if it does not but its token is invalid. |
| Budgets.EvictsExactlyWhenFull | shard.go:196-210 | A stored write has victims exactly if the bytes or entries held with it, and without the one it replaces, are more than allowed; otherwise they are what is held; ClearOnFull then keeps nothing but the entry. |
| Budgets.SweepTakesExactlyExpired | shard.go:226-240 | A sweep leaves exactly the entries whose time has not come, unchanged and in their queues. |
| Budgets.LetOutRemembersAsMany | s3fifo.go:84-87 | After the small queue lets an entry out the ghosts are its hash and those of the others that were added last, as many adds back as entries are still held. |
| ScanResistance.StoreIsSet | s3fifo.go:57-111 | The counted write the scan theorems are about is the shard's write, victims and all. |
| ScanResistance.StoreTakesFromMainOnlyInsideShare | s3fifo.go:57-111 | Storing a new key takes at most one main entry, and one only while the small queue is inside its share. |
| ScanResistance.FloodSparesMain | s3fifo.go:16-39 | A run of sets of keys each new when its turn comes evicts at most max(maxEntries/10 - 1, 1) entries of the main queue, whatever was held and read before. |
| ScanResistance.DistinctNewKeysStayNew | s3fifo.go:113-137 | With hashes that do not collide, distinct keys that are new at the start are still new at their turns. |
| ScanResistance.FloodLosesFromMain | s3fifo.go:92-107 | Keys of the main queue that are gone after the run left by the loop's main branch. |
| ScanResistance.ScanResistant | s3fifo.go:16-111 | Scan resistance: with an entry budget only, an arbitrarily long run of sets of distinct, absent, non-ghost, never-read keys takes at most max(maxEntries/10 - 1, 1) keys from the main queue. |
| ScanBytes.MainTurnFloods | s3fifo.go:66-107 | During a flood the main queue gives only while the small queue holds less than its tenth of the bytes or nothing but the new entry, so what the flood has taken from it stays bounded. |
| ScanBytes.ScanResistantInBytes | s3fifo.go:16-111 | Scan resistance with a byte budget only: however long the flood, the main queue's keys are all still there but those of the victims it gave, which together cost at most the larger of maxBytes/10 - 1 and the flood's largest entry, and less than the largest entry held before on top of that. |
| Runs.WriteGood | shard.go:183-210 | A write that fits is stored, readable as written, and leaves the shard's invariant: keys unique, queues per policy, read counts capped, inside the budget. |
| Runs.ApplyGood | shard.go:110-253 | Every operation, under every policy, keeps that invariant. |
| Runs.RunGood | shard.go:110-253 | So does every run: the shard is within budget after every operation of it. |
| TtlAgreement.AnswersAreLastWrites | shard.go:110-224 | After any run, policy and budget, an answer is that of a plain map of last writes with no later delete or clear and not yet expired, or a miss. |
| TtlAgreement.StoredIsReadable | shard.go:183-210 | A write that was stored is read back at once: eviction spares it. |
| TtlAgreement.UnbudgetedIsPlainMap | shard.go:110-253 | Without a budget every read answers exactly as the plain map. |
| Reads.ReadsCount | shard.go:138-151 | After any run of reads, of a key and of others, the key's count has risen by its reads, to three at most, under S3FIFO and not at all otherwise; its refresh is taken exactly if one of them was due; and it is otherwise as it was. |
| Reads.FirstDueRefreshes | shard.go:47-54 | Of any run of live reads exactly the first that is due, by the kind of reader that wrote the entry and at the time due or later, is told to refresh; all get its value, or that there is none. |
| Reads.ReadDropsExpired | shard.go:117-136 | A read takes the entry out exactly if its time has come, and reports that; without an entry it misses. |
| Reads.OnceReadIsNotLetOut | s3fifo.go:75-90 | Once read, an entry is never among the victims of the small queue, whatever operations follow that do not write it anew. |
| Lru.WriteEvictsShortestSuffix | shard.go:196-209 | A stored LRU write leaves the new entry and the longest prefix of the old order that fits with it; the victims are the rest, least recently used first. |
| Lru.QueueIsRecencyOrder | shard.go:157-178 | Over every run the LRU queue is in order of last use. |
| Lru.ReadIncluded | shard.go:157-178 | A read keeps the smaller cache's queue a subsequence of the larger's, and a hit in the small one is the same hit, with the same refresh, in the large one. |
| Lru.WriteIncluded | shard.go:196-209 | So does a write, with evictions in one or both. |
| Lru.RunIncluded | shard.go:157-240 | And so does every run of reads, writes, deletes, sweeps and clears. |
| Lru.LargerHoldsSmaller | shard.go:157-240 | LRU inclusion: with entry limits N <= M the same run leaves the smaller shard's list a subsequence of the larger's and every answer of the small one the same in the large one. |
| Admission.NewestComesFirst | s3fifo.go:19-38 | A write's entry comes in ahead of the others of its queue, which keep their order, the small one unless it replaces a main entry or its key is a ghost. |
| Admission.WriteAdmits | s3fifo.go:16-39 | After a stored write the entry is in the small queue exactly if its key was neither in the main queue nor a ghost, with the reads of the main entry it replaced and none otherwise. |
| Admission.RunUnmixed | s3fifo.go:113-149 | In every run, with hashes that do not collide, no resident key is a ghost. |
| Admission.ReplacementKeepsItsQueue | s3fifo.go:19-39 | So replacing an entry keeps it in its queue. |
| Loads.LoadRegistry.Begin | shard.go:368-381 | A new valid token of the key joins the registry. |
| Loads.LoadRegistry.End | shard.go:383-390 | The token leaves the registry, and no empty set is left behind. |
| Loads.LoadRegistry.Invalidate | shard.go:392-398 | Exactly the key's tokens in the registry become invalid and leave it. |
| Loads.LoadRegistry.InvalidateAll | shard.go:246-248 | Clearing does so for every key. |
| Loads.LoadRegistry.EmptyWhenIdle | shard.go:383-390 | With no load in progress the registry holds no key. |
| Shards.Entry.ClaimRefresh | shard.go:47-54 | The claim succeeds for the owner's kind on an entry that is due, and zeroes the time due. |
| Shards.Entry.Read | shard.go:140-151 | A read counts itself up to the cap and claims the refresh if asked to. |
| Shards.Shard.PushFront | shard.go:339-348 | The pointers of the main list stay well linked with the entry in front. |
| Shards.Shard.Unlink | shard.go:350-362 | They stay well linked with the entry at any place taken out. |
| Shards.Shard.PushSmall | s3fifo.go:27-37 | The same for the small list, with its totals and flag. |
| Shards.Shard.UnlinkSmall | s3fifo.go:41-55 | The same for taking out of the small list. |
| Shards.Shard.Remove | shard.go:320-329 | Map, list, flags and totals agree afterwards, and the shard is the value with the key removed. |
| Shards.Shard.Touch | shard.go:331-337 | The list is the old one with the entry moved to the front. |
| Shards.Shard.TotalsDecide | shard.go:315-318 | The running counters decide budget and share as the sums over the lists would. |
| Shards.Shard.MoveUp | s3fifo.go:75-82 | The small list's oldest entry goes to the front of the main list, its reads forgotten. |
| Shards.Shard.LetOut | s3fifo.go:84-87 | It leaves map, list and totals and becomes a ghost. |
| Shards.Shard.GoRound | s3fifo.go:100-104 | A main entry goes to the front, one read the poorer. |
| Shards.Shard.OldestButKeep | s3fifo.go:92-99 | The main list's oldest entry but the one just stored, from the pointers. |
| Shards.Shard.SmallGives | s3fifo.go:74-75 | Whether the small list has to give, from the pointers and counters. |
| Shards.Shard.TakeTurn | s3fifo.go:73-108 | One turn on the pointers is one turn on the values. |
| Shards.Shard.EvictS3Fifo | s3fifo.go:71-111 | The loop on the pointers ends in the state and with the victims of the loop on values, whatever its break. |
| Shards.Shard.EvictLru | shard.go:305-312 | The LRU loop does. |
| Shards.Shard.EvictAll | shard.go:290-302 | ClearOnFull leaves the entry just stored alone and hands over all the others, each once. |
| Shards.Shard.Evict | shard.go:279-313 | Eviction of each policy on the pointers is that on the values. |
| Shards.Shard.Admit | s3fifo.go:23-38 | A ghost's new entry goes to the main list, any other to the small one, and the ghost is taken either way. |
| Shards.Shard.Place | s3fifo.go:19-39 | Queueing an entry after its predecessor's removal is the value's insertion. |
| Shards.Shard.Set | shard.go:181-210 | Too large: nothing changes. Token invalid: nothing changes. Otherwise the key's loads are invalidated, the state, the replaced entry and the victims are those of the value's write, and the shard is valid and inside its budget. The new entry is held exactly if it was stored, and nothing else that was not. |
| Shards.Shard.Delete | shard.go:212-224 | The key's loads are invalidated and its entry, if any, is removed and returned; the shard holds no entry it did not hold. |
| Shards.Shard.Sweep | shard.go:226-240 | In whatever order the map is gone through, exactly the expired entries leave, each handed over once. |
| Shards.Shard.Clear | shard.go:242-253 | The shard is empty, without ghosts, and every load in progress is invalidated. |
| Shards.Shard.ReadShared | shard.go:138-152 | A live read under the read lock changes nothing but the entry's count and its refresh. |
| Shards.Shard.ReadLru | shard.go:169-178 | A live LRU read moves the entry to the front and, if it is not negative, may claim the refresh. |
| Shards.Shard.DropIfSame | shard.go:127-133 | From any valid state, the second lock removes the entry seen expired exactly if it is still the key's, and no other entry comes or goes. |
| Shards.Shard.Get | shard.go:108-179 | A read's answer, its report of an expiration and of a refresh, and the state after it, for every policy; the shard holds no entry it did not hold. |
| ShardRuns.Write | shard.go:181-210 | A write with a new entry, of a load whose token has been invalidated or not, is the value run's write, and is refused exactly when that is. |
| ShardRuns.Do | shard.go:110-253 | One operation of any kind on the heap shard is the operation of the value run, and its reply is the one the value before it gives. |
| ShardRuns.Drive | shard.go:110-253 | Any sequence of operations on one heap shard keeps its pointers, map, flags and totals valid after each of them, ends in the value run's state, and each reply is that of the value run so far. |
| ShardRuns.FromNew | shard.go:90-253 | So does a new shard's whole life. |
| FlightGroups.FlightGroup.Running | loader.go:141-150 | The key's call exactly if there is one and its token is valid. |
| FlightGroups.FlightGroup.Start | loader.go:152-164 | A call with one waiter is registered in place of any invalidated one. |
| FlightGroups.FlightGroup.Leave | loader.go:301-315 | One waiter fewer; exactly the last one drops and cancels the call. Calls in the map stay unfinished, uncancelled and waited for. |
| FlightGroups.FlightGroup.Finish | loader.go:317-325 | The call is dropped, unless replaced, and done. |
| FlightSafety.WaitersKept | loader.go:154-164 | Every step keeps each call's count equal to the callers that joined it less those that left, and one for a refresh. |
| FlightSafety.StepKeeps | loader.go:174-325 | Every step of every interleaving keeps the machine's invariant: tokens, holders, mutexes, versions, flights, waiters and single flight. |
| FlightSafety.RunKeeps | view_loader.go:94-180 | So does every run, with any number of groups over one storage key. |
| FlightSafety.NeverStale | loader.go:174-211 | Never stale: in every run a caller that comes after a delete, clear or write completed is answered, by hit, join, second look or own load, only with what was written or read from the source since. |
| FlightAnswers.WaitersGetTheLoad | loader.go:284-292 | In every run everybody who receives from a call that published is told the version it had read and whether the key exists, or the panic if the publication panicked. |
| FlightAnswers.WaitersGetTheFailure | loader.go:267-292 | And who receives from a call whose loader failed or panicked is told that. |
| FlightAnswers.LoadHasWhatItRead | loader.go:246-248 | The version a load has in hand is the source's when it read it. |
| FlightAnswers.HitWasResident | loader.go:192-204 | Whoever is answered by a lookup or a second look is told what the entry said at that moment, and reads such entries. |
| FlightAnswers.MissFindsNothing | view_loader.go:112-126 | Whoever misses found no entry, one that had expired for some clock, or one of a type it does not read. |
| FlightAnswers.StoredIsHeld | shard.go:183-210 | What is written, or published under a valid token, is what the entry says until it is taken out or another is stored, and it is stale exactly if it has expired since. |
| FlightAnswers.HeldWasStored | shard.go:183-210 | What the entry says was stored by the last step to store or take out. |
| CallerProgress.WaiterCanReceive | loader.go:284-292 | From every reachable state a waiting caller can come to be answered by its call, and with an answer if the load has not failed. |
| CallerProgress.CallerCanReturn | loader.go:174-211 | From every reachable state every caller that has come and not given up can come to be answered. |
| FlightTheorems.PublishRises | shard.go:188-194 | A load that publishes read the source no earlier than the last publication, write and delete. |
| FlightTheorems.PublicationsNeverGoBack | shard.go:183-210 | Over every run with any number of groups the versions that loads publish never go back. |
| FlightTheorems.ValidMeansUndisturbed | shard.go:364-398 | A token not yet ended is valid exactly if the key has not been written, deleted, cleared or published since. |
| FlightTheorems.RegistryExact | shard.go:368-398 | In every reachable state the registry is exactly the tokens begun, neither ended nor invalidated, and is empty when no load runs or is being started. |
| FlightTheorems.EachTokenEndsOnce | loader.go:192-194 | On every exit path a token that is ended had not been ended before. |
| FlightProgress.NobodyIsStuck | loader.go:174-325 | In every reachable state the holder of a mutex has a step of its own, and a call whose token has not been ended has one, or waits only for a mutex that is held. |
| FlightProgress.HolderCanMove | loader.go:174-211 | That step of a mutex's holder takes it nearer to letting the mutex go. |
| FlightProgress.TokenCanEnd | shard.go:383-390 | From every reachable state every token begun has a way on in which it is ended. |
| FlightTheorems.OneFlight | loader.go:143-150 | An unfinished call of a group with a valid token and a waiter is the one in the map, and the one callers can join is such a call: there is at most one. |
| FlightTheorems.WaitersAndCancellation | loader.go:226-230 | In every reachable state a call's waiters are the callers staying, and one for a refresh; a load is cancelled early only with nobody left, a refresh never, and with nobody left it is cancelled or about to be; a call in the map is unfinished, uncancelled and waited for. |
| Reloads.LoadedAgainOnlyIfLost | loader.go:187-210 | Between the beginning of a group's load and its registering another there is an event that lost the answer: delete, clear, eviction, expiry, another type's value, a refused or failed result, or the last waiter leaving. |
| Reloads.SinceRegistration | loader.go:206-210 | Counted from the registration instead, this holds if and only if the token was still valid, or the answer cached, when the load was registered. |
| Reloads.InvalidatedWhileStarting | loader.go:187-206 | A run in which a delete comes between the second look and the registration. |
| Races.StepKeeps | shard.go:110-179 | Every step of racing reads and writers keeps the balance of entries, the claims' owners, what readers hold and the shard's invariant. |
| Races.EachLeavesOnce | shard.go:125-135 | In every interleaving each stored entry is held or has left once, and stores are resident, replaced, victims, dropped by lookups, swept, deleted and cleared together. |
| Races.LookupDropsOnlyExpired | shard.go:125-133 | A lookup back for the write lock drops only an entry expired by its clock. |
| Races.CountsStayCapped | shard.go:138-144 | With lost updates too, read counts stay at their cap and the shard inside its budget. |
| Races.RefreshedAtMostOnce | shard.go:47-54 | Each stored value's refresh is started at most once, only by its owner's kind, so refreshes never exceed stores. |
| LoneReads.LoneRead | shard.go:110-153 | Taken one atomic step at a time with nobody else about, a read does to the shard, claims and drops what the read of the shard's value does. |
| BatchCancellation.StepKeeps | loader_batch.go:125-142 | Every join, leave and cancellation keeps the shared count equal to the calls not cancelled. |
| BatchCancellation.StoppedExactlyWhenDeserted | loader_batch.go:125-142 | However they interleave, a batch is cancelled early only once every key has lost its last waiter, a refresh batch never; and once every key has, it is cancelled when the leavers are through. |
| BatchLoading.LoadAfter | loader.go:66-72 | A key loaded on its own after a batch is answered as it was in the batch, from the cache if the batch stored it. |
| BatchLoading.BatchIsOneByOne | loader_batch.go:62-112 | On values: what a batch leaves and finds, with a loader whose answer for a key does not depend on the others, is what loading the keys one after another leaves and finds. |
| BatchLoading.FailedBatch | loader_batch.go:289-297 | On an error other than ErrNotFound, or a panic of the loader, the result is what was cached and no entry is stored; on ErrNotFound the missing keys are stored as not existing. |
| BatchLoading.BatchIsKept | loader_batch.go:289-305 | Each key the loader gave a value for reads as that value until its expiry; each other missing key reads as not existing until the negative expiry if that is remembered, and is absent if not or on an error; from a publication that panics on nothing is stored; other entries are as they were. |
| BatchLoading.AllAreFound | loader_batch.go:62-112 | Found are exactly the keys that were cached and the missing keys the loader gave a value for, with those values. |
| BatchLoading.StopsAtFirst | loader_batch.go:310-324 | A wait stops at the first call that is not done when the context ends, or has panicked, and gives back the slots from there, or after that call if it panicked. |
| BatchLoading.FirstFailureIsFirst | loader_batch.go:326-337 | The error reported is that of the first call, in their order, to have failed. |
| BatchLoading.ResultsAreFound | loader_batch.go:326-335 | The results of calls of different keys are exactly the values of those that found one. |
| LoadHost.BothWays | loader_batch.go:62-112 | Two caches that hold the same, with other keys' loads in flight, one loading keys in a batch and the other one at a time, with a batch loader that has exactly the values the others give, hold the same afterwards and find the same values. |
| BatchLoading.MissingGrows | loader_batch.go:63-90 | The missing keys are in the order in which they first come. |
| LoadHost.Host.LookUpAll | loader_batch.go:63-90 | Each key is looked up once; hits are found, misses are listed once in first order. |
| LoadHost.Host.AcquireOne | loader_batch.go:151-195 | A running load is joined; otherwise a cached answer is served and the token ended; otherwise a call is registered with a new token and one waiter. |
| LoadHost.Host.Acquire | loader_batch.go:148-198 | Whatever is in flight or cached, of different keys: exactly those neither in flight nor cached get a call and a token; exactly the running calls of the others gain a waiter, each one; cached values join what was found; and the calls to wait for are different and all waited for. |
| LoadHost.Host.SettleAll | loader_batch.go:289-305 | Each call gets its key's share of the answer, stored under its own token, which the shares stored before have left valid; when publishing one panics, exactly the shares before it, and it if it was stored by then, are stored. |
| LoadHost.Host.RunBatch | loader_batch.go:247-306 | Afterwards every call of the batch has its share, or the panic if the loader or publishing panicked, is finished and out of the map, and every token of it ended; the shares published are cached; others' calls stay as they were. |
| LoadHost.Host.LeaveAll | loader_batch.go:316-318 | One slot of each of the remaining calls is given back and nothing else changes. |
| LoadHost.Host.Collect | loader_batch.go:308-340 | On success, error, timeout and panic the results before the stop are taken in order, the first failure reported, and exactly the slots after it given back, once each. |
| LoadHost.Host.GiveUpAtOnce | loader_batch.go:148-198 | A caller that joins running loads, starts others and gives up before any is done leaves the loads that were in flight with the waiters they had. |
| LoadHost.Host.GetMany | loader_batch.go:58-112 | Found are the keys cached and those the loader gave a value for; those are read from the cache until they expire and the others as not existing if that is remembered; the error is the loader's, the context's or the panic, also of a publication, before which alone shares are stored. No call or token of it is left, and others' calls, flights and entries are as they were. |
| LoadHost.Host.GetOne | loader.go:61-72 | One key's lookup, second look, registration, load, publication and wait: a cached answer is given as it is; a missed key's value is given, stored and read until its own expiry, that there is none is remembered if it is to be, and an error or panic stores nothing; nothing of it is left in flight. |
| LoadHost.Host.LoadMissed | loader.go:174-292 | A missed key's load answers with what the loader did, stores a value to be read until its own expiry, remembers that there is none if that is to be, stores nothing on an error or panic, and touches no other entry. |
| LoadHost.Host.GetTwice | loader.go:66-72 | A key loaded once is answered from the cache the second time, whatever another loader would say. |
| LoadHost.Host.GetEach | loader.go:61-72 | Loads of keys one after another, duplicates too. |
| Snapshots.AcquiredThenRan | loader_batch.go:148-281 | Registering loads and running them to their end leaves a group with nobody else's call, flight or token disturbed. |
| Sharding.ShardCountIsLeast | cache.go:760-766 | The number of shards is the least power of two not below the request. |
| Sharding.ShardIndexIsModulo | cache.go:608-614 | Masking the hash is taking it modulo the number of shards. |
| Sharding.KeysHaveOneShard | cache.go:608-614 | Reads, writes and deletes of a key go to the shard its hash gives modulo their number. |
| Sharding.DivideBudgetRoundsUp | cache.go:768-776 | The shards' budgets together are not below the total and less than one per shard above it. |
| Sharding.NoBudgetIsNone | cache.go:770-773 | A shard has no budget exactly if there is none in all. |
| Sharding.TotalsStayBelow | cache.go:294-298 | In every reachable state of the sharded cache the bytes held are below the total and the number of shards together, and so are the entries. |
| Sharding.RefreshWithinLife | cache.go:639-667 | With any jitter an entry expires after it is stored and no more than the jitter off; its refresh is due after the store, not after the expiry, and the same share of the way through its life. |
| Sharding.NoLifeNoDeadlines | cache.go:642-661 | Without a time to live an entry never expires and is never refreshed; with one it expires that long after the store, off by the jitter and at least one later. |

## Left out

- Loads.LoadRegistry.Begin: tokens are numbers and their flags are kept in the registry, where the source has a heap object with an atomic flag; identity and the order of invalidation are the same.
- FlightGroups.FlightGroup.Start: calls are numbered records of the group rather than heap objects, so aliasing of calls is not modelled, and done channels are flags.
- LoadHost.Host.GetMany: one group stands for the groups of all shards, which never share a key, the cache is unbudgeted, none of the keys is in flight at the start, and the batch's goroutine runs before the wait; `Acquire`, `Collect` and `GiveUpAtOnce` say what joining and leaving running loads does.
- LoadHost.Host.LookUpAll: which hits are due for a refresh is not reported; refreshes are in the flight machine and in `Races`.
- LoadHost.Host.GetOne: the key is not in flight at the start, and a panic of Cost or OnEvict while its result is published is not modelled; the loader's own panic is an outcome.
- LoadHost.Host.RunBatch: callers joining while the batch runs are in the flight machine.
- FlightSafety.NeverStale: one storage key is followed; other keys appear as evictions of it, clearing the shard as deleting it, and several groups of one key as any number of groups.
- Shards.Shard.Get: between the read lock and the write lock nobody else comes in; Races has the interleavings and DropIfSame the second lock from any valid state.
- Ghosts.GhostList.Add: add numbers are unbounded, where the source's are 64-bit.
- Sharding.RefreshWithinLife: exact arithmetic with a floor, where the source multiplies in floating point; int64 overflow is not modelled.
- Costs are natural numbers: a negative Options.Cost, which only SetWithCost clamps, is outside the model.
- Go's map iteration order: ClearOnFull's victims and a sweep's are given as sets, each entry once.
- Counters, OnEvict and countLookup: conservation is stated on the shard's own results.
- maphash is an arbitrary function, injective only where a statement says so; jitter is any offset within its span.
- Types of views: a view reads its own type of value and misses any other; prefixes are part of the storage key; typed lookups and the rest of view.go forward.
- The nil-cache path of a view (loadUncached) and calls without a token.
- Goroutines, channels, contexts and tickers: steps of the machines (a caller gives up, a loader returns); Close, sweepLoop and clockLoop prove nothing here.
- live, All, stats, String, option validation, cache-line padding: plumbing.
