# Verified model of agentio's reactive core

This project models, in Dafny, the parts of openkruise/agentio whose correctness rests on state kept across
many steps: the krt incremental collection engine (`pkg/krt`), the lease-retaining demand cache
(`pkg/demandcache`), the value cache and the DNS client (`pkg/cache`, `pkg/dns`), the local secret discovery of the
gateway agent (`pkg/gatewayagent`) and the trust-bundle merge (`pkg/clienttrust`). `dafny verify dfyconfig.toml`
checks everything.

Code that updates state in place is modelled by classes and methods with loops. Where a guarantee spans several
operations or concurrent parties, the same operations also appear as the steps of a state machine over values, the
class methods are proved to perform those steps, and the guarantee is a lemma about every state reachable by any
interleaving of the steps.

## What the main results say

- **Incremental equals from scratch** (`Incremental`). While the parent and every fetched collection keep changing,
  also between the individual reads of one recomputation, each input is fresh or something that will recompute it is
  on its way. With nothing on its way the outputs are exactly those of a full recomputation, and left alone the worker
  gets there in finitely many steps. Discarded results leave last-known-good outputs of an object with the same UID.
- **Which announcements are enough** (`Announcements`). Dropping a batch that does not affect a query is safe for every
  query if and only if the events of the batch link, key by key, what was listed before to what is listed now. The same
  holds of several batches together (`Incremental.SettledTogether`, `Incremental.UnsettledIsMissed`).
- **Fast invalidation equals the naive scan** (`Dependencies`): the reverse index, with its shared buckets, stale
  extractors, the do-not-index fallback and the early exit, selects exactly the inputs that a full check would.
- **Rejected changes do not matter** (`Filters`, `Announcements`): a change that no recorded query is affected by leaves
  every fetch result as it was, by key, by index and by scan, for partial fetches too.
- **Event streams replay strictly** (`Derived`, `Static`, `Incremental`): what a batch publishes is defined without
  reference to replaying; over every run it replays strictly and without no-ops, and a handler registered at any time
  mirrors the outputs.
- **Joins converge** (`Join`, `MergeJoin`), also when sources change between the single reads of one handler call. Exactly
  when a checked join also announces what it lists is settled for any number of sources that change before it handles
  anything, and for runs in which the sources take turns (`JoinAnnouncements`).
- **Delivery is FIFO, initial sync is exact, debouncing conserves the stream** (`Listener`, `Debouncer`).
- **Leases are conserved** (`DemandCache`), **the expiry loop never oversleeps** (`ExpiryLoop`), **no stale DNS answer
  comes back** (`Dns`), **no secret update is lost** (`Sds`), **cache hits are last writes** (`Cache`), **bundles are
  canonical** (`Trust`).

## Where a property is false of the code as it stands

- A consumer that fetches from a checked join can stay stale. The join lists its sources directly but publishes later,
  and what it publishes then need not mention what it listed in between (`JoinAnnouncements.LateJoinMisses` gives the
  input). Let any sources change, by any strict batches, before the join handles any of their events. What it then
  publishes is safe for every query if and only if the source that wins now did not come in front of the one that won
  before, or the object listed before is now the first one behind it, or was brought by an event of that source or of one
  before it (`JoinAnnouncements.LateJoinAnnouncesIff`, `JoinAnnouncements.LateJoinIsSafeIff`). With one event each from
  two sources the failing case is: the earlier source's event is an Add, no other source before the later one holds the
  key, and from the later source on the first object for the key has become another and was not the one added
  (`JoinAnnouncements.TwoChangesAnnounceIff`). All of this is there before the handler runs: the sources and the events
  waiting. A join whose sources take turns, so that while events about a key wait only the source they come from changes
  it, always announces (`JoinAnnouncements.TurnsAnnounce`, over whole runs with single reads), and so does one that
  handles each event at once (`JoinAnnouncements.PromptJoinAnnounces`).
- `StaticCollection.Reset` publishes a strict batch if and only if no key is given twice. An index that was exact stays
  exact if and only if every object given extracts only to buckets of the last object given for its key; for every
  possible index that means that all objects given for one key are equal (`Static.EveryIndexFitsIff`). The batch
  announces the change to those who fetch if and only if, of every key that is held and given more than once, the object
  held or the first one given comes again later in the list (`Static.RepeatedKeyMisses` gives an input without). All
  three are postconditions of `Static.StaticCollection.Reset`, over the list given and the contents before the call.
- The merge join keeps its indexes exact for one event if and only if the stored object is the one the event was
  rewritten against or the one it brings (`MergeJoin.SteadyKeepsExact`, `MergeJoin.UnsteadyBreaksAnIndex`). Within a
  batch that holds whenever repeated keys were calculated alike (`MergeJoin.AgreeIsSteady`), in particular when a
  handler call reads one snapshot (`MergeJoin.SnapshotAgrees`). `MergeJoin.TornBatch` shows a batch in which a source changes between two
  calculations for one key: outputs right, index stale. The outputs converge in any case (`MergeJoin.MergeConverges`).
- The DNS revision check is exact modulo 2^64 (`Dns.RevisionCheck`); the other DNS results are stated for lookups that
  see fewer than 2^64 updates.

## Assumptions

- Objects are compared by equality, and an index key determines its text, so index keys are strings. An index UID
  determines its extractor.
- A transformation is deterministic in its input and its fetch results, and takes those as collections, not as lists
  in an order. Each output key belongs to one input key, as `pkg/krt` demands of transformations.
- A suppression function is only used with the projection it compares, as partial fetches install it.
- Collections change first and publish later. Published batches may be taken in any order, which includes the order of
  listeners, queues and debouncers. What is asked of them differs. A parent's batches only have to name the keys that
  changed. A fetched collection's batches have to link what was listed to what is listed, each alone or several together;
  until they do, the change counts as still to be announced, and no state with such a debt is called quiescent. The
  condition is exact: in every reachable state, each debt hides a change from some query that none of the batches
  published since affects (`Incremental.UnsettledIsMissed`). Derived and static collections meet it at once
  (`Incremental.StrictSettles`, for a static `Reset` with distinct keys), merge joins always (`MergeJoin.MergeAnnounces`),
  checked joins and other resets as said above.
- The sources of a checked join publish batches whose last event about a key carries the object the source has; the
  sources of a merge join only have to name the keys that changed. What a checked join announces (`JoinAnnouncements`)
  is stated for sources that publish strictly, as derived and static collections do.
- Reading one key, or listing one collection, is atomic; a fetch by keys, a recomputation, a handler call or a
  resolution made of several reads is not.
- Clocks are integers that do not go back. `simplelru`, the ring buffer and Go channels are used as their
  documentation specifies them. In `DemandCache` a lease and its entry have one number, standing for the pointer.
- In `Trust`, SHA-256 is injective and PEM encoding round-trips (section 5 of RFC 7468). In `Cache` and `Dns` time zero
  is Go's zero time, and actual times are positive. Versions and nonces of `Sds` are counted without wrap-around. DNS TTLs are seconds as in section 3.2.1 of RFC 1035.

## Model

| member | source | states |
|---|---|---|
| Filters.Fetch | pkg/krt/fetch.go:97-162 | the key, index and scan paths all return the objects selected by the full filter, each once |
| Filters.FilterList | pkg/krt/fetch.go:97-162 | filtering a list keeps exactly the objects that pass the remaining checks |
| Filters.UnaffectedView | pkg/krt/filter.go:182-244 | a change that does not affect a query leaves what its consumer sees unchanged, projections included |
| Announcements.UnaffectedLink | pkg/krt/collection.go:197-224 | events that do not affect a query leave what it sees of a key as it was, if they link the two objects |
| Announcements.UnaffectedBatch | pkg/krt/fetch.go:46-61 | the same for the whole result of a query, for every projection a partial fetch may install |
| Announcements.UnlinkedIsMissed | pkg/krt/filter.go:182-244 | the condition is exact: events that do not link the two objects leave some query unaffected whose result changes |
| Announcements.StrictAnnounces | pkg/krt/collection.go:484-624 | a batch that replays strictly announces its change |
| Announcements.OneEventLinks | pkg/krt/collection.go:197-224 | a single event announces a change iff its two sides are the object before and the object now |
| Filters.AffectedView | pkg/krt/filter.go:190-244 | conversely, an affecting change of the object changes a plain fetch's result |
| Indexes.RemoveKey | pkg/krt/collection.go:306-311 | exactly the buckets the old object extracts to lose the key, and no empty bucket stays |
| Indexes.InsertKey | pkg/krt/collection.go:313-323 | exactly the buckets the new object extracts to gain the key |
| Indexes.UpdateIndex | pkg/krt/collection.go:313-323 | for any event: Old's buckets lose the key, then New's gain it, nothing else moves |
| Indexes.UpdateIndexes | pkg/krt/mergejoin.go:356-367 | every index of the collection moves so |
| Indexes.MovedKeepsExact | pkg/krt/collection.go:306-323 | an exact index stays exact when the event's Old is the stored object |
| Indexes.BuildIndex | pkg/krt/collection.go:432-453 | an index built over existing contents is exact |
| Indexes.Lookup | pkg/krt/collection.go:289-304 | a lookup lists exactly the objects extracting to the key, and no bucket entry lacks its object |
| Dependencies.PreFilteredIsSound | pkg/krt/collection.go:197-224 | skipping the checks an index hit already established never changes whether a filter matches |
| Dependencies.ObjectChanged | pkg/krt/collection.go:197-224 | says whether some dependency on the source is affected through the item, by the full check |
| Dependencies.AffectedThroughItem | pkg/krt/collection.go:129-195 | an input is affected by an event iff it is through one of the event's objects |
| Dependencies.DependencyState.Update | pkg/krt/collection.go:65-107 | replaces one input's dependencies; reverse index and extractors stay exact for every input |
| Dependencies.DependencyState.Remove | pkg/krt/collection.go:109-127 | forgets one input; reverse index stays exact for the others |
| Dependencies.DependencyState.ExtractorKeys | pkg/krt/collection.go:129-195 | all extractor slots of a source, or none as soon as one dependency could not be indexed |
| Dependencies.DependencyState.HitHasSlot | pkg/krt/collection.go:129-195 | every affected input is reached through some slot, item and bucket |
| Dependencies.DependencyState.AllFound | pkg/krt/collection.go:129-195 | stopping once every input is found loses nothing |
| Dependencies.DependencyState.ChangedInputKeys | pkg/krt/collection.go:129-195 | returns exactly the inputs that checking every dependency against every event finds |
| Derived.ConsistentPartition | pkg/krt/collection.go:911-936 | the outputs are partitioned by the inputs' membership sets |
| Derived.ApplyOneFrame | pkg/krt/collection.go:484-624 | one input's work leaves the outputs and records of all other inputs alone |
| Derived.ApplyConsistent | pkg/krt/collection.go:484-624 | a batch keeps inputs, membership sets and outputs consistent |
| Derived.DiscardedRun | pkg/krt/core.go:215-224 | a discarded run changes nothing, unless it is a first non-empty result or a new object: then it is published |
| Derived.PublishedOneReplays | pkg/krt/collection.go:577-610 | the Deletes, Adds and Updates published for one input, in whatever order the sets are gone through, replay strictly to the new outputs, without no-op updates |
| Derived.PublishedAllReplays | pkg/krt/collection.go:520-612 | so do those of a whole batch |
| Derived.Emit | pkg/krt/collection.go:486-494 | publishing one strict change keeps the indexes exact |
| Derived.WithdrawStale | pkg/krt/collection.go:577-594 | every output the new result lacks is withdrawn once, also when the membership set gone through is the one deleted from; the set ends as the old keys that are in the result |
| Derived.PublishResults | pkg/krt/collection.go:595-608 | exactly the new and changed results are published, and the set ends as the keys of the result |
| Derived.ReplaceOutputs | pkg/krt/collection.go:577-610 | an input's outputs become the results, whether its membership set is reused or made anew |
| Derived.Memberships.Replace | pkg/krt/collection.go:577-610 | the input's set then holds the keys of the result, and no other input's set is touched or shared |
| Derived.CollectionState.DeleteInput | pkg/krt/collection.go:526-548 | a deleted input takes its outputs with it, one Delete each |
| Derived.CollectionState.DecideDiscard | pkg/krt/collection.go:554-576 | a result is dropped iff discarded, not of a new lifetime, and not the first non-empty one |
| Derived.CollectionState.UpdateInput | pkg/krt/collection.go:549-611 | outputs are replaced or retained, and what is published says so |
| Derived.DerivedCollection.RecordAll | pkg/krt/collection.go:548-553 | the dependencies of every run are recorded, of discarded ones too, those of deleted inputs dropped |
| Derived.DerivedCollection.HandleChanged | pkg/krt/collection.go:484-624 | state as applied input by input, indexes exact, and the published events are those of each input in turn, so they replay strictly from the old outputs to the new without no-ops |
| Derived.CollectionState.AddIndex | pkg/krt/collection.go:432-453 | a new index is exact, a known name returns the existing one |
| Derived.CollectionState.InitialEvents | pkg/krt/collection.go:876-900 | the existing state is sent as one Add per output |
| Derived.AddsReplay | pkg/krt/collection.go:876-900 | such Adds build the outputs from nothing |
| Transformations.ScratchIsUnique | pkg/krt/core.go:211-251 | recomputing an input from scratch has one outcome, although the queries depend on earlier results |
| Transformations.CommitIsHandleChanged | pkg/krt/collection.go:484-624 | the commit of the state machine is the locked half of the batch handler |
| Transformations.CommitAllOk | pkg/krt/collection.go:484-624 | after any commit the stored outputs come from a run on the stored input, with the last run's UID |
| Incremental.RefreshedReads | pkg/krt/collection.go:458-481 | a queued primary event is rewritten to the parent's present object or to a deletion |
| Incremental.SelectionReads | pkg/krt/collection.go:807-846 | a selected input becomes an update with the parent's object, or deletions when it is gone |
| Incremental.MovedKey | pkg/krt/collection.go:958-985 | a change of a fetched collection leaves what was fetched of a key right, or excused by a change still to be announced |
| Incremental.PublishedKey | pkg/krt/collection.go:807-846 | a published batch affects a query and is on its way to invalidate it, or shows together with those before it that what was fetched is what the query gives now, or leaves that to a later batch |
| Incremental.FetchedOk | pkg/krt/fetch.go:124-161 | an answer is good key by key, also when its keys were read one by one at different moments |
| Incremental.SubscribeStep | pkg/krt/collection.go:958-985 | registering the dependency before listing keeps the invariant |
| Incremental.StepKeepsInv | pkg/krt/collection.go:458-624 | every step of parent, world and worker keeps the invariant |
| Incremental.FreshOrPending | pkg/krt/collection.go:458-624 | in every reachable state each key is fresh, or about to be recomputed, or has fetched an object as it was before a change that nothing published since has announced |
| Incremental.QuiescentIsRecomputed | pkg/krt/collection.go:458-624 | at quiescence each input's outputs are those of its one run from scratch, absent inputs have none |
| Incremental.QuiescentOutputs | pkg/krt/collection.go:458-624 | without discards the outputs at quiescence are exactly all results of all runs from scratch |
| Incremental.LastKnownGood | pkg/krt/core.go:215-224 | with any discards, stored outputs come from a run on the stored object, which has the UID of the last one computed |
| Incremental.NeverStuck | pkg/krt/collection.go:772-803 | while work is on its way or in hand, the worker has a step |
| Incremental.WorkerDescends | pkg/krt/collection.go:772-803 | every step of the worker brings it nearer to its end, if the transformation asks boundedly many queries |
| Incremental.Drains | pkg/krt/collection.go:772-803 | left alone, a finite run of the worker takes care of everything on its way |
| Incremental.GetsRecomputed | pkg/krt/collection.go:458-624 | from every reachable state in which nothing is left to announce, the worker alone reaches one in which every key is fresh |
| Incremental.RunPublishes | pkg/krt/collection.go:484-624 | over any run, what the commits publish leads strictly from the outputs before to those after, without no-op updates |
| Incremental.StreamReplays | pkg/krt/collection.go:484-624 | a handler present from the start mirrors the outputs by strict replay |
| Incremental.HandlerMirrors | pkg/krt/collection.go:876-900 | a handler that joins at any moment with the existing state mirrors the outputs by strict replay from then on |
| Incremental.StrictSettles | pkg/krt/static.go:208-238 | a collection that publishes strictly at once leaves no new debt |
| Incremental.SettledTogether | pkg/krt/collection.go:807-846 | after several batches a debt is left exactly if all their events together do not link what was listed to what is listed |
| Incremental.UnsettledIsMissed | pkg/krt/collection.go:197-224 | in every reachable state, each debt hides a change from some query that no batch published since the change affects |
| Join.GetKey | pkg/krt/join.go:50-57 | returns the object of the first collection that holds the key |
| Join.ListFiltered | pkg/krt/join.go:93-120 | lists, per key, the first collection's object if the filter accepts it; a rejected winner hides the objects behind it |
| Join.JoinCollection.RefreshEvents | pkg/krt/join.go:229-303 | drops events a higher source overrides, and takes the next lower object where the source has lost the key |
| Join.JoinCollection.HandleSubCollectionEvents | pkg/krt/join.go:175-198 | the processed state takes exactly the refreshed events |
| Join.Uninterrupted | pkg/krt/join.go:229-303 | the single reads of the state machine, made without interruption, refresh an event as the method does |
| Join.StrictTells | pkg/krt/join.go:175-198 | a source that publishes strictly meets what the join asks of its sources |
| Join.StepKeepsInv | pkg/krt/join.go:175-303 | every source change and every single read keeps the convergence invariant |
| Join.JoinConverges | pkg/krt/join.go:175-303 | with nothing about a key waiting from the winner and the sources before it, the processed state has the winner's object; with no holder and nothing waiting, none |
| Join.JoinQuiescent | pkg/krt/join.go:175-303 | with nothing waiting the processed state is what listing the sources gives |
| Join.HandlerFolds | pkg/krt/join.go:139-198 | a handler that registers at any time and sets or removes keys as told has the processed state between handler calls |
| Join.JoinCollection.InitialEvents | pkg/krt/join.go:139-158 | the existing state is sent as one Add per processed object |
| JoinAnnouncements.PromptJoinAnnounces | pkg/krt/join.go:229-303 | an event refreshed before anything else changes announces the change of what the join lists |
| JoinAnnouncements.TurnsAnnounce | pkg/krt/join.go:175-303 | over any run in which only one source changes a key while events about it wait, whatever the join listed at any moment is linked, by what is published from then on, to what it lists once nothing about the key waits |
| JoinAnnouncements.LateJoinMisses | pkg/krt/join.go:238-299 | two source changes before the first is handled: a query answered in between is not affected although its answer changes |
| JoinAnnouncements.LateJoinAnnouncesIff | pkg/krt/join.go:229-303 | after any strict changes of any sources before any event is handled: what is published announces the change iff the winner did not move forward, or the object listed before is the first behind it or was brought by it or by a source before it |
| JoinAnnouncements.LateJoinIsSafeIff | pkg/krt/join.go:229-303 | that condition decides whether every query answered before is invalidated or still right; without it some query misses the change |
| JoinAnnouncements.TwoChangesAnnounceIff | pkg/krt/join.go:279-295 | with one event each from two sources, the change is missed iff the first is an Add, no other source before the second holds the key, and the first object from there on has become another and was not the one added |
| MergeJoin.CalculateMerged | pkg/krt/mergejoin.go:343-354 | the merge of all present holders in collection order, none without holders |
| MergeJoin.HandledAgrees | pkg/krt/mergejoin.go:222-294 | after a batch whose calculations agree per key, each of its keys has the calculated object, other keys are as before |
| MergeJoin.SteadyKeepsExact | pkg/krt/mergejoin.go:89-106 | an index stays exact when the stored object is the one the event was rewritten against or brings |
| MergeJoin.UnsteadyBreaksAnIndex | pkg/krt/mergejoin.go:89-106 | otherwise an index that tells the stored object from all others goes wrong |
| MergeJoin.AgreeIsSteady | pkg/krt/mergejoin.go:296-341 | with agreeing calculations every event of a batch meets that condition, repeated keys included |
| MergeJoin.TornBatch | pkg/krt/mergejoin.go:222-341 | calculations that differ within a batch leave outputs right and an index stale |
| MergeJoin.SnapshotAgrees | pkg/krt/mergejoin.go:343-354 | calculations made from one snapshot of the sources agree |
| MergeJoin.MergeAnnounces | pkg/krt/mergejoin.go:222-294 | whatever was calculated, the published events link every output before the call to the one after it |
| MergeJoin.MergeJoinCollection.RefreshEvents | pkg/krt/mergejoin.go:296-341 | every rewritten event that brings an object is strict against the outputs before the batch and would make the merged object the output |
| MergeJoin.MergeJoinCollection.StoreEvent | pkg/krt/mergejoin.go:230-284 | stores or removes one object, moves the indexes by the rewritten event, and publishes a deletion twice |
| MergeJoin.MergeJoinCollection.OnSubCollectionEvents | pkg/krt/mergejoin.go:222-294 | a whole batch announces its changes; exact indexes stay exact when its calculations agree |
| MergeJoin.MergeConverges | pkg/krt/mergejoin.go:222-354 | every key without a queued batch has the merge of its present holders as output, under torn reads and with batches taken in any order |
| Static.StaticCollection.Reset | pkg/krt/static.go:151-196 | contents become the list's; the batch replays strictly iff keys are distinct; it announces the change iff, of every key held and given more than once, the object held or the first one given comes again; an exact index stays exact iff the objects given for a key fit the last of them |
| Static.GatheredIsExactIff | pkg/krt/static.go:151-196 | a key ends up in the buckets of all objects given for it, so the index is exact iff these are buckets of the last one |
| Static.EveryIndexFitsIff | pkg/krt/static.go:301-318 | that holds for every index iff all objects given for one key are equal |
| Static.StaticCollection.UpdateObject | pkg/krt/static.go:208-238 | sets one object with a strict event; quiet iff conditional and equal |
| Static.StaticCollection.DeleteObject | pkg/krt/static.go:113-127 | removes one object, if there, with a strict event |
| Static.StaticCollection.DeleteObjects | pkg/krt/static.go:130-149 | removes exactly what the filter accepts, with strict events |
| Static.StaticCollection.InitialEvents | pkg/krt/static.go:374-387 | the existing state is sent as Adds that build the contents from nothing |
| Static.ResetAnnouncesIff | pkg/krt/static.go:156-195 | what a reset publishes links every key before and after it iff repeated keys return so |
| Static.GivenAnnouncedIff | pkg/krt/static.go:156-182 | a key held and given is announced iff it is given once, or the object held or the first one given comes again |
| Static.TakingsOnTrack | pkg/krt/static.go:156-182 | the events for the objects given replay strictly to them and the rest as long as no key repeats, and not after |
| Static.RepeatedKeyMisses | pkg/krt/static.go:156-182 | a key held as one object and given as two others: a query is not affected although its answer changes |
| Listener.StepKeepsInv | pkg/krt/processor.go:241-319 | every send, acceptance, hand-over and handling keeps order, count and sync state right |
| Listener.DeliveryIsFifo | pkg/krt/processor.go:253-319 | what is handled is a prefix of what was accepted; the rest is with the loop, in the slot and in the ring, in order |
| Listener.TrackerIsExact | pkg/krt/processor.go:327-373 | the count is the initial events still to be handled and covers the notification in hand; the sync channel closes at most once, and exactly when the parent-synced signal was processed and the count was zero then or later |
| Listener.SendCounts | pkg/krt/processor.go:241-251 | counting a set before it is sent keeps the count at the initial events still to be handled |
| Listener.CountingTracker.ParentHasSynced | pkg/krt/processor.go:344-357 | syncs at once with nothing left, else remembers the signal, never closes twice |
| Listener.CountingTracker.Finished | pkg/krt/processor.go:364-373 | counts down, and syncs when the remembered signal's last initial event is done |
| Listener.ProcessorListener.BeginSend | pkg/krt/processor.go:241-251 | a sender counts an initial set, then waits |
| Listener.ProcessorListener.Receive | pkg/krt/processor.go:270-281 | an accepted notification goes to the free slot, else to the end of the ring |
| Listener.ProcessorListener.Dispatch | pkg/krt/processor.go:263-269 | a hand-over takes the slot's notification and refills the slot from the ring |
| Listener.ProcessorListener.RunOnce | pkg/krt/processor.go:289-319 | the handler is called once per non-empty batch, and the tracker moves by the kind of notification |
| Debouncer.StepKeepsInv | pkg/krt/debouncer.go:98-158 | every case of the loop keeps conservation, timers, sync flag and stop handling right |
| Debouncer.DebouncerConserves | pkg/krt/debouncer.go:91-158 | flushed, pending and buffered values are the accepted ones in order; on return all values accepted before stop have been flushed, once |
| Debouncer.DelayIsBounded | pkg/krt/debouncer.go:125-139 | while a value is held back, a timer is armed at the receipt of the first one plus the maximum delay |
| Debouncer.MergeDistributions | pkg/krt/processor.go:159-176 | a flush distributes all events in order, initial iff some constituent was |
| Debouncer.StreamIsPreserved | pkg/krt/processor.go:159-176 | debouncing re-cuts the event stream into batches and never changes it |
| Debouncer.Loop.Take | pkg/krt/debouncer.go:125-135 | a received value restarts the debounce timer and starts the maximum timer only if it is not running |
| Debouncer.Loop.StopAndDrain | pkg/krt/debouncer.go:140-155 | stopping drains the channel and flushes everything accepted |
| DemandCache.GetKeepsInv | pkg/demandcache/cache.go:107-152 | a get keeps table, pins, idle list and leases consistent, whatever the source answers |
| DemandCache.ReleaseKeepsInv | pkg/demandcache/cache.go:154-168 | so does a release, of a pinned, a failed and an orphaned entry |
| DemandCache.CloseKeepsInv | pkg/demandcache/cache.go:208-219 | so does closing with demands in flight |
| DemandCache.LeaseConservation | pkg/demandcache/cache.go:107-248 | in every interleaving a lease is released at most once, is unreleased exactly while its entry is in the table, and is released after Close |
| DemandCache.PinsAndCapacity | pkg/demandcache/cache.go:137-168 | users are the handles out; the idle list is exactly the unpinned entries, newest first; over capacity only if all are pinned |
| DemandCache.OrphanRelease | pkg/demandcache/cache.go:154-168 | a late release of an orphan leaves its replacement and all lists alone |
| DemandCache.PruneRemovesOldest | pkg/demandcache/cache.go:229-239 | pruning removes exactly the suffix of the idle list that capacity and expiry demand |
| DemandCache.PruneSparesPinned | pkg/demandcache/cache.go:229-239 | pruning never releases a pinned entry |
| DemandCache.NothingExpiredIsLeft | pkg/demandcache/cache.go:229-239 | after pruning no idle entry is expired, though only the tail is looked at |
| DemandCache.InvIsLinked | pkg/demandcache/cache.go:229-248 | in every state kept by the steps, table and idle list name existing entries, as the methods require |
| DemandCache.Cache.RemoveEntry | pkg/demandcache/cache.go:241-248 | takes an entry off table and idle list and releases its lease |
| DemandCache.Cache.PruneEntries | pkg/demandcache/cache.go:229-239 | the loop performs the pruning step |
| DemandCache.Cache.BeginGet | pkg/demandcache/cache.go:107-152 | the locked part of a get performs the get step, with its three outcomes |
| DemandCache.Cache.EndGet | pkg/demandcache/cache.go:154-168 | a release performs the release step |
| DemandCache.Cache.CloseAll | pkg/demandcache/cache.go:208-219 | closing releases every lease in the table once |
| ExpiryLoop.TailIsEarliest | pkg/demandcache/cache.go:188-191 | the deadline of the tail is the earliest of all idle entries |
| ExpiryLoop.MoveKeepsInv | pkg/demandcache/cache.go:179-226 | rounds, wake-ups, gets, releases and shutdown keep the loop's wake-up early enough |
| ExpiryLoop.NeverOversleeps | pkg/demandcache/cache.go:179-226 | while the loop sleeps, for every idle entry it has been signalled or its timer is armed no later than the entry expires |
| ExpiryLoop.SleepsWithoutExpired | pkg/demandcache/cache.go:185-203 | when it goes to sleep, no idle entry is expired |
| ExpiryLoop.Runner.RunOnce | pkg/demandcache/cache.go:185-196 | one round prunes, arms the timer for the tail, and stops when the cache is closed |
| Cache.HitsAreLastWrites | pkg/cache/cache.go:48-109 | after any calls a hit is the last accepted write, not removed, before its deadline; unbounded, every such write hits |
| Cache.BoundedOnlyMisses | pkg/cache/cache.go:48-148 | the LRU form differs from the map form by extra misses only |
| Cache.OrderStep | pkg/cache/cache.go:95-148 | the LRU order lists every stored key once, within capacity |
| Cache.EvictsLeastRecentlyUsed | pkg/cache/cache.go:48-102 | after any calls, a key lost to another key's call is lost to an accepted write of a new key into a full cache, and was used less recently than every key that stays |
| Cache.PutOrder | pkg/cache/cache.go:95-102 | adding never evicts the key just added |
| Cache.ValueCache.GetValue | pkg/cache/cache.go:48-65 | a hit is promoted and not extended, an expired entry is removed |
| Cache.ValueCache.SetValue | pkg/cache/cache.go:69-78 | stores with the default deadline |
| Cache.ValueCache.SetWithExpiration | pkg/cache/cache.go:83-92 | accepted iff there is no deadline or it lies ahead |
| Cache.ValueCache.RemoveValue | pkg/cache/cache.go:105-109 | removes the key from table and order |
| Dns.SelectMembers | pkg/dns/records.go:75-90 | exactly the unmapped addresses of the family, each once |
| Dns.SelectAddresses | pkg/dns/records.go:75-90 | the loop computes that selection, in order |
| Dns.SelectTwice | pkg/dns/cache.go:104-106 | selecting a family from a stored record is selecting it from the addresses given |
| Dns.RevisionCheck | pkg/dns/cache.go:72-84 | equal revisions mean no update since the lookup began, unless the number is a multiple of 2^64 |
| Dns.StepKeepsInv | pkg/dns/cache.go:56-102 | lookups, answers, failures and record updates keep every cached answer justified |
| Dns.NoStaleResurrection | pkg/dns/cache.go:56-102 | no host has both a record and a cached answer; a cached answer's lookup began after the host's last update |
| Dns.HitsAreLive | pkg/dns/client.go:57-87 | a cached answer is what its lookup brought, served strictly before lookup start plus TTL |
| Dns.RecordWins | pkg/dns/client.go:57-94 | a lookup that finds a record on its return yields the record's addresses of the family or ErrNoAddresses |
| Dns.Client.StartResolve | pkg/dns/cache.go:56-70 | answers from record or live cache entry, or hands out the revision and start time |
| Dns.Client.EndResolve | pkg/dns/cache.go:72-84 | stores the answer only without a record, at an unchanged revision, with addresses and before its deadline |
| Dns.Client.UpdateRecords | pkg/dns/cache.go:86-102 | sets or removes the record, bumps the revision, forgets all families of the host |
| Dns.Client.SetRecord | pkg/dns/records.go:27-42 | accepts iff there are addresses, all valid and without zone; changes nothing otherwise |
| Sds.LocalSecretNames | pkg/gatewayagent/sds.go:129-139 | refuses iff some name is not a local secret, else lists exactly the requested names, each once |
| Sds.NamesAsSet | pkg/gatewayagent/sds.go:129-139 | neither order nor repetition of requested names matters |
| Sds.StepKeepsInv | pkg/gatewayagent/sds.go:43-104 | opening, requests, wake-ups, generation, delivery, hang-up and identity changes keep the stream invariant |
| Sds.NoLostUpdate | pkg/gatewayagent/sds.go:43-104 | a live stream with names has last been sent the current version, or holds a wake-up, or has just taken one |
| Sds.VersionsAreContents | pkg/gatewayagent/sds.go:106-127 | equal versions and names imply equal secrets, across streams |
| Sds.NoncesIncrease | pkg/gatewayagent/sds.go:43-104 | nonces strictly increase, and acknowledgements are compared with the last one |
| Sds.RequestOutcome | pkg/gatewayagent/sds.go:43-104 | in every reachable state a current acknowledgement for the same set of names changes nothing, so does a stale nonce; a first request or one for other names sends; a name that is not local ends the stream |
| Sds.LocalSds.NotifyLocked | pkg/gatewayagent/identity.go:111-119 | bumps the version once and leaves a wake-up with every client, full slots included |
| Sds.LocalSds.SetCertificate | pkg/gatewayagent/identity.go:179-182 | a new certificate comes with its expiry and a notification |
| Sds.LocalSds.PollRoot | pkg/gatewayagent/identity.go:223-233 | a changed root notifies and makes the renewal start over, an unchanged one does nothing |
| Sds.LocalSds.GenerateSecrets | pkg/gatewayagent/sds.go:106-127 | the version and all requested secrets, or nothing if the certificate is asked for and missing or expired |
| Sds.LocalSds.HandleRequest | pkg/gatewayagent/sds.go:74-93 | one request, up to the decision to send |
| Sds.LocalSds.HandleWake | pkg/gatewayagent/sds.go:94-99 | a wake-up leads to a response iff the stream has names |
| Sds.LocalSds.Prepare | pkg/gatewayagent/sds.go:43-70 | a response gets the next nonce; one that cannot be generated ends the stream (`OpenStream`, `Delivered` and `CloseStream` are the rest of the loop) |
| Trust.Merge | pkg/clienttrust/bundle.go:53-120 | the canonical bytes and sorted warnings of the union; else the first bad source and its fault, or no sources, or too large |
| Trust.AddSource | pkg/clienttrust/bundle.go:57-98 | one source adds exactly its certificates, each once, with warnings for new ones that expire soon; or its first fault |
| Trust.Note | pkg/clienttrust/bundle.go:86-92 | a known certificate changes nothing, a new one is tabled and warned about iff it expires soon |
| Trust.ScanEncoded | pkg/clienttrust/bundle.go:109-114 | a written bundle reads back as the certificates it was made of, in order |
| Trust.SourcesAreASet | pkg/clienttrust/bundle.go:52-120 | permuting or repeating sources changes neither bytes nor warnings nor success |
| Trust.MergeIsAFixedPoint | pkg/clienttrust/bundle.go:52-120 | merging a merged bundle gives it back |
| Trust.CanonicalizingFirstChangesNothing | pkg/clienttrust/bundle.go:52-120 | merging canonicalized sources and merging raw ones give the same bytes, or both fail |
| Trust.PartsMerge | pkg/clienttrust/bundle.go:115-118 | the size limit never rejects a source of a merge that succeeds |
| Trust.CallersAgree | pkg/compiler/gateways.go:260-302 | the compiler's and the deployer's way of adding sources to the baseline agree, on success and on failure, with one plain merge |

## Left out

- Nested merge joins (`pkg/krt/nestedjoinmerge.go`): replacing whole sub-collections has open questions of its own in the source.
- Unchecked joins and index lookups of joins: they do not resolve priorities, so there is no first-wins result to state.
- Exactly-once events of joins: Old values and repeated deletes depend on races; join results are stated as states.
- Strict replay for informers and debounced collections: duplicate Adds are allowed there by design.
- Registration races of handlers: `Listener` covers any order in which notifications are accepted, not which order `Insert` and `Distribute` produce.
- Stopping and unregistering listeners: after stop, notifications are dropped.
- Termination with transformations that ask unboundedly many queries: `Incremental.Drains` needs a bound.
- Object augmentation, debug dumps, metrics, logging and the reflection behind keys and equality.
- Listing of a fetched join: its sources are read one after another; the model reads a key of a fetched collection at once.
- Filters.Fetch: is stated for one snapshot, because the moments at which keys are read belong to `Incremental`, where they are single steps (`Incremental.FetchedOk`).
- Host name normalization (`pkg/dns/records.go:56-72`): hosts are taken as normalized.
- DNS transport, gRPC, TLS, X.509 parsing, certificate requests, timers of the renewal loop and file polling: their results enter as parameters.
- Trust.CallersAgree: covers configurations with a baseline; the early returns of both callers without additional sources or without a baseline are the same single tests.
- Concrete PEM and base64 text: `Trust.Codec` states what is used of it.
- `pkg/inject`, `pkg/features`, the resource builders of `pkg/compiler`, the rest of `pkg/gatewaydeployer`, commands and benchmarks: templates, tables and library calls.
