# Slancha mesh: verified models

A Dafny 4.11 model of the stateful core of the mesh router, its registry and its tune package, with proofs of
what the design promises over whole runs. `dafny verify dfyconfig.toml` checks everything.

How to read it: a pure file gives each operation as a function on a value (the specification) and proves the
promises about it; a class file gives the operation in the source's own form, fields updated step by step and
loops with invariants, and proves that it computes that function.

| file | models |
|---|---|
| `JobTable`, `JobOps`, `JobRuns`, `JobLaws` | the rows of `mesh/job_store.py`, one operation, and runs: refinement of a plain TTL map, leases, key conservation; what each operation promises, read from the history |
| `JobStore` | the class `VideoJobStore` |
| `OwnerProtocol`, `OwnerHistory`, `OwnerSafety` | create, delete and cleanup handlers of `mesh/router_app.py` over the store, as an interleaving system; what led to each of its states; who may delete a job |
| `Grouping`, `RegistryLog`, `Compaction`, `RegistryRuns`, `RegistryLaws` | the event log of `mesh/registry.py`, replay, compaction, key pins, runs with failures and crashes; what each step promises, and what pins and urls owe to the history |
| `Registry`, `MeshAllocation` | the class `MeshRegistry`, and the allocator run on its log before and after compaction |
| `Sorting`, `Scoring`, `Allocator`, `Placement`, `TieredPlacement`, `PlanLaws` | `mesh/allocator.py`: scores, greedy covering, fills, tiers, secondaries, replicas; what a plan says of alternates, coverage and tiers |
| `UsageSpool`, `SpoolRuns` | `mesh/usage.py`: the spool file, the class `SpoolDrainSink`, and emits interleaved with drains and crashes |
| `RuntimeHealth`, `HealthRuns`, `Fallback`, `FallbackOrder` | `mesh/runtime_health.py` and the non-streaming fallback loop of the chat handler |
| `SnapshotRefresh` | the staleness-tolerant discovery snapshot |
| `Curation`, `AuditChain`, `IdleTraining` | the tune package: holdout curation, the audit chain, idle-window training |

Conventions. Ids, tokens and hashes that the code only compares and orders are numbers or strings. A store
operation is one atomic step; the clock, fresh ids, upstream replies and failures of the durable store are
arguments or choices of the environment. Exceptions are values of a reply type. Times are reals, or microseconds
where the source uses `datetime` differences.

Where the code differs from its own documentation the model follows the code:

- Compaction is documented to leave the snapshot and the allocator's result unchanged. It keeps the snapshot only up
  to the order of its lists, and the allocator's input only up to the order of its nodes: replay lists a node at its
  first heartbeat, the compacted log at its last. `Compaction.OrderKeptIff` and `Compaction.HardwareOrderKeptIff` say
  exactly when those orders survive. The allocator's result may change, because ties go to the node listed first:
  `MeshAllocation.CompactionCanChangeAllocation` swaps the specialists of two equal machines. It is kept whenever the
  order of the input is (`MeshAllocation.AllocationKept`). Whether a node gets a specialist at all does not depend on
  the order exactly when the listings under its hardware id are all fitted by some card or none is
  (`MeshAllocation.OrderFreeIff`); senders may share a hardware id, and then compaction can give that id a specialist it
  did not have (`MeshAllocation.CompactionCanServeAnother`).
- An audit row is hashed as the recorder builds it and checked as JSON reads it back. `AuditChain.BuiltLogVerifies` has
  the exact condition for a log to verify: no payload brings a `row_hash` of its own, which is hashed and then replaced
  (`AuditChain.StaleRowNeverVerifies`), and every value brought is written the same after it was read back, which a
  dict with the integer keys 9 and 10 is not (`AuditChain.IntegerKeysNeverVerify`).
- A client error that answers a half-open probe is recorded without naming its binding, and an exception of the call
  other than `httpx.HTTPError` and `OSError` is not recorded at all, so that circuit stays half-open.
  `Fallback.ProbesSettled` and `Fallback.ProbesSettledAtEnd` say exactly when a reservation survives,
  `Fallback.ClientErrorKeepsProbe` and `Fallback.ExceptionKeepsProbe` give instances, and `Fallback.RecordsMissing`
  counts the call that is not recorded.
- Pins rebuilt from a compacted log are the keys of the last heartbeats, not the first ones.
  `RegistryRuns.PinsSurviveCompactionIff` says when that is the same; in every reachable state it is.

## Model

| member | source | states |
|---|---|---|
| JobTable.CleanupTidies | mesh/job_store.py:165-212 | One lazy cleanup pass retires exactly the first `cleanup_batch` expired live rows in query order, touches no other live row, and keeps the table well formed. |
| JobTable.CleanupProgress | mesh/job_store.py:165-212 | Each pass leaves exactly `cleanup_batch` fewer expired live rows, down to none, duplicates in one batch included. |
| JobTable.BatchIsFirst | mesh/job_store.py:168-174 | The rows of a batch are taken in the order of expiry, then id, the earliest first. |
| JobTable.CleanupReports | mesh/job_store.py:176-210 | The hidden row that stands for a retired job says of node, specialist, status and update time what the last retired row of that upstream job said. |
| JobTable.CleanupKeepsVisible | mesh/job_store.py:165-212 | A pass neither hides a visible job nor changes it, nor makes one visible. |
| JobTable.CleanupKeepsKeys | mesh/job_store.py:176-210 | Merging duplicate rows neither adds nor loses an upstream key. |
| JobOps.DecideClaims | mesh/job_store.py:422-511 | A granted claim reports the row it leases, whose lease was free, which is hidden for a cleanup claim and live and unexpired for a delete claim. |
| JobOps.ApplyWellFormed | mesh/job_store.py:165-547 | Every operation keeps at most one pending cleanup row per upstream key by its own logic, without relying on the unique index. |
| JobOps.KeyConservation | mesh/job_store.py:218-547 | An upstream key leaves the table only with a successful confirm or delete of a row carrying it, and enters it exactly with an accepted create or enqueue. |
| JobOps.RowLeaves | mesh/job_store.py:165-212 | A single row leaves the table only by its own successful confirm or delete, or, having expired, merged into a hidden row of its upstream key. |
| JobRuns.StoreRefinesTtlMap | mesh/job_store.py:165-420 | Refinement over all runs: through `get` the store is a plain map with a time to live, whatever the batch size, merging, claims and quarantine; the replies of `create`, `get`, `update_status` and `delete` are those that map gives, and a delete claim hands out the job it holds. |
| JobRuns.VanishedStaysVanished | mesh/job_store.py:381-420 | A vanished public id never returns, and a visible job keeps its owner fields from creation on. |
| JobRuns.LeaseExclusive | mesh/job_store.py:422-547 | A second claim on a row is granted only after the first was given back with its token or its lease has ended, also when the row turns from live to hidden meanwhile. |
| JobRuns.SupersededTokenIsDead | mesh/job_store.py:513-547 | A superseded or used token never again confirms, releases or quarantines the row. |
| JobRuns.KeysLeaveByConfirmation | mesh/job_store.py:411-547 | Over runs, a key that lost all its rows was given up by a successful delete or confirm in between. |
| JobRuns.HiddenRowsUnique | mesh/job_store.py:165-212 | In every reachable state a key has at most one pending cleanup row. |
| JobRuns.ClaimsFollowQueue | mesh/job_store.py:463-511 | Inside one lease window, k cleanup claims hand out the first k claimable rows once each in (expires_at, public_id) order, then nothing. |
| JobLaws.LeaseIsHistory | mesh/job_store.py:422-547 | In every run the lease of a row is the one that was granted last, unless it was given back with its token since. |
| JobLaws.TokenWorksIff | mesh/job_store.py:513-547 | A confirm, release or quarantine succeeds exactly with the token that was granted last and not given back since, whatever the time, a quarantine only of a hidden row. Then a confirm removes the row, a release frees it and a quarantine parks it, and no other row changes; otherwise nothing does. |
| JobLaws.DeleteClaimIff | mesh/job_store.py:422-461 | A delete claim is granted exactly when the job is alive in the plain map and the lease its history gives has ended. |
| JobLaws.CleanupClaimIff | mesh/job_store.py:463-511 | A cleanup claim is granted exactly when work waits after the pass, on the row that expired first, the smaller id first among equals. |
| JobLaws.ClaimLeases | mesh/job_store.py:422-511 | A granted claim leases the named live row, or a hidden one, until the end of the lease. |
| JobLaws.RefusedIff | mesh/job_store.py:144-149 | A create or an enqueue is refused, without a change, exactly when one of its texts is empty or longer than its limit. |
| JobLaws.OthersRefusedIff | mesh/job_store.py:397-511 | Other operations are refused only for a lease that is not positive or a bad status, without a change. |
| JobLaws.CreateStores | mesh/job_store.py:218-270 | An accepted create adds one live, unleased row that says what the request says and expires after the time to live. |
| JobLaws.UpdateWrites | mesh/job_store.py:397-409 | A status write changes status and update time of that row alone. |
| JobLaws.DeleteDrops | mesh/job_store.py:411-420 | A delete that succeeds removes the row; after the pass no delete touches another one. |
| JobLaws.OnlyTidies | mesh/job_store.py:381-511 | Reads, sweeps and claims that are not granted only run the pass. |
| JobLaws.EnqueueCovers | mesh/job_store.py:272-379 | An accepted enqueue leaves a live or hidden row of its key: the first one there is, live before hidden before quarantined, is used as it is, or requeued if it was quarantined; a new or requeued one waits for the cleanup loop from now on and says what the request says. No other row changes. |
| JobLaws.QuarantineLasts | mesh/job_store.py:525-539 | A quarantined row stays as it is, and is handed to nobody, until its key is enqueued again. |
| JobStore.VideoJobStore.Open | mesh/job_store.py:51-64 | The store opens exactly for a positive TTL and a batch of at least one. |
| JobStore.VideoJobStore.TidyExpired | mesh/job_store.py:165-212 | The loop over the selected rows computes the cleanup pass and returns how many rows it handled. |
| JobStore.VideoJobStore.CleanupExpired | mesh/job_store.py:214-216 | The periodic sweep is one such pass. |
| JobStore.VideoJobStore.Create | mesh/job_store.py:218-270 | Computes the specified new table and reply for `create`, refusing invalid fields before any change. |
| JobStore.VideoJobStore.EnqueueCleanup | mesh/job_store.py:272-379 | Computes the specified new table and reply for `enqueue_cleanup`: reuse a row of the key, requeue a quarantined one, or insert. |
| JobStore.VideoJobStore.Get | mesh/job_store.py:381-395 | Computes the specified table and reply for `get`, with the cleanup pass it runs first. |
| JobStore.VideoJobStore.UpdateStatus | mesh/job_store.py:397-409 | The write and the second read at a later clock value compose; an invalid status changes nothing. |
| JobStore.VideoJobStore.Delete | mesh/job_store.py:411-420 | Computes the specified table and reply for `delete`. |
| JobStore.VideoJobStore.ClaimDelete | mesh/job_store.py:422-461 | Computes the specified table and reply for `claim_delete`. |
| JobStore.VideoJobStore.ClaimCleanup | mesh/job_store.py:463-511 | Computes the specified table and reply for `claim_cleanup`. |
| JobStore.VideoJobStore.ReleaseDelete | mesh/job_store.py:513-523 | Computes the specified table and reply for `release_delete`. |
| JobStore.VideoJobStore.QuarantineCleanup | mesh/job_store.py:525-539 | Computes the specified table and reply for `quarantine_cleanup`. |
| JobStore.VideoJobStore.ConfirmDelete | mesh/job_store.py:541-547 | Computes the specified table and reply for `confirm_delete`. |
| OwnerProtocol.StepKeepsInv | mesh/router_app.py:1880-1970 | Every step of every handler keeps the ownership invariant: rows and claims belong to jobs that existed, and a worker confirms only what the owner confirmed. |
| OwnerProtocol.KeysLeaveAfterDeletion | mesh/router_app.py:2480-2647 | Over runs the router gives up an upstream key only after the owner confirmed the deletion of that very job. |
| OwnerProtocol.RowsLeaveAfterDeletion | mesh/router_app.py:2480-2647 | Over runs each single row is given up only after the owner confirmed the deletion of its job, or merged into a hidden row of the same job, which then covers it until the deletion is confirmed. |
| OwnerProtocol.EmptyStart | mesh/job_store.py:51-112 | A router over an empty store is a possible start. |
| OwnerHistory.NoSilentOrphan | mesh/router_app.py:2140-2186 | Over every interleaving, an upstream job whose create reply was parsed and whose deletion no answer of the owner confirmed is in the hands of its create handler or covered by a row with its key; or that handler did all three in this order and each failed: the write of the row, the deletion at the owner, the cleanup enqueue. |
| OwnerHistory.RouteCreator | mesh/router_app.py:2140-2186 | Each attempt of a create handler ends it, or, exactly when it failed, moves it on to the next: write, then deletion, then enqueue, after which it ends in any case. No other action touches it. |
| OwnerHistory.ConfirmedIff | mesh/router_app.py:1878-1922 | A deletion counts as confirmed exactly after an answer of the owner to a create handler or to a worker on that job. |
| OwnerHistory.WorkersFollowAnswers | mesh/router_app.py:1924-1970 | Over every interleaving a worker acts on a claim it was granted, confirms only after the owner confirmed, gives a claim back only for a delete request that failed or a job of another protocol, and quarantines only a job of another protocol, about which it never asks the owner. |
| OwnerHistory.RouteWorker | mesh/router_app.py:2480-2647 | The owner's answer makes a worker confirm, or release, or for the cleanup loop let the lease run out; the store operation that follows ends it. |
| OwnerHistory.WritesFailIff | mesh/router_app.py:2140-2176 | Row write and cleanup enqueue fail only with the store, or for a text that is empty or too long. |
| OwnerHistory.WriteShows | mesh/router_app.py:2140-2152 | A write that succeeds makes the job visible under its public id and ends the handler. |
| OwnerHistory.EnqueueShows | mesh/router_app.py:2160-2174 | An enqueue that succeeds leaves a row of the key that is not quarantined, and ends the handler. |
| OwnerHistory.DeleteRequestWorksIff | mesh/router_app.py:1841-1867 | A delete request gets to work exactly when the job is alive and its row is not leased. |
| OwnerHistory.CleanupWorksIff | mesh/router_app.py:1931-1937 | The cleanup loop gets to work exactly when work waits after the pass. |
| OwnerHistory.ClaimsAreLeases | mesh/router_app.py:1848-1937 | Claims are taken for 300 seconds, on the row that is named or on the first of the queue. |
| OwnerHistory.WorkerStores | mesh/router_app.py:1938-1956 | As long as its token holds the row, a worker's last step removes it, frees it or parks it; with a failed write or a lost claim nothing changes. |
| OwnerHistory.ServedByStore | mesh/job_store.py:381-409 | Other requests are answered as the plain map with a time to live answers them, and run one bounded pass. |
| OwnerSafety.LiveJobsAreKept | mesh/router_app.py:1930-1970 | Over every interleaving, while the row of a job created in this run is live, its deletion is confirmed by the owner, or in the hands of any worker, only if a delete request was granted a claim of that job before: cleanup never deletes a job in use. |
| OwnerSafety.CleanupClaimsHidden | mesh/job_store.py:463-511 | What a cleanup worker is handed is a hidden row, also after the pass that runs first. |
| OwnerSafety.RowComesFrom | mesh/job_store.py:165-547 | No operation gives a row another upstream job or makes a hidden one live again; new rows come from an accepted create or enqueue. |
| RegistryLog.LatestIsCurrent | mesh/registry.py:436-451 | Replay holds exactly one heartbeat per node, its last one unless it left after it; the `left` flags never exclude anything more. |
| RegistryLog.LeftIff | mesh/registry.py:436-449 | A node is flagged as left exactly when the last event about it is its departure. |
| RegistryLog.SnapshotOrder | mesh/registry.py:452-504 | A snapshot depends on the replayed heartbeats only up to the order of its binding and coverage lists. |
| RegistryLog.NodesShown | mesh/registry.py:452-483 | The snapshot lists exactly the nodes with a current heartbeat and shows of each what that heartbeat says, its url or else the last known one, and it as unreachable exactly when it is older than 300 seconds. |
| RegistryLog.BindingsShown | mesh/registry.py:484-496 | The bindings of a specialist are exactly those of the models that current heartbeats list for it, with the model's url before the node's. |
| RegistryLog.CoverageShown | mesh/registry.py:494-496 | A domain is covered by exactly the nodes that currently load a specialist the catalog puts in it. |
| Compaction.CompactionUnobservable | mesh/registry.py:381-414 | For every log and continuation, compacting first gives the same node map, the same bindings and coverage as multisets and the same latest hardware, across departures and rejoins. |
| Compaction.CompactOnlyLatest | mesh/registry.py:398-407 | After compaction every heartbeat is its node's last, and nothing is added. |
| Compaction.CompactKeepsOthers | mesh/registry.py:402-407 | Compaction leaves the events that are not heartbeats alone: each copy, in order. |
| Compaction.ReplayOfCompacted | mesh/registry.py:442-449 | A compacted log is replayed in the order of the log. |
| Compaction.OrderKeptIff | mesh/registry.py:398-407 | Compaction keeps the snapshot's order exactly when the nodes were already listed by their last heartbeat. |
| Compaction.OrderCanChange | mesh/registry.py:386-390 | A log of three heartbeats whose snapshot order compaction changes, against the docstring. |
| Compaction.HardwareOrderKeptIff | mesh/registry.py:523-528 | Compaction keeps the order of the allocator's input exactly when the nodes ever heard, departed ones included, were already listed by their last heartbeat. |
| Compaction.CompactKeepsHeard | mesh/registry.py:523-528 | In any order that input holds the same heartbeats. |
| MeshAllocation.AllocationKept | mesh/registry.py:508-538 | Compaction keeps the allocator's whole plan when the nodes ever heard were already listed by their last heartbeat. |
| MeshAllocation.SameNodesServed | mesh/registry.py:508-538 | Under a hardware id whose listings are all fitted by some catalog card, or none is, compaction never changes whether the node gets a specialist: it does exactly if some card fits. |
| MeshAllocation.OrderFreeIff | mesh/registry.py:523-528 | That condition is exact: whether a node gets a specialist is the same for every order of the allocator's input and every strategy if and only if its listings agree on whether some card fits. |
| MeshAllocation.LastListingDecides | mesh/allocator.py:246-268 | best_per_machine gives an id a specialist exactly when some card fits its last listing. |
| MeshAllocation.CompactionCanServeAnother | mesh/registry.py:386-390 | For two senders that share a hardware id and report a fitted and an unfitted machine, a log of three heartbeats whose compaction gives that id a specialist it did not have. |
| MeshAllocation.CompactionCanChangeAllocation | mesh/registry.py:386-390 | For any two machines and two tier-1 cards that tie, a log of three heartbeats whose compaction swaps the specialists of the machines. |
| MeshAllocation.RunAllocator | mesh/registry.py:508-538 | Allocates on the registry's log and records exactly that allocation; a failed append returns nothing and leaves the read model alone. |
| RegistryRuns.ReadModelMatchesHistory | mesh/registry.py:254-262 | Over runs with failed appends, failed compactions and crashes, the read model gives the snapshot of the full history up to order. |
| RegistryRuns.BeatBoundsLog | mesh/registry.py:311-313 | After any recorded heartbeat, also when the store's own compaction fails, the log is within `max_events` or every heartbeat in it is its node's last. |
| RegistryRuns.RunBounded | mesh/registry.py:292-313 | The same in every run, where the log still reads like the full history. |
| RegistryRuns.PinsSurviveCompactionIff | mesh/registry.py:248-252 | Replay of a compacted log rebuilds the same pins exactly when each pinned node's last heartbeat carries its first key. |
| RegistryRuns.AgreeingPinsSurvive | mesh/registry.py:248-252 | It does so for every log in which a node's keyed heartbeats agree. |
| RegistryRuns.RunPinned | mesh/registry.py:266-313 | In every reachable state keys agree in every log, and with a durable store no durable pin is ever lost or changed. |
| RegistryRuns.DurableKeyIsForever | mesh/registry.py:276-290 | Once a keyed heartbeat is durable, every later accepted heartbeat of that node carries that key, across compaction, failures, crash and replay. |
| RegistryLaws.BeatReplies | mesh/registry.py:266-313 | A heartbeat is refused exactly when its certificate is not a verified one of the pinned key, or there is none although one is required or a key is pinned; it fails exactly when the store fails to append it or, over the bound, to compact. |
| RegistryLaws.BeatWrites | mesh/registry.py:254-313 | A refused heartbeat writes nothing; an accepted one its pin and url even when the append fails, and otherwise its event in the read model, compacted beyond the bound, and in the durable log, replaced by the compacted one when its store compacts. |
| RegistryLaws.EventWrites | mesh/registry.py:254-262 | Any other event goes to both logs, or nowhere exactly when the append fails. |
| RegistryLaws.CrashReboots | mesh/registry.py:242-252 | A restart has the durable log, no urls, and as pins the first key each node has in that log. |
| RegistryLaws.CrashKeepsAppend | mesh/registry.py:254-262 | After a crash between append and reply the heartbeat is in the log although it was not acknowledged. |
| RegistryLaws.KeysArePresented | mesh/registry.py:266-290 | In every run a key that is pinned for a node or logged with it was presented for that node before, in a verified certificate that passed. |
| RegistryLaws.UrlsFollowHistory | mesh/registry.py:292-296 | In every run the url of a node is the last one that an accepted heartbeat of it gave since the last restart. |
| RegistryLaws.AppendOnlyKeepsAll | mesh/registry.py:254-262 | With an append-only store the durable log is the whole history in every run. |
| Registry.MeshRegistry.constructor | mesh/registry.py:242-252 | Boot rebuilds the read model and the first-seen pins from the durable log. |
| Registry.MeshRegistry.CheckNodeIdentity | mesh/registry.py:266-290 | The identity decision and the pin it leaves, for valid, foreign, missing and required certificates. |
| Registry.MeshRegistry.RecordEvent | mesh/registry.py:254-262 | Durable first: when the append fails the read model is untouched. |
| Registry.MeshRegistry.RecordHeartbeat | mesh/registry.py:292-313 | The whole effect of a heartbeat, with its identity check, its append and the compaction it may set off. |
| Registry.MeshRegistry.CompactHeartbeats | mesh/registry.py:381-414 | The read model is compacted, and the durable log too if its store compacts and does not fail. |
| Registry.MeshRegistry.LatestIndexes | mesh/registry.py:398-401 | The first pass finds where each node was heard last. |
| Registry.MeshRegistry.Retain | mesh/registry.py:402-407 | The second pass drops exactly the superseded heartbeats. |
| Registry.MeshRegistry.TakeSnapshot | mesh/registry.py:423-504 | The replay loops compute the specified snapshot. |
| Registry.MeshRegistry.LatestHardware | mesh/registry.py:523-528 | The allocator's input: each node's last reported hardware, in the order of the nodes' first heartbeats, departed nodes included. |
| Scoring.FiniteIffEligible | mesh/allocator.py:136-164 | A score is finite exactly when the card passes the four hard filters, whatever is hosted where. |
| Scoring.CoverageLowersScore | mesh/allocator.py:173-184 | More hosts of its domain never raise a card's score. |
| Scoring.MemoryHeldBack | mesh/allocator.py:136-160 | 8 GB of unified memory, or 4 GB of main memory without a GPU, are held back; a card that passes the other filters fits exactly what is left. |
| Scoring.ThroughputWeighs | mesh/allocator.py:166-189 | A point of throughput weighs 1.5. |
| Scoring.CoverageWeighs | mesh/allocator.py:170-172 | Hosting by n nodes costs a card 6 - 2 / (1 + n), by none nothing. |
| Scoring.NetworkWeighs | mesh/allocator.py:174-175 | Each millisecond of round trip costs 0.003, up to 50 of them. |
| Scoring.HeadroomWeighs | mesh/allocator.py:163-164 | Spare memory in units of what the card runs in weighs 0.5 each, up to two. |
| Scoring.BestCase | mesh/allocator.py:184-189 | On an empty cluster, close by and with memory to spare, a card scores 7.3 and its throughput. |
| Scoring.UncoveredComesFirst | mesh/allocator.py:149-151 | On one node a card of a domain that nobody hosts outscores every card of a hosted domain whose throughput term is less than 7/3 ahead. |
| Scoring.RankFacts | mesh/allocator.py:203-217 | The ranking holds every catalog card with its score, best first. |
| Scoring.RankStable | mesh/allocator.py:216-217 | Cards that score the same stay in catalog order. |
| Scoring.BestCard | mesh/allocator.py:248-252 | The head of the ranking is finite exactly when some card passes the filters, and no fitting card beats it. |
| Placement.BestIsBest | mesh/allocator.py:276-286 | The greedy step finds the best pair of a remaining node and an uncovered domain, or there is none. |
| Placement.CoverMatches | mesh/allocator.py:270-298 | Greedy covering keeps a one-to-one matching of suggested nodes and covered domains and stops only when no remaining node can host an uncovered domain. |
| Placement.FillPicksBest | mesh/allocator.py:246-268 | best_per_machine gives a node a fitting card that no other fitting card beats under the coverage so far, or the no-fit suggestion when none fits. |
| Placement.FillAddsNoDomain | mesh/allocator.py:299-315 | The fill phase suggests only for its own nodes and adds no domain. |
| Placement.FullSetHosts | mesh/allocator.py:270-315 | The domains a full_set plan hosts are those its greedy phase covered. |
| Placement.HalfOptimal | mesh/allocator.py:270-315 | A full_set plan hosts at least half as many domains as any placement of one fitting card per node. |
| Placement.SecondHostComesLast | mesh/allocator.py:229-232 | When two nodes host one domain, one of them could not have hosted any domain that nobody hosts. |
| TieredPlacement.TierMatches | mesh/allocator.py:342-374 | A tier keeps the matching and leaves a domain open only if no remaining node can host it. |
| TieredPlacement.TiersMatch | mesh/allocator.py:376-381 | After the tiers only tier-1, tier-2, unknown and hot tier-3 domains are covered, and such a domain is open only if no unplaced node can host it. |
| TieredPlacement.SecondMayJoin | mesh/allocator.py:471-500 | A secondary is attached exactly when some card of an uncovered tier-1 or tier-2 domain fits the filters and the room next to a primary that uses at most half of the memory, and it is such a card. |
| TieredPlacement.SecondIsBest | mesh/allocator.py:491-498 | No card that could join scores higher than the attached one. |
| TieredPlacement.AttachKeeps | mesh/allocator.py:443-514 | Attaching secondaries keeps one host per covered domain and every primary, and leaves no placed node without a secondary that could join. |
| TieredPlacement.SecondedFacts | mesh/allocator.py:333-389 | Until replicas are promoted every covered domain has exactly one host, the node that carries it as primary or secondary; primary plus secondary fit its memory; open domains are open for a reason. |
| TieredPlacement.ChosenFits | mesh/allocator.py:394-407 | A replica is found exactly when some card fits: the best card of the heaviest domain when one of those fits, else the best of all. |
| TieredPlacement.HeavyIsHottest | mesh/allocator.py:394-397 | The replica domain is the one with the largest share, the first of equals, "general" without traffic. |
| TieredPlacement.ReplicasGoToHottest | mesh/allocator.py:393-426 | In a tiered plan a node that the tiers left without a card gets one of that domain whenever one fits it. |
| TieredPlacement.EveryNodeIsAnswered | mesh/allocator.py:220-240 | Under each strategy every listed node id gets a suggestion: a card that fits a listing of it, or no primary, and then no catalog card passes the filters of its last listing. |
| TieredPlacement.DistinctNodeIsAnswered | mesh/allocator.py:220-240 | With distinct ids a node has no primary exactly when no catalog card passes its hard filters. |
| PlanLaws.PlaceLists | mesh/allocator.py:289-297 | The alternates of a covering pick are the best three fitting cards of other specialists, best first, under the coverage that counts the pick; all of them when there are fewer. |
| PlanLaws.PromoteLists | mesh/allocator.py:417-426 | So are those of a replica, under the coverage before it. |
| PlanLaws.FillLists | mesh/allocator.py:246-268 | Those of a filled node are the best three fitting cards after its own. |
| PlanLaws.CoverageIsHosts | mesh/allocator.py:220-440 | Under each strategy the coverage that scores are computed with counts every node as a host of what its suggestion carries, and with distinct ids no other node. |
| PlanLaws.TiersInOrder | mesh/allocator.py:376-381 | The tiers are filled in order: a node whose primary belongs to a later tier fits no open domain of an earlier one. |
| Allocator.TopUncovered | mesh/allocator.py:279-283 | The inner loop with its break finds the first usable entry of a ranking. |
| Allocator.BestPair | mesh/allocator.py:277-286 | The loops compute the best pair that `Placement.BestIsBest` describes. |
| Allocator.CoverGreedily | mesh/allocator.py:342-374 | The covering loop computes the specified state, for full_set and for a tier. |
| Allocator.FillRest | mesh/allocator.py:246-268 | The best-per-machine loop computes the specified fill. |
| Allocator.FillSecondaries | mesh/allocator.py:464-514 | The loop over a copy of the suggestions computes the specified state. |
| Allocator.PromoteReplicas | mesh/allocator.py:393-426 | The replica loop computes the specified state with the heaviest domain. |
| TieredPlacement.AllocateTiered | mesh/allocator.py:321-440 | The tiered strategy computes the plan the lemmas speak of. |
| TieredPlacement.AllocateCluster | mesh/allocator.py:220-318 | `allocate_cluster` computes that plan for each strategy and answers every node. |
| UsageSpool.ReadEncoded | mesh/usage.py:338-353 | Round trip: the rows written to the spool file are the rows read back. |
| UsageSpool.RemovesExactly | mesh/usage.py:394-407 | Removal by identity takes exactly the consumed copies, as a multiset difference. |
| UsageSpool.RemovesPrefix | mesh/usage.py:394-407 | When the consumed rows are at the head, removal by identity drops that prefix and keeps the rest in order. |
| UsageSpool.ReadsLineByLine | mesh/usage.py:338-342 | Any file is read line by line; lines of white space are skipped, and the last one needs no newline. |
| UsageSpool.EmitAdmitsIff | mesh/usage.py:293-318 | An event enters the spool exactly when it holds no line break, takes at most 64 KiB with its newline and leaves the file within the hard cap; otherwise the file stays as it was. |
| UsageSpool.VerdictMeans | mesh/usage.py:409-421 | A reply of the 200s means delivered and one of the 400s refused; no reply, or any other, leaves the row for later. |
| UsageSpool.ResultAccounts | mesh/usage.py:366-392 | In terms of the replies: a pass is done with the rows before the first that is neither taken, refused nor corrupt, and its four counts are the numbers of rows that were. |
| UsageSpool.SpoolDrainSink.Emit | mesh/usage.py:293-335 | Appends the row, or drops the newest event for its size, a line break or the hard cap, and counts it. |
| UsageSpool.SpoolDrainSink.Rewrite | mesh/usage.py:344-353 | The file then holds exactly these rows. |
| UsageSpool.SpoolDrainSink.Kept | mesh/usage.py:400-406 | The counter loop computes removal by identity. |
| UsageSpool.SpoolDrainSink.RemoveLines | mesh/usage.py:394-407 | The file loses exactly the consumed rows. |
| UsageSpool.SpoolDrainSink.Post | mesh/usage.py:366-388 | The posting loop is done with exactly the rows before the first transient reply, counts each of them once as delivered, poison or corrupt, and reports what it posted. |
| UsageSpool.SpoolDrainSink.DrainOnce | mesh/usage.py:360-392 | An undisturbed pass removes those rows from the head of the spool and returns its result; the rows gone are those it counted. |
| SpoolRuns.NothingIsLost | mesh/usage.py:247-254 | At least once: with emits between any two steps of a pass and crashes anywhere, every row that arrived is still in the spool at its place, or at some step it was no event or got a reply in 200..299 or 400..499. |
| SpoolRuns.AnswerSettlesIff | mesh/usage.py:366-388 | A reply that takes or refuses the row, or a row that is no event, adds one verdict on that row and the pass goes on; any other reply, or none, adds nothing and ends the pass. The spool stays as it is meanwhile. |
| SpoolRuns.VerdictsAreEarned | mesh/usage.py:409-421 | Over every run each verdict was earned by the reply its own row got: delivered by 200..299, refused by 400..499, corrupt by not parsing. |
| SpoolRuns.EmitSteps | mesh/usage.py:293-335 | An emit appends the event or changes nothing, by the three admission conditions. |
| SpoolRuns.PassSteps | mesh/usage.py:358-365 | A pass takes the oldest rows, as many as a batch holds; a crash forgets the pass and no row. |
| SpoolRuns.FirstInFirstOut | mesh/usage.py:309-314 | The spool is always the newest part of what arrived, in order, and no row is handled before an earlier one. |
| SpoolRuns.RemovalDropsTheHead | mesh/usage.py:394-399 | Whatever was appended meanwhile, the consumed rows are a prefix of the spool, so multiset removal drops that prefix. |
| SpoolRuns.NeverOverTheCap | mesh/usage.py:309-318 | The file never exceeds the hard cap in bytes. |
| HealthRuns.RunSound | mesh/runtime_health.py:56-127 | In all runs the table stays within `max_bindings`, and a binding is non-closed exactly when its consecutive failures reach the threshold. |
| RuntimeHealth.EvictsClosedFirst | mesh/runtime_health.py:61-73 | Only at the bound is a binding evicted, a non-closed one only when no closed one exists, always the least recently touched of its kind. |
| HealthRuns.PeekHolds | mesh/runtime_health.py:78-103 | What a peek says of a binding is what `is_routable` answers for that time, whatever other bindings do in between, unless this one is evicted. |
| RuntimeHealth.RouterRuntimeHealth.Create | mesh/runtime_health.py:31-54 | Construction succeeds exactly for valid settings. |
| RuntimeHealth.RouterRuntimeHealth.Oldest | mesh/runtime_health.py:62-72 | The minimum over the eviction candidates by last touch and key. |
| RuntimeHealth.RouterRuntimeHealth.StateFor | mesh/runtime_health.py:56-76 | Finds or adds a binding, evicting at the bound. |
| RuntimeHealth.RouterRuntimeHealth.IsRoutable | mesh/runtime_health.py:78-91 | Computes the answer and the reserved probe. |
| RuntimeHealth.RouterRuntimeHealth.PeekRoutable | mesh/runtime_health.py:93-103 | Computes the same answer without a change. |
| RuntimeHealth.RouterRuntimeHealth.RecordSuccess | mesh/runtime_health.py:105-115 | Closes the circuit and counts one success. |
| RuntimeHealth.RouterRuntimeHealth.RecordFailure | mesh/runtime_health.py:117-127 | Counts one failure and opens the circuit at the threshold or after a probe. |
| RuntimeHealth.RouterRuntimeHealth.OpenCircuits | mesh/runtime_health.py:149-152 | The status figure counts the bindings whose failures reached the threshold. |
| HealthRuns.ProbesSpaced | mesh/runtime_health.py:84-91 | Two probes of a binding that neither succeeds nor is evicted in between are at least the cooldown apart, stray failures included. |
| HealthRuns.ProbeRate | mesh/runtime_health.py:84-91 | So at most 1 + T / cooldown probes fall into a stretch of length T. |
| HealthRuns.AnswersFollowHistory | mesh/runtime_health.py:78-127 | While no more bindings are used than fit, every answer is the one an unbounded breaker gives that is described by the binding's own failures, successes and probes. |
| HealthRuns.EntriesFollowHistory | mesh/runtime_health.py:56-127 | Under the same bound every entry, with its last use, failures, circuit, opening time, last success, latency and failure class, is the one the binding's own history describes. |
| HealthRuns.TouchedIsLastUse | mesh/runtime_health.py:56-76 | Over any run, evictions included, a binding was last touched by the call that used it last. |
| Fallback.ServeAccounts | mesh/router_app.py:2801-2893 | Bindings are tried in list order until the first reply that is not retriable or the first exception that is not caught. In each turn a failed call adds exactly one failure to its own binding, a success clears it, a client error or such an exception changes no circuit and a look reserves at most its own; other bindings change only by eviction. A punt means none won and counts the calls made. |
| Fallback.TurnAccounted | mesh/router_app.py:2804-2844 | That is so for every single turn, from any circuits and whatever other requests do between its two accesses. |
| Fallback.FailuresAddUp | mesh/router_app.py:2817-2844 | A request that nothing disturbs or evicts adds to each binding exactly its own failed calls, unless its answer is a success of that binding, which clears it. |
| Fallback.CallsAreRecorded | mesh/router_app.py:2817-2844 | Every upstream call is recorded exactly once, as a failure, a success or a client error, but for calls that raise what the loop does not catch. |
| Fallback.RecordsMissing | mesh/router_app.py:2810-2844 | Of a request at most one call is missing from the records: its last, exactly when an exception leaves the handler. |
| Fallback.ProbesSettled | mesh/router_app.py:2806-2844 | For any list, turn and interference: after a call its circuit is half-open exactly when it was so before and the call ended in a client error or an uncaught exception, and that ends the request. |
| Fallback.ProbesSettledAtEnd | mesh/router_app.py:2801-2893 | When an undisturbed request ends, a circuit it reserved is half-open exactly if the request ended in a client error or an exception that came from a probe of that binding. |
| Fallback.ClientErrorKeepsProbe | mesh/router_app.py:2841-2842 | A probe answered with 404 leaves its circuit half-open at any later time. |
| Fallback.ExceptionKeepsProbe | mesh/router_app.py:2810-2816 | A probe whose call raises what is not caught leaves its circuit half-open at any later time. |
| Fallback.TriedBounded | mesh/router_app.py:2749-2770 | At most `MAX_FALLBACK_ATTEMPTS` discovered bindings are tried, all peeked routable, the preferred node first when it has one. |
| FallbackOrder.TriedArePositions | mesh/router_app.py:2749-2770 | Of the discovered positions that peek routable exactly the first are tried, as many as the bound allows: those on the preferred node before the others, each in the order of discovery. |
| FallbackOrder.TriedCount | mesh/router_app.py:2749-2770 | As many bindings are tried as peek routable, up to the bound. |
| FallbackOrder.PeekedAreCalled | mesh/router_app.py:2749-2808 | A request that nothing disturbs, over bindings with distinct keys, skips none it peeked routable: a punt has called as many as peeked routable, up to the bound, although earlier turns open circuits and evict bindings. |
| FallbackOrder.FallsBack | mesh/router_app.py:2801-2893 | Such a request is answered by the first of them whose call does not fail in transport or with 502, 503 or 504, and is a punt exactly if all do. |
| Fallback.Handler.Try | mesh/router_app.py:2804-2844 | One pass of the loop body computes the specified turn and counts it. |
| Fallback.Handler.Complete | mesh/router_app.py:2801-2893 | The loop computes the specified answer, circuits and counters. |
| Fallback.Handler.RecordReply | mesh/router_app.py:2817-2844 | Records a reply on its own binding and counts it. |
| Fallback.Handler.Route | mesh/router_app.py:2739-2893 | Peeks each discovered binding at its own clock reading, orders and cuts the list, and serves the request on it. |
| Fallback.Handler.ChatCompletions | mesh/router_app.py:2708-2893 | The whole answer: no selection is a punt, an unknown specialist a client error, and otherwise at most the configured number of upstream calls are made; every counter is as the turns say. |
| SnapshotRefresh.MergedOnce | mesh/discovery.py:170-188 | Merging the reports of a pass keeps each (specialist, url) once. |
| SnapshotRefresh.PutOfSid | mesh/router_app.py:1192-1195 | Appending to the list of one specialist leaves every other list alone. |
| SnapshotRefresh.RefreshClosedForm | mesh/router_app.py:1167-1210 | After any run of passes the held (specialist, url) pairs are exactly those whose latest report is within `retain_s` of the newest pass, with that report's time; with `retain_s` at most zero, those of the newest pass. |
| SnapshotRefresh.RefreshHoldsOnce | mesh/router_app.py:1167-1210 | The list of each specialist holds each URL once under that URL's node, most recently seen first, and exactly the nodes of the held bindings have an entry. |
| SnapshotRefresh.SummaryIsNewest | mesh/router_app.py:1072-1085 | The summary of a node says what the newest pass that reported the node said of it first, and when. |
| SnapshotRefresh.DiscoveryToSnapshot | mesh/router_app.py:1052-1094 | The loop builds the specified fresh snapshot. |
| SnapshotRefresh.MergeRetainingRecent | mesh/router_app.py:1167-1210 | The loop over the prior bindings computes the specified merge. |
| SnapshotRefresh.RefreshingSnapshot.RefreshOnce | mesh/router_app.py:1156-1165 | After each refresh the cached snapshot is the closed form of all passes so far. |
| Curation.RankFacts | packages/slancha-mesh-tune/mesh/curation.py:200-227 | The ranking is the input's rows, hardest first, each with its position. |
| Curation.RankOrder | packages/slancha-mesh-tune/mesh/curation.py:225-227 | By score, 0.5 for a row without one, highest first; then by fingerprint, then by row. |
| Curation.RankIgnoresOrder | packages/slancha-mesh-tune/mesh/curation.py:205-208 | With collision-free row hashes two inputs rank to the same rows exactly when one permutes the other. |
| Curation.TargetIs | packages/slancha-mesh-tune/mesh/curation.py:271-272 | The exam's target is the fraction of the real rows, rounded to the nearest integer, or the bound that this is beyond. |
| Curation.RoundIsNearest | packages/slancha-mesh-tune/mesh/curation.py:272-272 | The rounding gives exactly the nearest integer, the even one of two. |
| Curation.CurateFacts | packages/slancha-mesh-tune/mesh/curation.py:244-329 | Holdout, train and dropped account for every row; the holdout is real, duplicate-free and at most the target; no train row shares a holdout fingerprint or is near a holdout row; real train rows rank below all holdout rows and exist only when the target is reached. |
| Curation.CurateLeavesNothingOut | packages/slancha-mesh-tune/mesh/curation.py:244-329 | Each row of the input examines, trains, or leaks the exam; a real row that is neither in the exam nor a duplicate of one of its rows means that the exam is full; exam and training keep the order of the ranking. |
| Curation.RefusedIff | packages/slancha-mesh-tune/mesh/curation.py:263-322 | Refused first for contradictory bounds, then for too few real rows, last for too little left to train on. |
| Curation.RefIffSameLines | packages/slancha-mesh-tune/mesh/curation.py:332-344 | Two holdouts have the same reference exactly when they have the same canonical lines, in any order. |
| Curation.CurationIgnoresOrder | packages/slancha-mesh-tune/mesh/curation.py:200-344 | Permuting the traces changes neither holdout, reference, train rows nor counts, nor the refusal. |
| Curation.RankByDifficulty | packages/slancha-mesh-tune/mesh/curation.py:200-227 | The loop and the sort compute the ranking. |
| Curation.WalkRanking | packages/slancha-mesh-tune/mesh/curation.py:279-304 | The walk down the ranking computes holdout, rest and counts. |
| Curation.TrainPool | packages/slancha-mesh-tune/mesh/curation.py:306-318 | The second loop keeps exactly the rows that do not leak the exam. |
| Curation.SplitHardHoldout | packages/slancha-mesh-tune/mesh/curation.py:244-329 | Computes the split or the refusal, and a split of a ranking has the properties of `CurateFacts`. |
| AuditChain.ScanMeans | packages/slancha-mesh-tune/mesh/audit.py:249-273 | A scan gets through exactly the well-formed files in which every row carries its own hash, its predecessor's and its position. |
| AuditChain.AcceptedIff | packages/slancha-mesh-tune/mesh/audit.py:226-280 | A file is accepted exactly when it holds nothing but at least one well-linked row and has the expected count and last hash, where given. |
| AuditChain.FirstBadLine | packages/slancha-mesh-tune/mesh/audit.py:253-271 | The first bad line decides the reason: no JSON, no object, which raises, or wrong hash, link or number, in this order. |
| AuditChain.WholeFileReason | packages/slancha-mesh-tune/mesh/audit.py:274-280 | Then the file is empty, or its count is wrong, or its tip. |
| AuditChain.AcceptedTipMeansSameRows | packages/slancha-mesh-tune/mesh/audit.py:242-245 | With a collision-free hash, a log accepted with the tip of another accepted log has the same rows in the same order, text for text, and equal as read from files. |
| AuditChain.PrefixIsAccepted | packages/slancha-mesh-tune/mesh/audit.py:242-245 | Without a witness every non-empty prefix of a good log is accepted; the expected count reveals it. |
| AuditChain.ActorRefusedIff | packages/slancha-mesh-tune/mesh/audit.py:94-101 | An actor is refused exactly when nothing is left of the name, or "none" or "null" in letters of either case. |
| AuditChain.RecordIff | packages/slancha-mesh-tune/mesh/audit.py:157-204 | Why a report is not written: its actor, a value without a text, the size of its line, the disk, in this order. |
| AuditChain.RowSays | packages/slancha-mesh-tune/mesh/audit.py:174-184 | A row says the recorder's stamps, the actor and context where given, and everything else the payload brought, unchanged. |
| AuditChain.IntactIff | packages/slancha-mesh-tune/mesh/audit.py:174-184 | A recorded row, read back from its line, carries the hash the verifier recomputes exactly when the payload brought no `row_hash` and every value brought keeps its text when it is read back. |
| AuditChain.ResumeContinues | packages/slancha-mesh-tune/mesh/audit.py:141-155 | A restart finds the sequence number and hash it left. |
| AuditChain.ResumeIff | packages/slancha-mesh-tune/mesh/audit.py:141-155 | Resuming needs a last non-blank line that is an object with a hash and a number. |
| AuditChain.ResumeFresh | packages/slancha-mesh-tune/mesh/audit.py:141-155 | Without any such line the chain starts afresh. |
| AuditChain.BuiltLogVerifies | packages/slancha-mesh-tune/mesh/audit.py:157-212 | A log built by any run of reports, rejections, failed writes and restarts verifies with the recorder's tip and count exactly when something was written and every written entry meets that condition. |
| AuditChain.UnkeptNeverVerifies | packages/slancha-mesh-tune/mesh/audit.py:174-184 | A fresh log whose first entry does not meet it is rejected for a hash mismatch, whatever tip or count is given. |
| AuditChain.StaleRowNeverVerifies | packages/slancha-mesh-tune/mesh/audit.py:174-184 | An instance: a payload that brings a `row_hash`. |
| AuditChain.IntegerKeysNeverVerify | packages/slancha-mesh-tune/mesh/audit.py:174-184 | An instance: a context with the integer keys 9 and 10, written in the order of the integers and read back in the order of the strings. |
| AuditChain.TamperingIsDetected | packages/slancha-mesh-tune/mesh/audit.py:226-280 | A file accepted with the recorder's tip has the recorded rows, all of them and in order, so edits, insertions, removals, moves and truncation are rejected. |
| AuditChain.VerifyChain | packages/slancha-mesh-tune/mesh/audit.py:226-280 | The loop gives the specified verdict with its reason. |
| AuditChain.AuditRecorder.Open | packages/slancha-mesh-tune/mesh/audit.py:112-155 | A recorder opens exactly on a file whose last row can be read, and continues from it. |
| AuditChain.AuditRecorder.RecordVerdict | packages/slancha-mesh-tune/mesh/audit.py:157-212 | Writes the specified row, or rejects and leaves file and head alone. |
| IdleTraining.StartsAfterIdleStretch | packages/slancha-mesh-tune/mesh/idle.py:141-155 | A pass starts only after samples without a busy one since the recorded idle start that lasted the sustained time. |
| IdleTraining.ReadyIff | packages/slancha-mesh-tune/mesh/idle.py:117-155 | The detector is ready exactly after a stretch of idle samples, no busy one, no pass and no cooldown in it, that lasted the sustained time. |
| IdleTraining.TrainingIff | packages/slancha-mesh-tune/mesh/idle.py:166-210 | It trains exactly while a pass that was started has not finished, and knows since when. |
| IdleTraining.CooldownIff | packages/slancha-mesh-tune/mesh/idle.py:125-133 | It rests exactly from a finish until the first sample at or after the end of the cooldown. |
| IdleTraining.PreemptedIff | packages/slancha-mesh-tune/mesh/idle.py:180-193 | A pass is asked to stop exactly if a signal came since the last start. |
| IdleTraining.StartsSpaced | packages/slancha-mesh-tune/mesh/idle.py:125-133 | After a finish the next start is at least the cooldown plus the sustained idle time later. |
| IdleTraining.TrainsUntilFinished | packages/slancha-mesh-tune/mesh/idle.py:135-139 | Nothing but a finish ends a pass. |
| IdleTraining.PassRate | packages/slancha-mesh-tune/mesh/idle.py:195-210 | n passes take at least n - 1 times that period. |
| IdleTraining.IdleDetector.OnSample | packages/slancha-mesh-tune/mesh/idle.py:117-155 | The branches of `observe` compute the specified state. |
| IdleTraining.IdleDetector.MarkTrainingStarted | packages/slancha-mesh-tune/mesh/idle.py:166-178 | Starts training from the ready state, and raises without a change from any other. |
| IdleTraining.IdleDetector.FinishTraining | packages/slancha-mesh-tune/mesh/idle.py:195-210 | Enters the cooldown from training, and raises without a change from any other state. |

## Left out

- HTTP, FastAPI, httpx, the streaming proxy, the classifier, request and response bodies, response headers and log messages.
- SQLite connections, schema migration and races between processes at statement level: a store operation is one atomic step. Task cancellation and the release that follows it; a cancelled upstream call of the chat handler is an exception of `Fallback`.
- The cryptography of node certificates, hashes and HMAC keys, and JSON, URL and IP parsing: they are predicates and functions, injective where a collision would matter.
- Floating point, NaN and rounding of floats: reals instead. The decode-throughput term of a score, with its logarithm and chip tables, is a parameter; every placement result holds for any such term.
- Rebuilding `_node_urls` and observed quality at boot, which the code does not do: snapshots are compared under one URL map, and full equality across a restart is not claimed.
- Torn writes of the spool and the audit file, file permissions, and rows of a found spool file that contain a carriage return or only white space.
- More than one drainer on one spool and more than one writer on one audit file, which the source excludes.
- The cold-start `get` of the refreshing snapshot, its background thread and its environment settings.
- A request for automatic routing on a router started without it, which is refused before any circuit is looked at.
- Clock readings out of order between threads: the probe and lease results take calls in the order of their clock readings.
- `coverage_bands`, `fill_gaps`, the difficulty scorer and the manifest of the tune package: branch-by-branch numeric code.
- The audit sink, which only receives a copy after the durable write.
- `mesh/select.py`, `mesh/gpu/`, `mesh/engine_select.py`, `mesh/validate_card.py`, `loop_runner.py`, `feedback.py`, probes, backends, CLI and doctor: mostly filters that would only add easy members.
- MeshAllocation.AllocationKept: goes one way, because a plan may by chance survive a reordering of its nodes; the order of the input has its exact condition in `Compaction.HardwareOrderKeptIff`.
- MeshAllocation.SameNodesServed: goes one way, because one given compaction may leave the result as it was; over all orders of the input the condition is exact (`MeshAllocation.OrderFreeIff`).
- HealthRuns.ProbesSpaced: says nothing about a binding that is evicted between two probes, because the code forgets its circuit then.
