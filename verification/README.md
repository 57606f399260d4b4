# Blot host runtime: verified models

Dafny models of the stateful parts of the Blot host runtime and of its value codec. Each stateful
component has two layers: a pure transition system (`…Protocol`) with an inductive invariant and
theorems over whole runs, and a class with the component's own fields and loops, every method of which
is proved to take exactly one step of that system. Reachability theorems therefore speak about the
methods in any interleaving of calls, messages, timers and waits; each wait is a boundary between steps.

* **Module graph** (`ImportGraph`, `ImportOrder`, `ModuleLoader`, `Reload`, `Workspace`,
  `OverlayStaging`). An uncached recursive load over "overlay wins over disk" is the reference. The
  cached, memoised, edge-rebinding load is a class over an arena of nodes, so that node identity is
  observable, and is proved to return what the reference returns. The workspace adds overlays, dirty
  marks, roots and staged commits; its invariant says that every cached module without a dirty input
  matches its effective source.
* **Worker pool** (`PoolProtocol`, `PoolInvariant`, `PoolRuns`, `PoolOrder`, `PoolService`,
  `PoolPrograms`, `PoolRequests`, `WorkerExecutor`). The host scheduler and its workers, joined by FIFO
  channels of requests and responses that are part of the state. Whether starting a worker or posting a
  message fails is decided by a parameter (`Fates`).
* **Shared numeric partitions** (`SharedProtocol`, `SharedOwnership`, `SharedKernels`,
  `SharedBorrowing`, `SharedFork`, `SharedRuntime`). Allocations, partitions, generations, rejoin
  witnesses and running loans, and kernels that interleave on one buffer with anything else that the
  runtime does.
* **Channels and selection** (`Queue`, `ChannelProtocol`, `ChannelRuns`, `ChannelLifetimes`,
  `ChannelOrder`, `ChannelDecisions`, `ChannelRuntime`). The doubly linked queue refines a sequence;
  mailboxes, receives and selects over any number of channels share one world.
* **Scopes and leases** (`ScopeProtocol`, `ScopeRuns`, `ScopeEvents`, `ScopeRuntime`, `CleanupList`).
  The tree of lifetimes, with a closing that proceeds from wait to wait.
* **Development activation** (`DevelopmentProtocol`, `DevelopmentRuns`, `DevelopmentHistory`,
  `DevelopmentRuntime`). Two-phase replacement of linked units with draining, retirement and pinned
  snapshots.
* **Canonical codec** (`AbiLayout`, `AbiLanes`, `AbiMarshal`, `AbiStoreLoad`, `AbiStoreOrder`,
  `AbiStoreExact`, `AbiRoundTrip`, `AbiExact`, `AbiCodec`). Layout, flattening, lane joining, lowering,
  lifting, writing and reading. Guest memory is a sequence of bytes with the set of addresses handed
  out; the allocator is a parameter.

What a step does is also fixed from outside the transition systems: by laws over the events of a run
(arrival order, the deciding event, the last published build, the traps that reached a scope) and over the
bytes and lanes of a value, which name none of the step functions' own recursions.

Where the model shows that the code does less than one might expect, it says so with an input and with
the exact condition:

* Staging a batch of overlays is not atomic. Entries before a refused one stay staged
  (`FailedBatchKeepsItsPrefix`); the state is untouched exactly when all of them only restage what is
  there and the refused one carries an explicit version (`FailedBatchUntouchedIff`).
* A file at the path of a pinned snapshot cannot be marked dirty. When another module includes that
  file, its cached copy may go stale (`PinnedIncludeGoesStale`); `WorkspaceGraph.ChangeOnDisk` states
  exactly when it does not.
* Flat lanes follow the declared order of record fields and variant cases, memory follows name order.
  The documentation defines both orders as the sorted one (`docs/abi.md`, lines 183 and 230-235), but
  only the parser of development manifests refuses other types. For a type out of order memory may show
  another value than was stored (`NameOrderMatters`), while its flat lanes still round trip. Memory shows
  whatever lifts exactly for the *straight* types (`MemoryShowsIff`): each part that can vary takes the
  same lanes in both orders, and where a discriminant chooses, cases are in name order and their payloads
  are straight. Sorted types are straight (`CanonicalIsStowable`). So are types that are out of order only
  in parts that take no lane, or that never vary: the discriminant of an only case
  (`UnitsMayComeFirst`, `BooleansMayNot`).
* A speculative job whose worker was lost frees its place when the worker has terminated, but nothing is
  dispatched then. Other speculative work may go on waiting with a place free (`RetirementStalls`), until the
  next event that dispatches; `SpeculationStallsIff` says exactly when that begins.
* A scope's `close` looks at its cleanup list one wait after its releases have drained. A lease released
  in that gap is in flight when the scope is already closed (`ClosedWithDisposalInFlight`). The disposals
  of a closed scope have all ended exactly when those begun in that gap have (`ClosedIsQuietIff`).

## Model

| member | source | states |
|---|---|---|
| ImportGraph.LoadIffDenotes | src/load.ts:333-398 | an uncached load succeeds exactly when the module has a finite import tree that avoids the modules being loaded, and returns that very tree |
| ImportGraph.DenotesUnique | src/load.ts:341-371 | one path has one revision within a load |
| ImportGraph.DenotesAcyclic | src/load.ts:341-349 | no returned module occurs below itself |
| ImportGraph.CycleErrorIsReal | src/load.ts:342-349 | a cycle error names a real cycle of imports that the root reaches |
| ImportGraph.CycleErrorExactly | src/load.ts:341-371 | when all reachable modules can be read and parsed, a load fails exactly when the reachable import graph has a cycle, and then with a cycle error |
| ImportOrders.DistinctInOrder | src/load.ts:536-537 | repeated specifiers count once, in the order of their first occurrence: each kept one occurs at a place before which no later kept one does |
| ImportOrders.LoadFailsAtTheFirstSite | src/load.ts:559-607 | a failing load reports the failure of the first import site that fails; if every import loads, that of the first include site whose file is missing |
| ImportOrders.LoadFollowsTheSites | src/load.ts:559-617 | the dependencies and included files of a loaded module follow the first occurrences of its sites; each dependency is the tree of its resolved specifier, each included file the disk text at its resolved path |
| ImportOrders.LoadNeedsAText | src/load.ts:386-398 | a module has the text of its overlay, else of its file; a missing or unparsable one fails before any import is loaded |
| ModuleLoader.MemoNeverHidesACycle | src/load.ts:350-371 | a completed module loads to the same tree below any modules that are still active: the memo hides no cycle |
| ModuleLoader.ModuleCache.Load | src/load.ts:312-331 | the cached load succeeds exactly when the uncached one does, with the same tree or error; every module of the result is what the cache then holds for its path; unchanged modules keep their node |
| ModuleLoader.ModuleCache.LoadRevision | src/load.ts:333-398 | the same below any active modules and with a partly filled memo |
| ModuleLoader.ModuleCache.Rebind | src/load.ts:400-461 | a cached module is kept when every dependency comes back as the identical node, otherwise replaced by a new node over the new ones |
| ModuleLoader.ModuleCache.LoadDependency | src/load.ts:410-442 | a recorded dependency is reloaded in place, or imported anew when its path left the cache |
| ModuleLoader.ModuleCache.LoadSourceRevision | src/load.ts:506-620 | a parsed source becomes a node over its imports and included files in the order of their first sites, or the error of the first that fails |
| ModuleLoader.ModuleCache.ReadIncludedFiles | src/load.ts:574-607 | included files are read from disk, past any overlay; the first missing one is the error |
| ModuleLoader.ModuleCache.LoadImport | src/load.ts:622-640 | a specifier resolves against its importer and is loaded below it |
| ModuleLoader.ModuleCache.InvalidateLoadedInputs | src/load.ts:281-300 | drops exactly the modules that own a changed input, and reports them |
| Reload.ReloadIdentity | src/load.ts:281-300 | after a completed load and an invalidation, a reload keeps the identical node of every module that reaches no change, gives a new node to those that do, and with no change returns the same root and leaves the cache alone |
| Reload.LoadLeavesIntact | src/load.ts:333-398 | every completed load leaves what a reload relies on |
| Workspace.WorkspaceActivePaths | src/workspace_graph.ts:365-380 | the worklist finds exactly the cached paths that some root reaches |
| Workspace.WorkspacePathReaches | src/workspace_graph.ts:384-402 | the worklist decides reachability in the cached graph |
| Workspace.WorkspaceGraph.constructor | src/workspace_graph.ts:56-77 | pinned modules start cached, and the cache agrees with them |
| Workspace.WorkspaceGraph.LoadCurrent | src/workspace_graph.ts:303-324 | a load at the held revisions: dirty modules are seen as cached, all others as they are now |
| Workspace.WorkspaceGraph.RefreshAfterKnownChanges | src/workspace_graph.ts:111-122 | returns exactly what a from-scratch load of the path returns, or its error; success clears all dirty marks and adds the root, failure commits nothing |
| Workspace.WorkspaceGraph.RefreshKnownChanges | src/workspace_graph.ts:326-351 | drops what owns a changed input, loads, and forgets the dirty marks only on success |
| Workspace.WorkspaceGraph.UpdateOverlay | src/workspace_graph.ts:124-165 | the version rules, the new overlay and root, the pending dirty marks; the tree or error of an uncached load that sees the new text and other dirty modules as cached; failure commits nothing |
| Workspace.WorkspaceGraph.StageOverlays | src/workspace_graph.ts:174-207 | overlays are recorded one by one up to the first refusal, and all loads stay consistent |
| Workspace.FailedBatchKeepsItsPrefix | src/workspace_graph.ts:174-207 | a refused batch keeps the entries before the refused one |
| Workspace.FailedBatchUntouchedIff | src/workspace_graph.ts:174-207 | exactly when a refused batch leaves the state untouched |
| OverlayStaging.BatchesOnlyMark | src/workspace_graph.ts:174-207 | after any batch, refused or not, exactly the paths whose overlay changed are new roots and new dirty inputs, changed versions have grown, and nothing is loaded; an accepted batch shows the last entry of every path |
| OverlayStaging.FreshVersionsAreNext | src/workspace_graph.ts:183-191 | an unnamed version is the least above the last unnamed one and above the overlay's own |
| OverlayStaging.EntriesAreRefusedSo | src/workspace_graph.ts:178-199 | an entry is refused exactly when it is not there already and its version is unsafe or does not follow the one that is there |
| Workspace.PinnedIncludeGoesStale | src/workspace_graph.ts:253-257 | a change at a pinned path leaves a clean module that includes the file stale |
| Workspace.WorkspaceGraph.CloseOverlay | src/workspace_graph.ts:209-226 | the disk text shows again; every root that reached the overlay, and no other, is reloaded, each to what an uncached load of it returns; failure is the error of such a load and commits nothing |
| Workspace.WorkspaceGraph.RootsReaching | src/workspace_graph.ts:209-226 | the roots to reload are exactly those whose cached graph holds the path |
| Workspace.WorkspaceGraph.LoadRoots | src/workspace_graph.ts:209-226 | roots loaded one after the other each give what an uncached load from the common start gives, or the first error |
| Workspace.WorkspaceGraph.ReleaseRoot | src/workspace_graph.ts:228-251 | keeps exactly the pinned modules and those that a remaining root reaches, at the same nodes, and exactly the dirty marks on those that are reached and on what they include |
| Workspace.WorkspaceGraph.MarkDirty | src/workspace_graph.ts:253-257 | marks an input unless it is pinned, and keeps the invariant |
| Workspace.WorkspaceGraph.ChangeOnDisk | src/workspace_graph.ts:253-257 | a disk change that is marked keeps cache and sources in agreement; for a pinned path, exactly when no clean module includes its old text |
| Workspace.ChangedWorldOk | src/workspace_graph.ts:253-257 | a change of one path is absorbed by a dirty mark on that path |
| PoolRuns.NoRefusals | src/worker_runtime.ts:144-182 | over every run no request is refused by the worker and no response by the host, the host's installed programs (at most 16) are the worker's once in-flight requests arrive, and a worker runs at most one job |
| PoolRuns.CancelsHitTheirJob | src/worker_executor.ts:153-164 | a cancellation, however late, aborts no job but its own |
| PoolRuns.JobsAreConserved | src/worker_executor.ts:98-192 | submitted is pending plus completed; a job completes once, and a pending one is in exactly one queue or held by exactly one live or retiring worker |
| PoolRuns.RequiredWorkIsServed | src/worker_executor.ts:237-305 | the speculative counter is exact and at most size - 1; in an open pool required work waits only when all `size` workers are busy |
| PoolOrders.QueuesKeepArrivalOrder | src/worker_executor.ts:185-205 | over any run each queue holds jobs that joined it, once each, and of two that wait the one that was submitted or promoted first stands first |
| PoolService.ServedInOrder | src/worker_executor.ts:237-262 | when an event gives a worker to a required job, every required job still waiting joined later; when it gives one to a speculative job, no required job waits and every speculative one still waiting joined later |
| PoolService.JobsChangeOnlySo | src/worker_executor.ts:98-398 | what any event does to any job of any run: only a submission creates one, its program and callback never change nor its worker once it has one; only the promotion of the callback's oldest pending job makes it required, only its signal or the close aborts it; it ends exactly when its answer is read, its lost worker has terminated, it is aborted while waiting, or no worker can be created for it |
| PoolService.ClosedPoolsOnlyEnd | src/worker_executor.ts:207-238 | in a closed pool nothing waits, every job left runs and is aborted, and no event gives a job a worker or takes a new one |
| PoolService.CancelledJobsRun | src/worker_executor.ts:153-164 | an aborted job that is still pending has a worker, and every pending job of a closed pool is aborted |
| PoolService.IdleWorkersTakeTurns | src/worker_executor.ts:245-256 | over any run two workers that stay idle keep their order, one that becomes idle stands last, and the one that is given work was idle longest |
| PoolPrograms.ProgramsUsedLastStay | src/worker_executor.ts:264-287 | over any run the programs believed installed on a worker are those of its last launches, at most 16 and in the order of last use: the evicted one was used longest ago |
| PoolPrograms.LastUsedStay | src/worker_executor.ts:264-287 | the same for every sequence of launches: a program is missing only if 16 others were used after it |
| PoolRequests.JobsRunTheirProgram | src/worker_executor.ts:281-299 | over any run every run request, and every run inside a worker, has the program with which its job was submitted |
| PoolRequests.CancellationIsSent | src/worker_executor.ts:153-164 | when a running job is aborted, by its signal or by the close, its worker gets one request to cancel it behind all earlier ones; if posting fails the worker is lost and the job waits for its termination |
| PoolRequests.SpeculationStallsIff | src/worker_executor.ts:237-247 | speculative work begins to wait although it could be served exactly when a speculative job ends with its lost worker while others wait; every event that dispatches ends it |
| PoolRequests.RetirementStalls | src/worker_executor.ts:385-396 | a run in which that happens |
| PoolInvariant.ReceivedLink | src/worker_runtime.ts:144-182 | the worker accepts the next request in flight and stays in step with the host |
| PoolInvariant.TakenLink | src/worker_executor.ts:309-337 | the host accepts the next response: current, started once, cancelled only on request |
| PoolInvariant.TouchedOk | src/worker_executor.ts:264-287 | the 16-entry program cache stays free of repeats and matches the install and uninstall requests |
| WorkerExecutors.WorkerExecutor.Execute | src/worker_executor.ts:98-192 | a closed pool, an aborted signal, a captured resource or callback and speculative shared work are refused in this order with the pool unchanged; anything else is the protocol's step |
| WorkerExecutors.RequirePrivateCaptures | src/worker_executor.ts:401-424 | decides whether a captured environment holds a resource or a callback anywhere |
| WorkerExecutors.WorkerExecutor.Submit | src/worker_executor.ts:165-191 | a submitted job joins the pending jobs and goes to the end of its priority queue and of its callback queue, and the pool dispatches |
| WorkerExecutors.WorkerExecutor.Promote | src/worker_executor.ts:194-205 | the oldest pending job of the callback becomes required |
| WorkerExecutors.WorkerExecutor.Dispatch | src/worker_executor.ts:237-305 | the loop ends with the pool that the protocol's dispatch gives, for every fate of workers and posts |
| WorkerExecutors.WorkerExecutor.OnMessage | src/worker_executor.ts:309-337 | one response of a live worker is the protocol's step, ending in a dispatch or in the loss of the worker |
| WorkerExecutors.WorkerExecutor.Finish | src/worker_executor.ts:355-378 | a job leaves every table and frees its worker, if it still has one |
| WorkerExecutors.WorkerExecutor.Lose | src/worker_executor.ts:380-390 | a worker leaves the pool; its job stays pending until it has terminated |
| WorkerExecutors.WorkerExecutor.OnRetired | src/worker_executor.ts:385-396 | a terminated worker's job fails, and nothing is dispatched |
| WorkerExecutors.WorkerExecutor.OnError | src/worker_executor.ts:339 | an error event loses the worker |
| WorkerExecutors.WorkerExecutor.Terminate | src/worker_executor.ts:214-220 | once every job is done a closed pool drops its workers |
| WorkerExecutors.WorkerExecutor.Abort | src/worker_executor.ts:153-164 | a queued job ends at once, a running one is asked to cancel |
| WorkerExecutors.WorkerExecutor.Close | src/worker_executor.ts:207-235 | every pending job is aborted and nothing is dispatched any more |
| WorkerExecutors.WorkerRuntime.OnMessage | src/worker_runtime.ts:144-184 | one request of the worker: install, uninstall, cancel, run, and its refusals |
| WorkerExecutors.WorkerRuntime.Answer | src/worker_runtime.ts:235-262 | the response is posted and the job leaves the running table |
| AbiRoundTrips.LowerThenLift | src/abi_codec.ts:95-296 | lifting a lowered value gives it back, in every later memory that still shows its allocations, through joined and reinterpreted payload lanes |
| AbiRoundTrips.WriteThenRead | src/abi_values.ts:150-267 | reading a written value gives it back, for straight types |
| AbiRoundTrips.ParametersRoundTrip | src/abi_codec.ts:28-93 | parameters survive, as up to 16 flat lanes for all types with distinct field names, and as a parameter block for straight ones |
| AbiRoundTrips.OnlyTheAllocatorRefuses | src/abi_codec.ts:95-198 | lowering a well-typed value fails only when the allocator refuses |
| AbiRoundTrips.OnlyTheAllocatorRefusesParameters | src/abi_codec.ts:28-50 | well-typed parameters fail only when the allocator refuses or their block exceeds 32 bits |
| AbiRoundTrips.LowerKeeps | src/abi_codec.ts:95-198 | lowering yields lanes of the flattened type and touches no byte handed out before |
| AbiExacts.OnlyItsValuesAreLowered | src/abi_codec.ts:95-198 | a value is lowered only if it has the shape of the type: kinds, integer range, seal, exactly the fields, and a known case with a payload exactly when the case has one |
| AbiExacts.VariantsLowerBitForBit | src/abi_codec.ts:169-196 | a variant is the number of its first case of that name as declared, the payload's own lanes bit for bit in the joined types, and zeros |
| AbiExacts.ScalarsLiftFromTheirLane | src/abi_codec.ts:217-233 | a scalar is lifted from exactly the one lane to which it is lowered |
| AbiExacts.TextsLieWhole | src/abi_codec.ts:241-249 | a string's lanes are the address and the length of its encoding |
| AbiExacts.ArraysLieInOrder | src/abi_codec.ts:241-268 | an array's lanes are its address and length; it is read exactly when it lies in memory and each element is read one stride after the other |
| AbiExacts.ArraysGetAlignedRoom | src/abi_codec.ts:134-145 | an array is lowered to an address that suits its elements and is not null, in memory that nothing else was given |
| AbiExacts.RecordsLiftInDeclaredOrder | src/abi_codec.ts:269-281 | a record is lifted exactly when it has just its fields' lanes, one after the other as declared, and each member is lifted from its own |
| AbiExacts.LanesFollowEachOther | src/compiler/backend/runtime/abi.ts:111-113 | the flat lanes of values side by side are their own lanes, one after the other in order |
| AbiExacts.RecordsLieInNameOrder | src/abi_values.ts:226-242 | a record is read exactly when each field, at its slot in name order, is read as its member, and there are no other members |
| AbiExacts.VariantsLieByNumber | src/abi_values.ts:243-267 | a variant is read exactly when its discriminant numbers, in name order, the case of that name, and its payload is read behind it |
| AbiExacts.ScalarsLieInPlace | src/abi_values.ts:150-183 | scalars in memory: two's complement or float bits, little-endian in eight or four bytes; a Boolean is one byte, false only if zero |
| AbiExacts.AddressesLieBeforeLengths | src/abi_values.ts:181-223 | a string or array in memory is its address and then its length, four bytes each, and its bytes or elements are read there |
| AbiExacts.SixteenLanesAtMost | src/abi_codec.ts:28-50 | up to sixteen flat lanes are passed as they are, in parameter order; more become one pointer |
| AbiExacts.BlocksAreChecked | src/abi_codec.ts:60-81 | parameters are read from a block exactly when one pointer is passed, it is not null and aligned, the block lies in memory, and each is read at its slot |
| AbiStoreLoads.Storable | src/abi_codec.ts:303-361 | lanes that have a value in name order can be stored where there is room, for every type |
| AbiStoreLoads.StoreThenLoad | src/abi_codec.ts:303-361 | for every type and all lanes, memory shows exactly what the lanes mean in name order, error or value |
| AbiStoreOrders.StraightLifts | src/abi_codec.ts:200-296 | for straight types lanes mean the same in name order as in declared order |
| AbiStoreExacts.MemoryShowsIff | src/abi_codec.ts:303-361 | the law "whatever lifts can be stored, and memory then shows it" holds for a type with distinct names and no empty variant if and only if the type is straight |
| AbiStoreExacts.UnitsMayComeFirst | src/compiler/backend/runtime/memory_layout.ts:84-101 | a type out of name order that is straight |
| AbiStoreExacts.BooleansMayNot | src/compiler/backend/runtime/memory_layout.ts:84-101 | a type out of name order that is not |
| AbiRoundTrips.CanonicalIsStowable | docs/abi.md:230-235 | types sorted by name are straight, down to their array elements |
| AbiStoreLoads.MarkedTag | src/abi_codec.ts:348-354 | the stored discriminant is read back at its width |
| AbiStoreLoads.NameOrderMatters | src/compiler/backend/runtime/memory_layout.ts:84-101 | a record declared out of name order is lifted correctly from lanes and read back exchanged from memory |
| AbiLanes.NarrowsBack | src/abi_codec.ts:378-390 | a lane widened to the joined type and narrowed again is the same core value |
| AbiLanes.GetPut | src/abi_codec.ts:303-361 | little-endian bytes give back the number |
| AbiLayouts.JoinAllIsWideEnough | src/compiler/backend/runtime/abi.ts:114-137 | joined lanes are wide enough for every case |
| AbiExacts.JoinAllExactly | src/compiler/backend/runtime/abi.ts:114-139 | position by position over all cases: there is a lane wherever some case has one; it is the type common to all that have one there, else i32 if all are i32 or f32, else i64 |
| AbiExacts.WidenedLanesKeepTheirBits | src/abi_codec.ts:186-195 | widening keeps the bits of each payload lane, gives it the joined type and fills up with zeros |
| AbiExacts.BytesAreLittleEndian | src/abi_codec.ts:303-361 | byte i of a stored number has weight 256 to the i, and the bytes read back as the number |
| AbiExacts.DiscriminantIsSmallest | src/compiler/backend/runtime/memory_layout.ts:101-103 | a discriminant is the smallest of 1, 2 and 4 bytes that tells all cases apart |
| AbiExacts.SlotsArePacked | src/compiler/backend/runtime/memory_layout.ts:86-95 | each value of a block starts at the first suitably aligned place after the one before |
| AbiExacts.BlocksAreTight | src/compiler/backend/runtime/memory_layout.ts:36-52 | a block's alignment is the largest of its values' and its size the next multiple of it behind the last |
| AbiExacts.VariantsAreTight | src/compiler/backend/runtime/memory_layout.ts:101-123 | a variant's payload starts at the first place behind the discriminant that suits every case, and the whole has no room to spare |
| AbiExacts.LeavesTakeTheirLanes | src/compiler/backend/runtime/memory_layout.ts:69-80 | a scalar, string or array takes in memory the room of its lanes, aligned to the first; a Boolean takes one byte |
| AbiExacts.BeforeIsLexicographic | src/compiler/backend/runtime/memory_layout.ts:131-138 | names compare by their first differing code unit, a prefix first |
| AbiExacts.FieldsAreSorted | src/compiler/backend/runtime/memory_layout.ts:83-95 | memory holds the same fields sorted by name |
| AbiExacts.CasesAreSorted | src/compiler/backend/runtime/memory_layout.ts:104-111 | memory numbers the same cases sorted by name |
| AbiLayouts.BlockHolds | src/compiler/backend/runtime/memory_layout.ts:40-56 | fields and parameters lie apart, in order, inside their block |
| AbiLayouts.SlotsAligned | src/compiler/backend/runtime/memory_layout.ts:40-56 | each of them is aligned |
| AbiLayouts.SizeIsAligned | src/compiler/backend/runtime/memory_layout.ts:69-125 | a size is a multiple of its alignment, so array elements stay aligned |
| AbiLayouts.StridesFit | src/abi_values.ts:207-225 | array elements lie apart inside the array |
| AbiLayouts.PayloadFits | src/compiler/backend/runtime/memory_layout.ts:103-124 | discriminant and payload of every case lie apart inside the variant |
| AbiCodecs.AbiCodec.Lower | src/abi_codec.ts:95-198 | lowers in place: lanes and memory are those of the specification that the round trips are about |
| AbiCodecs.AbiCodec.Write | src/abi_codec.ts:298-301 | the same for writing |
| AbiCodecs.AbiCodec.WriteFlat | src/abi_codec.ts:303-361 | the same for storing lanes |
| AbiCodecs.AbiCodec.Lift | src/abi_codec.ts:200-296 | the same for lifting, with its errors |
| AbiCodecs.AbiCodec.ReadMemory | src/abi_values.ts:150-267 | the same for reading, with its errors |
| AbiCodecs.AbiCodec.LowerParameters | src/abi_codec.ts:28-50 | the same for parameters |
| AbiCodecs.AbiCodec.LiftParameters | src/abi_codec.ts:52-93 | the same for parameters on the way in |
| SharedOwnership.EveryCellHasOneOwner | src/shared.ts:124-200 | in every reachable state the unsplit, unjoined partitions tile each allocation |
| SharedOwnership.AuthorityIsExclusive | src/shared.ts:373-389 | two accepted handles never share a partition or a cell, nor does one share with a running kernel |
| SharedOwnership.KernelsHoldDifferentCells | src/shared.ts:261-314 | concurrent kernels hold different cells, and a run always finds its loan at its end |
| SharedOwnership.DeadForEver | src/shared.ts:373-389 | a stale, joined or invalidated handle is refused after any further run |
| SharedOwnership.JoinEndsHandles | src/shared.ts:169-200 | a join kills every handle of both children and the parent's earlier ones |
| SharedOwnership.FailureEndsHandles | src/shared.ts:301-314 | a failed run after admission kills every handle into the allocations it was lent |
| SharedBorrowings.KernelsBorrowExactly | src/shared.ts:233-272 | a kernel starts exactly when each handle gives a current idle partition, or a counter, of a valid allocation that lives long enough; it is lent those partitions and no other, and otherwise the first handle that does not is the reason |
| SharedBorrowings.RunsGiveBack | src/shared.ts:301-314 | while a kernel runs its partitions are busy; afterwards their current handles work again, unless it failed after its admission, which invalidates them |
| SharedBorrowings.KernelsFailExactly | src/shared_memory.ts:184-248 | a kernel fails exactly at an index outside its window or a number outside its 32-bit storage, without a change; else it reads what is there or writes that number there alone |
| SharedBorrowings.AllocationsEndSo | src/shared.ts:301-314 | an allocation is valid until its scope closes or an admitted run that was lent a part of it fails, and never again |
| SharedBorrowings.LoansGoSo | src/shared.ts:263-314 | a run holds the partitions of its handles from start to end, and is admitted from its admission on |
| SharedKernels.StepsThroughTheLoan | src/shared_memory.ts:237-248 | a kernel's step is the runtime's write through the loan that covers its window |
| SharedOwnership.OnlyTheBorrowerWrites | src/shared_memory.ts:237-248 | a cell changes only by a write of the kernel to which it is lent |
| SharedKernels.StepIsLocal | src/shared_memory.ts:227-248 | a kernel's step sees and changes its window only |
| SharedKernels.KernelsDoNotInterfere | src/shared_memory.ts:169-248 | under every schedule each kernel ends as it does alone, and nothing outside the windows changes |
| SharedForks.DrivenAlone | src/shared_memory.ts:227-248 | in a run with any other events in between, as long as its allocation stays valid, a kernel ends as it does alone and its partition holds what it computed alone |
| SharedForks.DriveIsRun | src/shared.ts:212-314 | such a run is a run of the runtime, whose writes are the events of the kernels |
| SharedForks.SplitRunJoin | src/shared.ts:124-211 | split, two kernels under any schedule with any foreign events in between, both ends, rejoin: the parent's snapshot is the two lone results side by side |
| SharedForks.OnlyWindowsChange | src/shared.ts:124-211 | when only the kernels act, no cell outside their partitions changes |
| SharedRuntimes.SplitShows | src/shared.ts:124-168 | two halves are granted, the parent's handle is refused meanwhile |
| SharedRuntimes.JoinShows | src/shared.ts:169-200 | the joined handle shows what the children's did; they and the witness are used up |
| SharedRuntimes.SharedRuntime.Allocate | src/shared.ts:66-118 | a new allocation with one partition and one handle over all of it |
| SharedRuntimes.SharedRuntime.Split | src/shared.ts:124-168 | the split, its refusals and its grants |
| SharedRuntimes.SharedRuntime.Join | src/shared.ts:169-200 | the join and each of its refusals |
| SharedRuntimes.SharedRuntime.Snapshot | src/shared.ts:201-211 | what a handle shows |
| SharedRuntimes.SharedRuntime.Start | src/shared.ts:231-272 | every handle is checked before any partition is lent |
| SharedRuntimes.SharedRuntime.Borrow | src/shared.ts:236-258 | one handle among a kernel's arguments: its partition, or the reason to refuse it |
| SharedRuntimes.SharedRuntime.Admitted | src/shared.ts:265-267 | from here on a failure invalidates the allocations |
| SharedRuntimes.SharedRuntime.Finish | src/shared.ts:301-314 | partitions come back; the check for a lost loan never fires |
| SharedRuntimes.SharedRuntime.Invalidate | src/shared.ts:411-413 | the allocation refuses all views from now on |
| SharedRuntimes.SharedWorkerAccess.Read | src/shared_memory.ts:227-235 | a read sees the cell of its own window, on a current generation and a valid index only |
| SharedRuntimes.SharedWorkerAccess.Write | src/shared_memory.ts:237-248 | a write changes that cell and no other |
| Queues.Queue.Push | src/queue.ts:22-34 | a value goes to the end and gets its own handle |
| Queues.Queue.Shift | src/queue.ts:36-41 | the oldest value leaves |
| Queues.Queue.Peek | src/queue.ts:18-20 | the oldest value, which stays |
| Queues.Queue.Clear | src/queue.ts:43-45 | everything leaves |
| Queues.Queue.Remove | src/queue.ts:47-57 | removal by handle deletes exactly its own entry, whatever its value, and again is idempotent |
| Queues.ExcludingCommutes | src/queue.ts:47-57 | handles may be used in any order |
| ChannelLifetimes.ChannelsAreBoundedQueues | src/channel.ts:57-147 | delivered, buffered and waiting messages are the sent ones in order without the withdrawn; receivers wait only on an empty open channel, senders only behind a full buffer |
| ChannelOrders.SentIsExact | src/channel.ts:57-98 | that sent history is in the order of the calls, and holds exactly the sends that wait or were accepted; after a dropped buffer, exactly those delivered |
| ChannelLifetimes.OneMessagePerSelect | src/selecting.ts:29-101 | over all channels a select gets at most one message and a message goes to at most one select |
| ChannelLifetimes.NothingIsLost | src/channel.ts:57-126 | an accepted message is delivered or buffered unless the buffer was dropped; what a select got was delivered to it |
| ChannelLifetimes.LosersDoNotWait | src/selecting.ts:29-36 | whoever waits at a channel is undecided |
| ChannelLifetimes.DecisionsAreFinal | src/selecting.ts:37-62 | an outcome never changes: a cancelled or failed select takes nothing later |
| ChannelLifetimes.ReceiveOnClosed | src/channel.ts:100-126 | a closed channel drains its buffer and then answers None |
| ChannelLifetimes.ClosedDrainsForEver | src/channel.ts:128-147 | a closed channel stays closed, takes no further send and only drains from the front |
| ChannelDecisions.SelectsTakeTheFirstArm | src/selecting.ts:65-101 | a new select takes its first arm that decides at once: an ended channel fails it, a message is the oldest there, an empty closed channel ends that arm; if none does it waits at every channel it names |
| ChannelDecisions.SendsGoTheirWay | src/channel.ts:57-98 | a send is cancelled when the scope has ended, refused when the channel is closed, else taken by the longest waiting receiver at its own arm, or buffered where there is room, or waits last |
| ChannelDecisions.WaitingSelectsAreDecidedSo | src/selecting.ts:29-101 | over any run a waiting select is decided by a send to a channel where it waits first, by its own cancellation or timer, or by the end of a channel at its first arm there, and by nothing else, with exactly that outcome |
| ChannelDecisions.WaitingSendsEndSo | src/channel.ts:36-147 | over any run a waiting send ends by its own cancellation, the end of its channel, or a select that takes while it is first in line, with exactly that result |
| ChannelDecisions.ChannelsEndSo | src/channel.ts:28-147 | a channel opens empty with the capacity asked for, for ever; it closes by its own end alone, which sends all waiters away; closing keeps the buffer, disposing and the scope's end drop it |
| ChannelRuns.TakeOk | src/channel.ts:103-121 | a take hands out the oldest message and moves the oldest waiting sender up |
| ChannelRuntimes.ChannelRuntime.Send | src/channel.ts:57-98 | a message goes to the first undecided receiver, the buffer or the waiting senders |
| ChannelRuntimes.ChannelRuntime.Offering | src/channel.ts:61-74 | the loop stops at the first receiver that accepts |
| ChannelRuntimes.ChannelRuntime.Register | src/channel.ts:100-126 | one arm takes at once what is ready, or waits |
| ChannelRuntimes.ChannelRuntime.TakeReady | src/channel.ts:104-121 | the oldest message is taken and the oldest waiting sender moves up |
| ChannelRuntimes.ChannelRuntime.Decide | src/selecting.ts:29-62 | the one decision of a select takes it off all queues |
| ChannelRuntimes.ChannelRuntime.StartSelect | src/selecting.ts:14-101 | arms are registered in order until one decides; a receive is the select with one arm |
| ChannelRuntimes.ChannelRuntime.CancelSelect | src/selecting.ts:37-42 | the select leaves all queues and its outcome is the failure |
| ChannelRuntimes.ChannelRuntime.TimerFired | src/selecting.ts:80-100 | a timer decides only a pending select |
| ChannelRuntimes.ChannelRuntime.CancelSend | src/channel.ts:78-97 | a waiting sender leaves; any other send is unaffected |
| ChannelRuntimes.ChannelRuntime.Close | src/channel.ts:128-141 | waiting senders are refused, waiting receivers get None |
| ChannelRuntimes.ChannelRuntime.Dispose | src/channel.ts:143-147 | closes and drops the buffer |
| ChannelRuntimes.ChannelRuntime.Abort | src/channel.ts:36-54 | the scope's end fails all waiters and drops the buffer |
| ScopeRuns.SubtreeClosed | src/resources.ts:325-386 | below a closed scope all scopes are closed |
| ScopeRuns.ClosedIsEmpty | src/resources.ts:325-386 | after a close the whole subtree has no children, cleanups or acquisitions, and each lease ever granted there had its disposal begun exactly once |
| ScopeRuns.ClosedIsQuietIff | src/resources.ts:342-378 | all disposals of a closed scope have ended if and only if those have that were begun after its last drain and before the look at the cleanup list |
| ScopeRuns.ClosedWithDisposalInFlight | src/resources.ts:342-378 | a run in which a scope closes with a disposal in flight |
| ScopeRuns.CleanupsRunYoungestFirst | src/resources.ts:365-376 | cleanups run latest first |
| ScopeRuns.ChildrenBeforeCleanups | src/resources.ts:356-366 | all scopes opened below by the program are closed before the first cleanup runs |
| ScopeRuns.TablesAgree | src/resources.ts:202-264 | token, live lease and cleanup entry come and go together |
| ScopeRuns.AuthorityStaysBelow | src/resources.ts:274-306 | lowering and lifting are inverse, and only for leases of standing scopes above |
| ScopeEvents.FlagsAreTheEvents | src/resources.ts:71-158 | a scope's finalizers are armed exactly until a trap reaches it; it is cancelled exactly when a cancellation, first close or trap came down to it; it is open exactly until its own close |
| ScopeEvents.FinalizersGetTheirScope | src/resources.ts:127-152 | over any run a closing scope that comes to an exit finalizer opens one new scope for it, below itself, masked and open, exactly if no trap has reached it; otherwise it passes the finalizer over |
| ScopeEvents.FinalizersAreWaitedFor | src/resources.ts:133-150 | an exit finalizer settles exactly once every scope below its closing scope is closed, a lease's once the disposal has ended |
| ScopeEvents.EveryFinalizerHasItsTurn | src/resources.ts:365-376 | every finalizer that a run registered waits or has had its turn, and in a closed scope it has had it, exactly once |
| ScopeEvents.ClosingGoesOn | src/resources.ts:342-378 | while nothing that a closing scope waits for is outstanding, its next step is possible and lowers the number of steps left |
| ScopeEvents.AuthorityIs | src/resources.ts:403-415 | a lease may be used exactly by a scope at or below its own that was neither cancelled nor closed, while the lease's scope was not cancelled, or is not closed and the user serves a finalizer at or below it |
| ScopeEvents.FinalizersKeepAuthority | src/resources.ts:403-412 | a finalizer may use every live lease of its closing scope and of all scopes above, although closing has cancelled them |
| ScopeEvents.PlacesAreForLife | src/resources.ts:74-98 | a scope's parent and masked owner never change, and are what its opening gave it |
| ScopeEvents.LeasesAreForLife | src/resources.ts:202-264 | a lease begins with a grant to an open scope, belongs to it ever after, and ends with its release or when its scope's closing comes to it |
| ScopeEvents.AcquisitionsAreCounted | src/resources.ts:266-273 | a scope's pending acquisitions are those started and not ended; past its first drain there are none |
| ScopeEvents.WithinIsByParents | src/resources.ts:160-168 | a scope is within another exactly when a chain of parents leads up to it |
| ScopeEvents.CancellationComesDown | src/resources.ts:114-120 | a cancellation reaches exactly the scopes from which parents lead up to it past no masked scope of a parent |
| ScopeRuntimes.ScopeRuntime.CancelFrom | src/resources.ts:114-120 | the recursion cancels exactly the scope and what is below it outside its masked cleanup scopes |
| ScopeRuntimes.ScopeRuntime.CancelScope | src/resources.ts:114-120 | a cancellation from outside is that recursion |
| ScopeRuntimes.ScopeRuntime.ReclaimAfterTrap | src/resources.ts:154-158 | the recursion disarms and cancels the whole standing subtree |
| ScopeRuntimes.ScopeRuntime.TrapScope | src/resources.ts:154-158 | a trap is that recursion |
| ScopeRuntimes.ScopeRuntime.IsWithin | src/resources.ts:160-168 | the walk up the parents decides ancestry |
| ScopeRuntimes.ScopeRuntime.OpenRootScope | src/resources.ts:74-84 | a scope of its own registry |
| ScopeRuntimes.ScopeRuntime.OpenChildScope | src/resources.ts:74-98 | a child of an open scope, with its masked owner; refused otherwise |
| ScopeRuntimes.ScopeRuntime.OnScopeExit | src/resources.ts:127-152 | a finalizer enters the cleanup list of an open scope |
| ScopeRuntimes.ScopeRuntime.SettleAcquisition | src/resources.ts:267-273 | an acquisition leaves the pending ones; what it made is granted only if the scope still stands |
| ScopeRuntimes.ScopeRuntime.TrackAcquisition | src/resources.ts:266-273 | only an open scope starts one |
| ScopeRuntimes.ScopeRuntime.CheckLease | src/resources.ts:403-415 | who may use a live lease |
| ScopeRuntimes.ScopeRuntime.Register | src/resources.ts:202-239 | a grant enters all tables, in an open scope only |
| ScopeRuntimes.ScopeRuntime.Release | src/resources.ts:241-264 | the lease leaves all tables before its disposal; a second release is refused |
| ScopeRuntimes.ScopeRuntime.Disposed | src/resources.ts:252-263 | a scope that is not closing forgets a finished disposal at once |
| ScopeRuntimes.ScopeRuntime.Close | src/resources.ts:325-386 | closing starts once and cancels the subtree |
| ScopeRuntimes.ScopeRuntime.Drained | src/resources.ts:356-364 | children, acquisitions and releases have been waited for |
| ScopeRuntimes.ScopeRuntime.Continue | src/resources.ts:365-383 | after a drain the youngest cleanup starts, or the scope closes and leaves its parent |
| ScopeRuntimes.ScopeRuntime.FinalizerEnded | src/resources.ts:367-375 | the finalizer has settled and the releases are drained again |
| CleanupLists.CleanupList.Append | src/resources.ts:388-393 | a new cleanup is the youngest |
| CleanupLists.CleanupList.Remove | src/resources.ts:395-401 | a cleanup leaves from anywhere, the others keep their order |
| CleanupLists.LessIsRemoval | src/resources.ts:395-401 | unlinking a node is leaving its entry out |
| DevelopmentRuns.ActiveUnitsAreLinked | src/development_runtime.ts:253-373 | after every activation each link of an active unit resolves to exactly one matching export of an active unit |
| DevelopmentRuns.UnitsCloseOnce | src/development_runtime.ts:671-742 | a unit closes at most once and never under a live snapshot; its pin count is the number of those |
| DevelopmentRuns.RetirementIsUnobserved | src/development_runtime.ts:542-602 | while retiring, no running call reaches a replaced unit; while draining, only the awaited ones do |
| DevelopmentRuns.CapturedCallbacksKeepTheirUnits | src/development_runtime.ts:671-725 | until its release a captured callback keeps its capture-time units open and resolves each link among them, across any commits |
| DevelopmentHistory.TheLastPublishedBuildIsActive | src/development_runtime.ts:562-568 | over any run the active revision and entry are those of the last published build, the active units its changed and retained ones as it describes them, with the edges it declares; each published build started from the revision before |
| DevelopmentHistory.OnlyPublicationsMove | src/development_runtime.ts:542-602 | nothing but a publication changes units, entry or revision; it keeps retained units as the same instances, makes changed ones new, and every unit active before is changed, retained or removed, one of them only |
| DevelopmentHistory.CommitDrainsExactly | src/development_runtime.ts:542-576 | a commit blocks the replaced units and exactly those that link to one, however indirectly, awaits the calls into them, and publishes at once exactly when there are none and no hosted instance has to go |
| DevelopmentHistory.RetirementAwaitsTheUnheld | src/development_runtime.ts:582-592 | a publication waits for exactly the replaced instances that no snapshot held when retirement began |
| DevelopmentHistory.InstancesAreAccountedFor | src/development_runtime.ts:703-742 | over any run of a hosted runtime each instance ever prepared is active, about to be, closed, or retired and, until the runtime ends, held by a live snapshot |
| DevelopmentHistory.LinksNeedOneExport | src/development_runtime.ts:275-302 | a link is met exactly when one export has its name, and that one has its layout and manner |
| DevelopmentRuntimes.FindAffected | src/development_runtime.ts:548-557 | the drain loop computes exactly the units that transitively link to a replaced one |
| DevelopmentRuntimes.Dependencies | src/development_runtime.ts:671-691 | the snapshot loop computes exactly the units that the entry reaches, from the given providers |
| DevelopmentRuntimes.CheckLinks | src/development_runtime.ts:253-373 | accepts exactly link-closed units with matching exports and the declared edges |
| DevelopmentRuntimes.DevelopmentRuntime.BeginPreparation | src/development_runtime.ts:196-209 | one preparation at a time, of a build that fits the active units, and none once the lifetime has ended |
| DevelopmentRuntimes.DevelopmentRuntime.FinishPreparation | src/development_runtime.ts:236-373 | a candidate is pending only if its links and edges check |
| DevelopmentRuntimes.DevelopmentRuntime.AbortActivation | src/development_runtime.ts:605-613 | an abandoned candidate closes exactly the instances that it would have added and leaves the active units alone |
| DevelopmentRuntimes.DevelopmentRuntime.CommitActivation | src/development_runtime.ts:542-602 | publishes at once, with the candidate's units, entry and revision, or leaves them as they are and awaits exactly the affected calls |
| DevelopmentRuntimes.DevelopmentRuntime.RetireReplaced | src/development_runtime.ts:582-592 | replaced units retire once the awaited calls have ended, and publication waits for those that are being closed |
| DevelopmentRuntimes.DevelopmentRuntime.PublishReplacement | src/development_runtime.ts:562-602 | once the closings begun at retirement have settled, the candidate's units, entry and revision become the active ones, and nothing is blocked |
| DevelopmentRuntimes.DevelopmentRuntime.CallAsync | src/development_runtime.ts:615-646 | a call is admitted unless its unit is draining, inactive or unhosted |
| DevelopmentRuntimes.DevelopmentRuntime.Snapshot | src/development_runtime.ts:671-702 | a captured callback pins each unit it reaches |
| DevelopmentRuntimes.DevelopmentRuntime.SnapshotAgain | src/development_runtime.ts:660-702 | a callback captured by a captured callback takes its units from the earlier snapshot |
| DevelopmentRuntimes.DevelopmentRuntime.Release | src/development_runtime.ts:703-724 | a release unpins, and closes retired units that nothing holds |
| DevelopmentRuntimes.DevelopmentRuntime.Disposal | src/development_runtime.ts:734-741 | a closing has settled |
| DevelopmentRuntimes.DevelopmentRuntime.Close | src/development_runtime.ts:648-653 | the runtime's own lifetime ends: no call and no preparation is admitted any more, and releases close nothing |

## Left out

- Package resolution, `blot.json`, `.blotc` capsules and package refreshes: they depend on the file system.
- The inspector's parity checks and the refusal of an invalid include path are part of the abstract `parse`.
- `refresh` and `refreshDiskInputs` (src/workspace_graph.ts:85-109) and `refreshLoadedModules` (src/load.ts:209-279), which find changes by reading every input again: one map holds the text of each path, so a module and an include of the same path overwrite each other there.
- Path normalisation: paths are compared as given, and `resolve` is a parameter.
- Workspace.WorkspaceGraph.constructor: pinned modules are snapshots, as src/compiler/session.ts:357 makes them; a pinned module of source storage, which an overlay or a changed include drops from the cache, is not modelled.
- Interleaving of two workspace operations across their waits: each operation is one step.
- Program identities: which program number a Wasm module or a set of development units gets, the 64-entry table behind it, and the exhaustion of job and program numbers.
- Message cloning, digests, timers, fetching and the disk cache; failing posts and worker starts are the parameter `Fates`.
- The worker's instances, their scopes and the chain of retirements; a worker answers a job and forgets it before it takes the next request.
- Codec: resource and callback types, and JavaScript's coercions when a lane has another core type than its position asks for.
- Codec: floats are bit patterns, so NaN payloads and rounding between precisions are not modelled; text decoding is a parameter, and the round trips are for texts that decode from their own encoding.
- AbiCodecs.AbiCodec.Write: memory is a sequence that the codec reassigns, not a buffer shared with running guest code, and sizes above the safe integers are not rounded.
- AbiRoundTrips.WriteThenRead: says nothing about types that are not straight; MemoryShowsIff shows that for these memory does not show some lanes that lift. Types with equal names in one record or variant, or with an empty variant, are outside of MemoryShowsIff; no manifest parser of the development runtime admits them.
- Shared storage: kernels are abstract step functions, atomics have no value, the handles granted by a split succeed or fail together, and a value stored as f32 is kept as given instead of rounded.
- `mapSharedResources`: the walk over a kernel's structured argument is the sequence of handles that it finds.
- Channels: a signal that was aborted before the operation, the order of promise callbacks, the failures of drained timers, and the resource families around the channels.
- Development: decoding and validation of manifests and builds as data, export kinds of Wasm modules, digests, and the closing of a candidate's units after a failed preparation.
- DevelopmentRuntimes.DevelopmentRuntime.Close: the clearing of the unit, pin and retirement tables after everything has closed; all statements are about the time before it.
- The direct linker's copy between two memories (`copyFlatValue`): its variant branch passes joined lanes on unconverted, and no claim is made about it.
- ScopeRuns.AuthorityStaysBelow: a lease's handle and its token are one identity, and families and payload identities are not checked.
- ScopeRuntimes.ScopeRuntime.SettleAcquisition: the disposal of an acquired value whose grant is refused.
- Scopes: the callbacks registered with `own`, resource families and payload identities, what an acquisition's `create` and `dispose` do when they fail, and how failures are aggregated.
- ScopeRuntimes.ScopeRuntime.Release: the runtime keeps the cleanup list as a sequence; CleanupList shows that the linked list is one.
- The language service, command line, formatter, compiler passes and generated code.
