# Verified model of the Tenstorrent DRA framework

This project models the decision logic of the Tenstorrent DRA framework and proves what a run of it can and
cannot do. It has three parts.

**Placement.** `BuildFabric` merges node observations into a link graph; `SolveContext` searches that graph for
a connected set of devices with backtracking that may be cancelled at any time; a breadth-first check ends each
branch. The results: validity is characterised exactly, an accepted answer is the first one in (node, device)
order, a plain "no" is a proof that no connected choice exists, and neither the order of nodes nor the order of
endpoints matters. An assignment stays connected as long as the generation it was pinned to stands.

**The node agent.** `Agent` holds the in-memory state and the durable world (state file and CDI files). Reset,
audit, state write, CDI write, CDI removal, inventory and reload may each fail, and a failed write leaves the
file old or new. Every step of a call is logged as an `Entry` with the world before and after it; each entry begins
with the world the one before it left, each call with the world the last call left, and the last entry ends with the
world the agent is in. A call is *lawful* when each of its steps is, and `Agent.Valid` says that every call of the run
so far was lawful. Each step also says what it did to the files, so the log speaks for the world. So a statement about
entries is a statement about every point of every run, including a crash between any two steps, and about the state a
caller sees.

**The workload controller.** `WorkloadController` holds every version of each workload the API server has held,
how far the informer cache has read, and the Pods and claims it created. Reconciliation from a lagging view of other
workloads never assigns a device twice, because what the cache may still miss is pending in the process.

| file | models |
|---|---|
| `Ordering.dfy`, `Api.dfy` | string order, sorting, exchanged records |
| `Connectivity.dfy` | the link graph and `connected` |
| `Topology.dfy`, `Generation.dfy`, `Pinning.dfy` | `BuildFabric`, `WorkloadGeneration`, pinned assignments |
| `Placement.dfy`, `Solver.dfy`, `PlacementTheorems.dfy` | plans, `SolveContext`, what its answers mean |
| `Inventory.dfy`, `Lifecycle.dfy` | observations, the laws of a call |
| `Batches.dfy` | which allocations may be prepared, and what a batch of them can do to ownership |
| `Screening.dfy` | quarantine and resets of an observation pass |
| `Causes.dfy`, `Answers.dfy` | what a failed call may be blamed on; what a batch answers, claim by claim |
| `Manager.dfy` | the agent |
| `Recovery.dfy`, `Runs.dfy` | startup, whole runs, crashes and restarts |
| `Capacity.dfy`, `ExactClaims.dfy` | ResourceSlices, kubelet health, exact claims |
| `Reconcile.dfy`, `Decisions.dfy`, `Controller.dfy` | workload histories, what a reconcile decides, reconciliation |

Check everything with `dafny verify dfyconfig.toml`.

## How to read the results

- `connected` starts from whichever selected endpoint map iteration yields first. On arbitrary endpoint lists its
  answer lies between `MayConnect` (some start reaches all) and `MustConnect` (every start does);
  `StartMattersWithoutReciprocity` shows that the two differ when a link is not reciprocated, and
  `ConnectedIffSubgraph` that both equal connectedness of the induced subgraph when links are.
- The solver's contract makes no assumption on the endpoints. Minimality, uniqueness and independence of order
  are stated for a valid fabric with distinct (node, device) pairs.
- A claim record that is on file when a call begins leaves the file only after a release (`KeptOrReleased`). A record
  that comes on file within a call by an intent whose write was reported as failed is dropped by the next write;
  `LostIntentIsLawful` is such a call, and no CDI file ever exists for such a record.
- A step that makes a claim Prepared on file with some devices comes after an audited reset of each of these devices in
  the same call (`PreparedIsExposed`). A step that takes a device out of the quarantine on file comes after an audited
  reset of it, or after an audited healthy observation if the record was waiting for one (`LeavesClean`). Both hold of
  every step of every run (`StepsLawful`), and the quarantine in memory moves by the same rule in every call (`Moves`).
- A batch is checked against the owners on record, and its `owners` map learns of successful claims only. So it may
  put one device on record for two claims, and `SingleIffUncontended` says when: if and only if two of its claims with
  different UIDs are not on record yet, are both acceptable, and share a device. `OverlappingBatchDoubles` is an
  instance; batches that name disjoint devices are never contended (`DisjointIsUncontended`).
- Every answer is accounted for. The log of a call holds each look at the inventory (`Looked`) beside the effects, and
  `Failed` says which steps failed. A prepare or release call fails as a whole only if a step did; a claim of a batch is
  refused only if it is unacceptable, names a device on record for another claim, does not match or is barred by its own
  record, a step failed, or the look after its resets did not show every device back (`Excused`); a named claim stays
  unreleased only if a step failed or a device was not there (`ReleasesAnswered`). Startup fails only if a step did.
- `Back` is about what discovery reported, not about the agent's filtered view: the device is there, safe, with its
  identity, and at a path that no other name has in what the call knew or saw. `BackIsReturned` shows that the agent
  then returns it, because a pass quarantines a device only for a reason (`HeldWithReason`).
- `Decided` gives the whole status that a reconcile writes, by cases on the Pods, the devices others hold, the recorded
  spec and generation, and the fabric; `PhaseLaw` says that nothing else is written, and that it is written if every
  request was granted and the workload is not finished.
- CDI IDs of two claims differ unless one UID continues the other with a dash: "a" with device "b-c" and "a-b" with
  device "c" give the same ID (`CDIIDsCollideIff`). UIDs of one length cannot do that.
- A monitoring pass resets devices by name but acts on paths. A new identity seen at the path of a claimed device is
  reset there (`NewIdentityIsDue`); `ClaimedPathsSparedIff` gives the exact condition for leaving claimed paths alone.
- The slices and the kubelet view are made at different times. They agree if and only if the reload between them read
  no observed device back into quarantine that the monitoring pass had left out of it (`AgreeIff`).
- "Completed startup" is part of the statements about the agent: `Start` establishes `Agent.Valid` on an unreadable file
  and on one the agent could have written, and every file of a run is such a file (`CrashAndRestart`).
- A workload may be reconciled from any version the cache shows. From a version without assignments this is always
  safe. From one with assignments it is safe if forgetting what is pending and writing back what was seen are
  (`Reconcilable`), which holds of the latest status (`LatestIsReconcilable`); `ForgetPendingIff` and
  `WriteConsistentIff` say exactly when each is, and `StaleWriteDoubles` is a run in which a stale write is not.
- A finished workload without assignments is placed again if its spec becomes valid: the status write reports success
  without changing it, and children are created that no status holds (`CommitAssignment`).

## Model

| member | source | states |
|---|---|---|
| Ordering.LessIsLexicographic | src/internal/placement/placement.go:67-72 | strings are ordered at the first position where they differ, and a proper prefix comes first |
| Connectivity.CollectIDs | src/internal/placement/placement.go:225-230 | the selected endpoint IDs are those of all assigned devices |
| Connectivity.BuildIndex | src/internal/placement/placement.go:235-238 | the index maps each ID to its last endpoint |
| Connectivity.PickStart | src/internal/placement/placement.go:239-251 | accepts only known endpoints of one ring, whatever the iteration order; the empty ID is a sentinel |
| Connectivity.Search | src/internal/placement/placement.go:253-271 | terminates with exactly the selected endpoints reachable over up links inside the selection |
| Connectivity.Expand | src/internal/placement/placement.go:258-270 | pushes every unseen selected neighbour and nothing else, or shrinks what is left |
| Connectivity.Connected | src/internal/placement/placement.go:224-273 | true only if some start reaches all, false only if some start does not (or an endpoint is unknown or in another ring) |
| Connectivity.ConnectedIffSubgraph | src/internal/placement/placement.go:224-273 | over reciprocal links the check decides that no split of the set avoids an up link, from every start |
| Connectivity.StartMattersWithoutReciprocity | src/internal/placement/placement.go:239-247 | a one-way link makes the answer depend on the start |
| Topology.BuildFabric | src/internal/topology/topology.go:75-167 | valid if and only if the observations are sound, and then none is older than `ttl`; no endpoint was dropped, each carries the data of its own device, and every up link is reciprocated; always unique, non-empty, sorted IDs within the limit |
| Topology.Collect | src/internal/topology/topology.go:80-118 | reports no error exactly on fresh nodes with complete, unique, not too many endpoints, and then keeps all in order |
| Topology.CollectOne | src/internal/topology/topology.go:93-116 | one endpoint: incomplete, duplicate and overflow errors, kept otherwise |
| Topology.CheckLinks | src/internal/topology/topology.go:123-152 | no error exactly when every up link with a named peer stays in its ring and is reciprocated |
| Topology.CheckLink | src/internal/topology/topology.go:129-150 | one link: no error exactly when its peer exists, shares fabric and ring and links back |
| Topology.NodeOrderIrrelevant | src/internal/topology/topology.go:122-156 | permuting the nodes changes neither validity nor endpoints, hence not the generation |
| Topology.ValidFabricDecidesConnectivity | src/internal/topology/topology.go:127-153 | on a valid fabric, in any order, the placement check decides connectedness from any start |
| Generation.WorkloadGeneration | src/internal/topology/topology.go:170-196 | the digest of the endpoints of the requested ring, else of the first selected endpoint's ring |
| Generation.GenerationPins | src/internal/topology/topology.go:170-196 | an unchanged generation leaves every selected endpoint and its connectedness unchanged |
| Generation.GenerationIgnoresOtherRings | src/internal/topology/topology.go:186-195 | the generation changes if and only if some endpoint of the relevant ring appears, vanishes or changes |
| Pinning.SolvedIsPlaced | src/internal/controller/controller.go:408-428 | a solved assignment lies in one ring, the requested one, and is connected in the fabric |
| Pinning.PinnedStaysConnected | src/internal/controller/controller.go:376-428 | as long as the recorded generation matches a later fabric, the assignment is connected there |
| Solver.SolveContext | src/internal/placement/placement.go:55-115 | limits as summed in 64 bits; an accepted plan is the first acceptable one even if cancellation arrives; no error and no plan means none exists |
| Solver.TotalCountIsSum | src/internal/placement/placement.go:57-65 | the device total the limits are checked on is the sum of the counts, up to a multiple of 2^64 |
| Solver.Search.ChooseRank | src/internal/placement/placement.go:77-112 | finds the first plan beyond the ranks placed so far, or restores the shared selection exactly and proves there is none unless cancelled |
| Solver.Search.TryNodes | src/internal/placement/placement.go:91-111 | nodes in ascending order, those with too few choices skipped without losing a plan |
| Solver.Search.Choose | src/internal/placement/placement.go:166-182 | combinations in ascending order with the tail bound; `picked` and the selection are restored on failure |
| Solver.Search.Visit | src/internal/placement/placement.go:96-107 | records the rank's assignment, and on failure releases exactly its devices |
| Solver.Search.CandidatesByNode | src/internal/placement/placement.go:118-134 | groups, per node and in order, exactly the unreserved, unselected, matching candidates |
| Solver.SortedNodeNames | src/internal/placement/placement.go:153-160 | the node names in strictly ascending order |
| Solver.TooFewChoices | src/internal/placement/placement.go:93-95 | skipping a node with too few choices loses no solution |
| Solver.NoPickLeft | src/internal/placement/placement.go:173-181 | stopping the loop at the tail bound loses no solution |
| Solver.FirstNodeWins | src/internal/placement/placement.go:91-110 | a plan on the first productive node precedes every solution on later nodes |
| PlacementTheorems.PlacementSound | src/internal/placement/placement.go:77-150 | each rank gets its count of fit, unreserved devices of one node, one device for a count that is not positive; disjoint across ranks, distinct for distinct device IDs, and connected |
| PlacementTheorems.PlacementComplete | src/internal/placement/placement.go:55-115 | a plain "no" rules out every choice of device sets that connects from every start |
| PlacementTheorems.NoConnectedChoice | src/internal/placement/placement.go:55-115 | on a valid fabric a plain "no" rules out every connected choice of device sets |
| PlacementTheorems.AnswerIsFirst | src/internal/placement/placement.go:66-115 | every other connected plan first differs at a device later in (node, device) order |
| PlacementTheorems.AnswerUnique | src/internal/placement/placement.go:66-115 | on a valid fabric the answer is determined by the problem |
| PlacementTheorems.OrderIndependence | src/internal/placement/placement.go:66-72 | permuting the endpoint list never changes the answer |
| Inventory.SafeDeviceMeans | src/internal/lifecycle/janitor.go:178-202 | no unsafe reason exactly for present, eligible, healthy, fault-free, isolated devices with no link down |
| Manager.Agent.IsRecent | src/internal/lifecycle/janitor.go:94-106 | an observation is recent if and only if it is dated, not older than configured, and at most five seconds ahead of the clock |
| Manager.Agent.Look | src/internal/lifecycle/janitor.go:94-106 | what discovery reports, logged, and taken only if it is not older than configured and at most five seconds ahead |
| Manager.Agent.WriteStateFile | src/internal/lifecycle/state.go:63-106 | the state file is replaced as a whole; a reported failure leaves it old or new |
| Manager.Agent.Reload | src/internal/lifecycle/state.go:32-60 | reload merges the file over memory, file entries winning, and opens a call in the world the last one left |
| Manager.Agent.Quarantine | src/internal/lifecycle/janitor.go:244-258 | the device is quarantined with the reason whether or not the audit succeeds; others keep their record |
| Manager.Agent.Sanitize | src/internal/lifecycle/janitor.go:261-292 | the device leaves quarantine exactly when the reset succeeded and was audited |
| Manager.Agent.DeviceOwners | src/internal/lifecycle/manager.go:483-491 | maps exactly the recorded devices, each to a claim that records it |
| Manager.Agent.ObserveDevice | src/internal/lifecycle/janitor.go:113-129 | new, re-homed and unsafe devices end in quarantine with the last such reason, a record with the same reason stays, and nothing else changes |
| Manager.Agent.QuarantineMissing | src/internal/lifecycle/janitor.go:130-134 | exactly the known devices that were not observed are added to the quarantine |
| Manager.Agent.RecoverOne | src/internal/lifecycle/janitor.go:136-157 | a reset at the observed path unless only a healthy observation was missing; the device leaves quarantine only if the reset, or that observation, succeeded and was audited; an unsafe one stays awaiting health |
| Manager.Agent.RecoverIdle | src/internal/lifecycle/janitor.go:135-158 | resets exactly the idle, present, quarantined devices that need it, and releases only those cleanly reset or seen healthy |
| Manager.Agent.Observe | src/internal/lifecycle/janitor.go:109-161 | owned devices are neither reset nor released and are in quarantine exactly as the scan finds them, unsafe and missing ones are quarantined and nothing is without a fault, the devices reset are exactly those due from the state before, and only cleaned ones leave quarantine |
| Manager.Agent.FilterSnapshot | src/internal/lifecycle/janitor.go:164-175 | exactly the quarantined devices become ineligible |
| Manager.Agent.SafetyFor | src/internal/lifecycle/janitor.go:205-221 | counts the available devices; unsafe exactly when there is none |
| Manager.Agent.Monitor | src/internal/lifecycle/janitor.go:39-55 | on a recent snapshot a whole observation pass: exactly the due idle devices are reset, only cleaned ones leave quarantine, no idle safe device stays in it unless its recovery failed, and none enters it without a fault; otherwise the degraded view; every record stays on file; it fails only if a step did |
| Manager.Agent.InventoryFailedLocked | src/internal/lifecycle/janitor.go:69-91 | the last observation filtered by quarantine if and only if it is recent, else every known device quarantined and nothing published |
| Manager.Agent.InventoryFailed | src/internal/lifecycle/janitor.go:58-66 | resets nothing, keeps every record in memory and on file and every CDI file, and the degraded view is decided by the age of the last observation |
| Manager.Agent.ClaimFromAllocation | src/internal/lifecycle/manager.go:430-475 | accepts if and only if every allocated device passes, and records its current identity in order |
| Manager.Agent.RecordIntent | src/internal/lifecycle/manager.go:365-371 | the intent is durable before anything else, or memory forgets it |
| Manager.Agent.ResetThenVerify | src/internal/lifecycle/manager.go:377-404 | success means every device was reset, audited and then seen healthy with the recorded identity, with the claim on record throughout; failure means that a step failed or the look after the resets did not show every device back |
| Manager.Agent.CheckReturned | src/internal/lifecycle/manager.go:393-404 | succeeds exactly when every device came back with the same healthy identity, else one that did not is quarantined |
| Manager.BackIsReturned | src/internal/lifecycle/manager.go:382-404 | a device that discovery shows safe, with its identity and at a path of its own passes the verification if it was out of quarantine |
| Manager.Agent.Expose | src/internal/lifecycle/manager.go:405-426 | the claim is Prepared exactly on success, and then durably, with a CDI file for its devices |
| Manager.Agent.Commit | src/internal/lifecycle/manager.go:415-422 | the step to Prepared is durable or undone |
| Manager.Agent.PrepareOne | src/internal/lifecycle/manager.go:337-427 | touches this claim only, with one of the outcomes of a claim; refused without a trace if unacceptable or barred by its record; a claim that becomes Prepared does so by a lawful promotion and is answered with devices; any other refusal is due to a failed step or a device that did not come back; owners learn of exactly the successes |
| Manager.Agent.PrepareBatch | src/internal/lifecycle/manager.go:154-169 | what the loop does to the records and to `owners` is an outcome of the batch; claims outside it are untouched; every claim has an answer, and an error has an excuse |
| Manager.Agent.PrepareResourceClaims | src/internal/lifecycle/manager.go:129-175 | under all failures every record stays in memory and on file, other claims are untouched and only cleaned devices leave quarantine; answers for exactly the claims of the batch, judged by the inventory of its first look: devices that are durably Prepared with a CDI file listing exactly them, no device for two claims, or an error with an excuse; an error as a whole only if a step failed; a batch that is not contended keeps each device in one record |
| Answers.AnswerExposes | src/internal/lifecycle/cdi.go:43-75 | for each allocated device in order its request, pool and name, and one CDI ID under which the file exposes exactly the path, major and minor of the inventory |
| Lifecycle.CDIIDsCollideIff | src/internal/lifecycle/cdi.go:73-75 | two CDI IDs are equal if and only if UID and device name are, up to slashes, or one UID continues the other with a dash and the names make up for it |
| Manager.Agent.Postflight | src/internal/lifecycle/manager.go:226-236 | each device was reset and audited at its observed path or is quarantined; success means the former for all |
| Manager.Agent.Forget | src/internal/lifecycle/manager.go:256-262 | the record leaves memory and file together, or stays in memory |
| Manager.Agent.ReleaseOne | src/internal/lifecycle/manager.go:204-265 | success means the record and the CDI file are gone; otherwise the record stays in phase Releasing, and once the release is under way each device is clean or quarantined; failure is due to a failed step or a device that is not there |
| Manager.Agent.UnprepareResourceClaims | src/internal/lifecycle/manager.go:178-271 | a record that left the file was named and released with every device reset; claims not named are untouched; answers for exactly the named claims, success exactly when the record is gone; a claim stays only if a step failed or the inventory did not show each of its devices present, on record with every device clean or quarantined; only cleaned devices leave quarantine; nothing becomes Prepared |
| Batches.SingleIffUncontended | src/internal/lifecycle/manager.go:154-169 | every outcome of a batch keeps each device in one record if and only if no two acceptable claims not yet on record share a device |
| Batches.OutcomeExplained | src/internal/lifecycle/manager.go:154-175 | whatever is on record after a batch was before, or was named by a claim that was new and acceptable |
| Batches.OutcomeKeeps | src/internal/lifecycle/manager.go:364-427 | a record in memory and on file survives every outcome with its devices |
| Batches.DoublingOutcome | src/internal/lifecycle/manager.go:364-427 | two such claims for one device may both end on record when the first fails after its intent |
| Batches.DisjointIsUncontended | src/internal/lifecycle/manager.go:154-169 | batches that name disjoint devices are never contended, whatever the inventory |
| Screening.ClaimedPathsSparedIff | src/internal/lifecycle/janitor.go:120-157 | a pass resets no path of a recorded claim if and only if no device due for a reset is observed there |
| Screening.NewIdentityIsDue | src/internal/lifecycle/janitor.go:113-119 | a new present identity is due for a reset, even at the path of a claimed device |
| Lifecycle.KeptOrReleased | src/internal/lifecycle/manager.go:204-262 | what is on file when a call begins stays on file after every step, unless the call reset each device and removed the CDI file first |
| Lifecycle.LostIntentIsLawful | src/internal/lifecycle/manager.go:365-371 | a lawful call in which an intent reported as unwritten comes on file and is dropped by the next write |
| Lifecycle.PreparedIsExposed | src/internal/lifecycle/manager.go:364-427 | a step after which a claim is Prepared on file with some devices, and was not before, comes after recording it, resetting each of these devices, seeing them healthy, writing the CDI file and its approval |
| Lifecycle.LeavesClean | src/internal/lifecycle/janitor.go:244-292 | a step that takes a device out of the quarantine on file comes after an audited reset of it, or an audited healthy observation it was waiting for |
| Runs.CrashSafety | src/internal/lifecycle/manager.go:364-427 | at every point of a lawful run each CDI file has its record and the state file can be read again |
| Runs.Run | src/internal/lifecycle/manager.go:129-271 | any sequence of operations: every world on the way is safe, every step obeys reset before exposure and clean release from quarantine, a record leaves the file only in an unprepare that names and releases it, and disjoint batches keep ownership exclusive |
| Runs.ExposedByRun | src/internal/lifecycle/manager.go:364-427 | a claim Prepared on file with some devices at any point of a run has been so since the run began, or since a call exposed it after resetting each of these devices |
| Runs.CleanedByRun | src/internal/lifecycle/janitor.go:244-292 | a device in quarantine on file when a run begins leaves it only at a step before which that call cleaned it |
| Runs.CrashAndRestart | src/internal/lifecycle/manager.go:113-125 | a new process that comes up over any world of a run is ready, and has every record that was on file, with its devices, and everything that was in quarantine |
| Runs.OverlappingBatchDoubles | src/internal/lifecycle/manager.go:154-169 | two claims of one batch for one card: some outcome leaves both on record |
| Recovery.LocalAllocations | src/internal/lifecycle/recovery.go:184-214 | exactly the claims with devices of this driver on this node, with their current identity |
| Recovery.FillRequests | src/internal/lifecycle/recovery.go:118-128 | missing request names are taken from the live allocation, others are kept |
| Recovery.ScanDevice | src/internal/lifecycle/recovery.go:135-162 | exactly a suspect device, one without a request, or any of a claim that is not Prepared is quarantined; a Prepared claim becomes Recovered exactly at a sound device without a request; a missing stable ID is taken from the inventory |
| Recovery.ScanRecord | src/internal/lifecycle/recovery.go:135-162 | exactly the caught devices of a record enter the quarantine, and its end phase is exactly determined |
| Recovery.SoundClaimIsKept | src/internal/lifecycle/recovery.go:135-162 | a Prepared claim that is still allocated and has only sound devices with requests stays Prepared, and none of its devices is quarantined for it |
| Recovery.RepairSpec | src/internal/lifecycle/recovery.go:164-174 | the CDI file of exactly the records whose devices all have a path is rewritten; only a failed write quarantines, and then all its devices |
| Recovery.AlignRecords | src/internal/lifecycle/recovery.go:110-175 | no record is lost, every live allocation is recorded and records without one become Releasing; each record, each phase, each CDI file and the quarantine are exactly determined |
| Recovery.RemoveOrphanCDI | src/internal/lifecycle/recovery.go:217-241 | keeps the file of every recorded claim as it is; success leaves no file without a record, failure is that of a removal |
| Recovery.ReconcileStartup | src/internal/lifecycle/recovery.go:93-181 | success aligns every record, quarantines exactly what it must, leaves no CDI file without a record, saves the result and makes the agent valid; failure only if a step failed |
| Recovery.RecoverCorruptState | src/internal/lifecycle/recovery.go:73-90 | no claims, and exactly the visible devices known and quarantined |
| Recovery.Load | src/internal/lifecycle/manager.go:113-118 | the claims of a readable file, all Prepared if it is older than version 4, with its quarantine and known devices, or none |
| Recovery.Start | src/internal/lifecycle/manager.go:113-125 | startup on any state file, with any live allocations: a device is in quarantine if and only if it was (or was visible, for an unreadable file), or a record has it caught, or the CDI file that lists it could not be written; every record has its exact new phase and devices, and its CDI file; it fails only if a step did |
| Capacity.DriverResourcesAt | src/internal/dra/resourceslice.go:22-41 | the slices hold the publishable devices of a recent snapshot in order without loss, at most 128 each, all but the last full |
| Capacity.DeviceHealth | src/internal/lifecycle/health.go:23-54 | HEALTHY exactly for recent, observed, safe, unquarantined devices; UNKNOWN exactly without a recent known health |
| Capacity.ViewsAgree | src/internal/lifecycle/health.go:23-54 | after a screening pass slices, health and the safety count all name the observed devices outside quarantine |
| Capacity.OnlySafePublished | src/internal/lifecycle/janitor.go:159-202 | a device still eligible after monitoring is unquarantined and has no unsafe reason |
| Capacity.Publish | src/internal/lifecycle/janitor.go:39-55 | after monitoring, slices and safety show the quarantine of the pass and kubelet health that of the reloaded state; they agree if and only if no other observed device was read back into quarantine, and the node is unsafe exactly when the set is empty |
| Capacity.AgreeIff | src/internal/lifecycle/health.go:23-54 | views made from two quarantines agree if and only if the later one holds no observed device that the earlier one did not |
| ExactClaims.MarkDuplicateIdentities | src/internal/device/normalize.go:42-52 | in place, exactly the devices next to an equal stable ID are rejected |
| ExactClaims.AdjacentMarkingSuffices | src/internal/device/normalize.go:36-52 | on a sorted list the eligible devices have pairwise distinct stable IDs |
| ExactClaims.FinishSnapshot | src/internal/device/normalize.go:36-38 | a rearrangement of the observed devices with the duplicates marked; eligible stable IDs are distinct |
| ExactClaims.BuildClaim | src/internal/controller/children.go:54-83 | asks for as many devices as assigned, on the assigned node, among the assigned stable IDs |
| ExactClaims.ExactRequestPins | src/internal/controller/children.go:54-83 | of everything all nodes publish, any such number of distinct devices the selector admits are exactly the assigned ones, by node, identity and name |
| ExactClaims.AssignedSatisfy | src/internal/controller/children.go:54-83 | the request can be met: by the assigned devices, when their node publishes them |
| ExactClaims.ClaimPinsCluster | src/internal/dra/resourceslice.go:22-66 | the same from the raw observations of every node through marking, quarantine and publication to the claim; the assigned devices themselves meet the claim when their node publishes them |
| Reconcile.ReservationsComplete | src/internal/controller/controller.go:297-327 | everything another unfinished workload holds is reserved even where the cache lags |
| Reconcile.WriteAssigns | src/internal/controller/controller.go:427-434 | a conflict-free assignment noted as pending keeps assignments exclusive and covered |
| Reconcile.ForgetPendingIff | src/internal/controller/controller.go:341-389 | dropping a pending entry keeps the invariant if and only if every version still to be shown holds what the workload holds |
| Reconcile.WriteConsistentIff | src/internal/controller/controller.go:472-520 | a status write, from a version however old, keeps the invariant if and only if it gives everything up, or no one else holds its devices and everyone else will see who does |
| Reconcile.StaleWriteDoubles | src/internal/controller/controller.go:472-520 | a workload that gave devices up and writes back the stale status: nothing doubles yet, then nothing is reserved and another workload gets the same devices |
| Reconcile.LatestIsReconcilable | src/internal/controller/controller.go:272-294 | reconciling from the latest status is always safe, whatever has happened to the spec |
| Reconcile.PinnedIsConnected | src/internal/controller/controller.go:376-428 | every unfinished assignment whose recorded spec and generation are up to date is connected in the fabric at hand |
| Controller.ObservedPhase | src/internal/controller/controller.go:439-469 | Failed, Unschedulable, Succeeded, Running and `started`, each exactly when the scan order says so |
| Controller.AssignmentsReserved | src/internal/controller/controller.go:590-599 | true exactly when an assigned device is reserved |
| Controller.WorkloadController.Reservations | src/internal/controller/controller.go:297-327 | exactly the devices of other pending, cached unfinished and claimed allocations |
| Controller.WorkloadController.UpdateStatus | src/internal/controller/controller.go:472-520 | at most the status of the latest version changes; a terminal phase is never replaced by another |
| Controller.WorkloadController.DeleteChildren | src/internal/controller/children.go:202-212 | removes children in assignment order up to the first failure; success leaves none |
| Controller.WorkloadController.EnsureChildren | src/internal/controller/children.go:20-33 | creates a claim and a Pod for each rank and nothing else; success means all exist |
| Controller.WorkloadController.ReconcileAssigned | src/internal/controller/controller.go:339-399 | from any cached version: the status written is the one decided from Pods, reservations, spec and generation; once a rank has started the assignment seen is kept and children go only when the workload is or becomes finished; it is given up only when none of its children is left |
| Controller.WorkloadController.CommitAssignment | src/internal/controller/controller.go:427-435 | what is created is held by the status unless the workload is finished; on success for a finished one all children exist and nothing was written |
| Controller.WorkloadController.Place | src/internal/controller/controller.go:400-436 | from any cached version without assignments: on a valid fabric the solver's answer around everything reserved, pinned to its generation, with its children; "Unsatisfied" only if no choice is connected, an error only if the workload is too large or the search was stopped; the invariant is kept however stale the version |
| Controller.WorkloadController.ReconcileWorkload | src/internal/controller/controller.go:330-436 | one reconcile step from any cached version writes what is decided, obeys the laws of children, assignments and final phases, and keeps assignments exclusive if that version is safe to reconcile from |
| Controller.WorkloadController.ReconcileKey | src/internal/controller/controller.go:272-294 | the same from whatever the cache shows, including deleted workloads and an oversized cluster |
| Controller.FinishedForever | src/internal/controller/controller.go:485-487 | over any run a finished workload keeps its phase until it is deleted |
| Controller.SucceededSaw | src/internal/controller/controller.go:383-390 | over any run a workload gets Succeeded only by a reconcile that saw every rank succeed |
| Controller.FailedSaw | src/internal/controller/controller.go:330-390 | over any run it gets Failed only by one that saw a rank fail, or for an invalid spec |
| Controller.PlacedIfPossible | src/internal/controller/controller.go:400-436 | if every request is granted, a workload that holds nothing is assigned, with all its children, whenever some choice of free, fit devices is connected on a valid fabric |
| Controller.FrozenWhileStarted | src/internal/controller/controller.go:339-399 | over any run the assignments do not change while every reconcile of the workload sees them and a started rank |
| Controller.Run | src/internal/controller/controller.go:165-213 | over any interleaving of reconciles from any cached version, cache lag, user edits, garbage collection and fabric observations every step obeys its laws, those of the written status among them; up to the first reconcile from a version that is not safe, no two unfinished workloads hold a common device and pinned assignments are connected in the current fabric |

## Left out

- Command line, client setup, leader election, queues, retries, metrics, events and logging.
- Reading sysfs and PCI, ioctls, file locking and file syscalls beyond "old or new"; error texts inside reasons.
- SHA-256 and JSON: digests are represented by what they digest, child names by their parts.
- Pod building, hardening and template validation: the verdict of the spec validation is an input, and a child that
  collides with a different owner or spec is a reported failure. Namespaces of children: their names carry the UID.
- Health, version and hex parsing and eligibility: taken as given in an observation; link states are taken trimmed and
  lower-cased.
- A failed listing of allocations at startup, which ends it before anything is changed.
- Two overlapping agent processes: reload merges instead of replacing, so the statements are about one process.
- `ConfirmResourcePublication`, node taints and conditions, the watchdog.
- The kubelet timestamps of a health report and the `since` time of a quarantine record.
- CDI file names: a file is identified by its claim UID, which is taken to be non-empty and free of "/".
- ExactClaims.ExactRequestPins: the DRA name of an eligible device is taken as a function of its stable ID, which
  eligibility guarantees to exist.
- Manager.Agent.PrepareResourceClaims: exclusivity is not stated for contended batches, because the code does not keep
  it there.
- Controller.Run: exclusiveness is not stated after a reconcile from a version that is not safe, because the code does
  not keep it there; a status write reported as failed is not applied.
