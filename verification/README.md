# Verified model of the Rockchip DRA kubelet plugin

The kubelet plugin of the Rockchip DRA driver keeps three durable objects per node: a CDI
spec per claim, `claim-devices.json` (a snapshot of the devices each claim was prepared with)
and `checkpoint.json` (the prepared claims). In memory it tracks the accelerators it last
enumerated together with their health, and publishes them as a ResourceSlice. A device that
disappears must stay published, tainted, for as long as a prepared claim holds it, whatever
crashes in between.

This project models that logic in Dafny and proves what it keeps.

- `Types`, `Sorting`, `Naming`: devices, tracked entries and claims; the order of strings and
  sorting; device names.
- `Discovery`, `Inventory`: classification and numbering of video nodes, what every enumeration
  satisfies, and what it lists, said of the nodes and the configuration alone.
- `Reconcile`, `History`: one pass over the devices, and the health state machine against the
  whole history of observations.
- `Devices`, `Cdi`: the ResourceSlice content and its comparison; CDI names, IDs and specs.
- `Allocation`, `Protocol`: what a claim may be prepared with, and the durable protocol as a state
  machine in which every file write is one step that may succeed, be lost, be reported as failed
  although it happened, or be cut short, with a crash possible between any two steps.
- `Safety`, `Refinement`: what holds in every reachable state; the files as a refinement of one
  atomic claim table; crash atomicity.
- `Scenarios`: runs that reach the states these results warn about.
- `DeviceState`: the calls as the plugin makes them, as a class over a plugin directory that
  outlives the process. Every call is proved to be a run of the protocol, so all results about
  reachable states apply to it.
- `Driver`: rediscovery loop, health watcher and Unprepare calls, interleaved freely and coupled
  by two one-slot channels, over the claim table the files refine (`Coupling`).

A label that does not apply leaves the state as it is, so every sequence of labels is a run and
every theorem about reachable states quantifies over all of them.

## What turned out not to hold

- The checkpoint is rewritten in place, so a crash during that write can leave a file that does
  not parse. The running process keeps every device it tracks, but from then on every call fails
  before touching the disk and no restart comes up (`Refinement.TornKeepsDevices`,
  `Refinement.TornFreezes`, reached in `Scenarios.TornReached`; `DeviceState.NewDeviceState` says
  exactly when a restart comes up). Crash atomicity is therefore about restarts that succeed.
- `resourcesEqual` compares JSON, which keeps taint times to the second, so different contents can
  pass for equal (`Devices.WireFormLosesTime`). Across one pass the comparison is exact all the
  same, because a taint time cannot change unless the taint goes away first
  (`Devices.ResourcesEqualExact`).
- A failed `PublishResources` is not retried until the content changes again
  (`Driver.FailureSticks`), and such a state is reached (`Driver.OutOfStepReached`).
  `Driver.CycleInStep` says for every reachable state exactly when a pass ends in step.
- A repeated Prepare that stops between its spec write and its snapshot write leaves a CDI spec
  that can disagree with the claim's snapshot (`Scenarios.SpecDisagreesReached`).
  `Safety.SpecListsSnapshot` shows that nothing else can.
- CDI device names of two claims can collide (`Cdi.CdiNameCollision`), namely exactly when one
  claim's UID continues the other's with a dash and a device name (`Cdi.CollideIffContinues`).
  UIDs of one length, as Kubernetes hands out, never do (`Cdi.CdiNameInjective`).
- A device without a device node would be preparable outside mock mode although no node exists;
  no enumeration yields such a device (`Discovery.EnumerationValid`), so `Safety.PrepareSafety`
  holds without exception.

## Assumptions

- One plugin process uses the directory at a time, and one `WatchHealthStatus` stream is active.
- The clock never reads zero. Nothing depends on it increasing.
- Writing a JSON file and reading it back gives the same value; the CDI cache is a map from claim
  to spec, and removing an absent spec succeeds.
- Runs start from an empty plugin directory.
- sysfs yields non-empty device paths (`Discovery.PathsGiven`). The enumeration, node presence,
  the clock and the fate of every write are inputs, arbitrary otherwise.
- The driver name is free of "/" and "=", as every DNS name is, where that is said
  (`Cdi.Plain`). A container runtime cuts an ID at its first "=" and then at its first "/".
- JSON of a taint time is RFC 3339 in whole seconds, as `metav1.Time` writes it.

## Model

| member | source | states |
|---|---|---|
| Reconcile.BuildNext | cmd/kubeletplugin/reconcile.go:108-131 | the two loops yield, for every map order of the snapshots, the set in which each listed device is assessed against its previous entry and each claimed unlisted one is retained |
| Reconcile.ClaimedSnapshots | cmd/kubeletplugin/reconcile.go:267-285 | for every map order, the result names exactly the non-empty names held by checkpointed claims, each with some such claim's last entry of that name |
| Reconcile.HealthEqual | cmd/kubeletplugin/reconcile.go:245-256 | looking up one side's names decides equality of both maps' names, statuses and messages, in both directions |
| Reconcile.NextWellFormed | cmd/kubeletplugin/reconcile.go:113-131 | a pass keeps every entry well formed, tracks exactly the enumerated and the claimed names, and marks as retained exactly those not enumerated |
| Reconcile.PassIdempotent | cmd/kubeletplugin/reconcile.go:113-158 | a second pass over the same enumeration, nodes and claims is the identity for any snapshot choices and clocks |
| History.HistoryDeterminesTracked | cmd/kubeletplugin/reconcile.go:113-192 | after any passes, a device is tracked iff the last pass saw it, and its entry is the one a declarative reading of its observations since it was last untracked gives |
| History.MatchesUnique | cmd/kubeletplugin/reconcile.go:161-192 | that declarative reading admits only one entry, so nothing about the entry is left open |
| History.SeenNeverUnknown | cmd/kubeletplugin/reconcile.go:161-182 | once its node has been seen, a device that stays tracked is never Unknown again |
| History.LastPassDecides | cmd/kubeletplugin/reconcile.go:161-200 | after any passes, a device the last one listed is healthy in mock mode whatever nodes exist, and otherwise exactly when that pass found its node; all others are retained |
| History.TaintTimeOfFirstPass | cmd/kubeletplugin/reconcile.go:184-192 | an unavailable device's taint time is that of the pass that began the unbroken stretch, even when the reason switches |
| Devices.SharePolicyLattice | cmd/kubeletplugin/devices.go:105-126 | a device of capacity n accepts exactly requests 1..n, none if it has no capacity; the default is one share, the least accepted; Min, Default, Step and Max respect the API's bounds |
| Devices.PublishRoundTrip | cmd/kubeletplugin/devices.go:51-90 | reading a published device back gives the discovered device: no field is lost or mixed up |
| Devices.AttributesSaySomething | cmd/kubeletplugin/devices.go:53-77 | type, vendor, model, driver and node are always published, the other attributes only with a non-empty text or a positive count, each with the right type |
| Devices.TaintedIffUnhealthy | cmd/kubeletplugin/devices.go:91-102 | one timestamped NoExecute taint, with the value and message of a lost node or of an unlisted device, iff unhealthy; none otherwise |
| Devices.DevicesToResources | cmd/kubeletplugin/devices.go:33-49 | the loop publishes the projection of the name-sorted list |
| Devices.TrackedList | cmd/kubeletplugin/reconcile.go:237-243 | for every map order the list holds every entry exactly once |
| Sorting.StringLessDecided | cmd/kubeletplugin/devices.go:35-37 | names are ordered by their first differing character, a prefix before its extensions |
| Devices.CanonicalPublication | cmd/kubeletplugin/devices.go:33-49 | every order of the tracked map yields the same sequence, strictly sorted by name and a permutation of the entries |
| Devices.PublishedNames | cmd/kubeletplugin/devices.go:33-49 | a device is tracked iff it is published, with its own projection |
| Devices.WireFormLosesTime | cmd/kubeletplugin/reconcile.go:258-265 | comparing JSON is weaker than comparing content |
| Devices.PassKeepsTaintTimes | cmd/kubeletplugin/reconcile.go:114-131 | a device tainted before and after a pass keeps its taint time |
| Devices.ResourcesEqualExact | cmd/kubeletplugin/reconcile.go:150-157 | between contents that keep taint times, the JSON comparison holds iff the contents are equal |
| Naming.NamesPrefixFree | internal/discovery/vpu.go:59-61 | no device name followed by a dash begins another device name |
| Naming.NamesDistinct | internal/discovery/rga.go:44-46 | different stems or numbers give different names |
| Cdi.BuildSpec | cmd/kubeletplugin/cdi.go:49-62 | the loop writes the plugin's kind and one entry per prepared device, named after claim, device and share |
| Cdi.CdiNameInjective | cmd/kubeletplugin/cdi.go:91-97 | for UIDs of one length the name determines claim, device and share, for arbitrary share strings |
| Cdi.CdiNameCollision | cmd/kubeletplugin/cdi.go:91-97 | for arbitrary UIDs it does not |
| Cdi.CollideIffContinues | cmd/kubeletplugin/cdi.go:91-97 | two different UIDs admit a common name iff one of them, followed by a dash and a device name, begins the other up to a dash or its end |
| Naming.DashThenOther | internal/discovery/vpu.go:59-61 | what follows a dash inside a device name never begins like a device name |
| Cdi.IDsResolve | cmd/kubeletplugin/cdi.go:49-97 | an ID, cut up as a container runtime does, leads to its own entry of a spec of the right kind, and to that one only for all entries iff the (device, share) pairs are distinct |
| Cdi.IDReadsBack | cmd/kubeletplugin/cdi.go:77-89 | an ID reads back as vendor "k8s." + driver, class "dra" and the name iff the driver name holds neither "/" nor "=" |
| Discovery.DiscoverVPU | internal/discovery/vpu.go:33-75 | filter, sort and one counter per block give each node the count of earlier nodes of its block |
| Discovery.DiscoverRGA | internal/discovery/rga.go:26-59 | filter, sort and position numbering give the devices numbered within the RGA series |
| Discovery.VpuRgaDisjoint | internal/discovery/vpu.go:77-100 | no node becomes both a VPU and an RGA device |
| Inventory.ContainsIgnoresCase | internal/discovery/vpu.go:81-82 | the search for a pattern finds it in whatever case it is spelled |
| Inventory.DeviceHasNode | internal/discovery/vpu.go:33-100 | every VPU device is that of a listed node whose driver, compatible and card name make it of the device's block, and shows that node's path, compatible and driver; only hantro-enc encodes |
| Inventory.NodeHasDevice | internal/discovery/vpu.go:33-100 | every listed node of a block becomes such a device |
| Inventory.BlockOfNode | internal/discovery/vpu.go:77-100 | a node has a device of block rkvdec, hantro-av1, hantro-enc or hantro-dec iff its driver and the patterns in its compatible and card name say so, AV1 before encoder before decoder |
| Discovery.RankNaming | internal/discovery/vpu.go:42-60 | with distinct indexes every number is the node's rank by index among all nodes of its block or of RGA, and each matching node becomes one device |
| Discovery.ListingOrderIrrelevant | internal/discovery/vpu.go:35-47 | the devices do not depend on the order of the directory listing |
| Discovery.OtherBlocksIrrelevant | internal/discovery/vpu.go:54-73 | two listings that agree on the nodes of a block give the same devices of that block, names included |
| Discovery.NodeGone | internal/discovery/vpu.go:42-73 | when a node disappears, devices of the same series with a higher index take the next lower number and all others keep theirs, for VPU blocks and RGA alike |
| Discovery.NumberedValid | internal/discovery/vpu.go:54-73 | running numbers never repeat a name, even with equal indexes, and every device has a capacity |
| Discovery.EnumerationValid | internal/discovery/discovery.go:23-122 | every enumeration, mock or real, has distinct grammatical names, capacities of at least one and device nodes |
| Discovery.Enumerate | internal/discovery/discovery.go:23-44 | growing one list kind by kind yields that enumeration |
| Inventory.KindListed | internal/discovery/discovery.go:23-44 | a kind is listed iff it is enabled, or nothing is, and the host or mock mode has it |
| Inventory.EnumeratedOfKind | internal/discovery/types.go:66-98 | every listed device has the configured cap of its kind or its default (one share per NPU core, eight for a GPU, one otherwise) and is named after its published type and block |
| Inventory.SinglesShowHost | internal/discovery/npu.go:27-52 | the NPU and GPU show the host's cores, nodes and SoC |
| Inventory.MockIsSmallHost | internal/discovery/discovery.go:46-122 | mock mode lists exactly what discovery would find on an RK3588 with one decoder and one RGA node |
| Allocation.PrepareResults | cmd/kubeletplugin/state.go:150-177 | the loop returns the first rejection, with its message, or all prepared devices |
| Allocation.AllOrNothing | cmd/kubeletplugin/state.go:150-177 | a claim is accepted iff every entry of this driver is tracked, not unhealthy and has its node, and then yields one device per entry, in order, with its request, pool, share, IDs and snapshot |
| Allocation.FirstRejected | cmd/kubeletplugin/state.go:156-166 | a rejected claim's error is that of its first entry that is not preparable, all earlier ones being preparable |
| Allocation.RejectionSays | cmd/kubeletplugin/reconcile.go:227-235 | the error names the device, and its taint and message or its node |
| Allocation.DeviceSnapshots | cmd/kubeletplugin/state.go:229-235 | the snapshots are the discovered devices in order |
| Safety.RetentionSafety | cmd/kubeletplugin/state.go:105-146 | in every reachable state each checkpointed claim has its snapshot, and while serving each device in such snapshots is tracked and published; a torn checkpoint names no claim, see Refinement.TornKeepsDevices |
| Safety.PublishedAlwaysSound | cmd/kubeletplugin/devices.go:79-126 | in every reachable state each published device is well formed, tainted iff unhealthy, has capacity, may be shared, is offered in exactly 1..capacity with the least as default, and its policy has Min <= Default <= Max = capacity and Min + Step <= Max, with no Step only at capacity 1 |
| Safety.PrepareSafety | cmd/kubeletplugin/state.go:156-175 | in every reachable state a prepared device was listed by the latest successful pass, is not unhealthy and had its node |
| Safety.PreparedIDsResolve | cmd/kubeletplugin/state.go:167-174 | in every reachable state the IDs returned lead to the spec's entries, uniquely iff the (device, share) pairs are distinct |
| Safety.PreparedIDsRead | cmd/kubeletplugin/state.go:167-174 | each prepared device has one ID, which reads as the plugin's vendor, its class and the name of the device's spec entry iff the driver name is free of separators |
| Safety.NoCrossTalk | cmd/kubeletplugin/cdi.go:49-97 | in every reachable state no ID leads to an entry of another claim's spec, unless one UID continues the other with a device name |
| Safety.RejectedChangesNothing | cmd/kubeletplugin/state.go:95-103 | a claim with any rejected entry, or without allocation, changes no state at all |
| Safety.SpecPresent | cmd/kubeletplugin/state.go:105-143 | a checkpointed claim lacks its CDI spec only if an Unprepare of it began after the last spec write |
| Safety.SpecListsSnapshot | cmd/kubeletplugin/state.go:105-110 | in every run the spec of a checkpointed claim that no Unprepare has begun to take down lists exactly the snapshot's devices, iff no repeated Prepare stopped between its spec write and its snapshot write, or that Prepare had the same devices |
| Safety.PassSettles | cmd/kubeletplugin/reconcile.go:93-131 | after every successful pass the tracked names are the enumerated and the claimed ones, and claim-devices holds exactly the checkpointed claims, which are free of duplicates |
| Safety.SwappedOrderLosesDevice | cmd/kubeletplugin/state.go:136-146 | from any reachable Unprepare about to write the checkpoint: had it forgotten the snapshot first, a crash and a clean restart would lose a device whose claim is still checkpointed |
| Safety.RunHealth | cmd/kubeletplugin/reconcile.go:113-192 | in every run, restarts included, what is tracked of a device is determined by its observations in the current process |
| Safety.RunNodeHealth | cmd/kubeletplugin/reconcile.go:194-200 | the same in every run of the protocol: mock devices are healthy with their node seen, others are healthy iff the last pass's stat found their node |
| Safety.ReachableExtends | cmd/kubeletplugin/state.go:91-148 | a call that is a run takes reachable states to reachable states |
| Refinement.Simulation | cmd/kubeletplugin/state.go:91-148 | every step is exactly one atomic action on the claim table or none: a first Prepare and an Unprepare act at the checkpoint write, a repeated Prepare at the snapshot write |
| Refinement.RunRefinesTable | cmd/kubeletplugin/state.go:91-148 | a whole run of the files is a run of the claim table |
| Refinement.TornFreezes | cmd/kubeletplugin/state.go:179-200 | after a checkpoint write is cut short the disk never changes again, the running process keeps its tracked set and no restart comes up |
| Refinement.TornKeepsDevices | cmd/kubeletplugin/state.go:194-200 | after a checkpoint write is cut short, through any further steps, while the process is up every device of every claim prepared before the write stays tracked and published |
| Refinement.CrashAtomicity | cmd/kubeletplugin/state.go:85-148 | a crash anywhere in a Prepare or Unprepare, followed by any number of failed restarts and one that succeeds, leaves checkpoint, claim-devices and tracked names as if the call had not run or had run fully |
| Refinement.UndisturbedCompletes | cmd/kubeletplugin/state.go:91-148 | an undisturbed call leaves exactly the completed state crash atomicity refers to |
| Refinement.ReconcileIdempotent | cmd/kubeletplugin/reconcile.go:93-158 | repeating a pass leaves the whole state unchanged: the comparisons behind both change flags find equal health and equal resources |
| Scenarios.TornReached | cmd/kubeletplugin/state.go:194-200 | a torn checkpoint is reached with the claim's device still tracked, and no run from a crash there brings the plugin up |
| Scenarios.SwapLosesReached | cmd/kubeletplugin/state.go:136-146 | the state the swapped order loses a device from is reached, and the device is lost |
| Scenarios.SpecDisagreesReached | cmd/kubeletplugin/state.go:105-110 | a spec that disagrees with the snapshot of its checkpointed claim is reached |
| DeviceState.PluginDir.ReadCheckpoint | cmd/kubeletplugin/state.go:179-192 | a missing file reads as no claims, a torn one as an error |
| DeviceState.PluginDir.WriteCheckpoint | cmd/kubeletplugin/state.go:194-200 | an in-place write may be lost, late or torn |
| DeviceState.PluginDir.WriteClaims | cmd/kubeletplugin/state.go:255-292 | a renamed file is either the old or the new one |
| DeviceState.DeviceState.Prepare | cmd/kubeletplugin/state.go:91-121 | a run of the protocol however the files fare; success means checkpoint, claim-devices and specs gained exactly this claim with the returned devices; a rejection leaves the disk untouched |
| DeviceState.DeviceState.Unprepare | cmd/kubeletplugin/state.go:123-148 | a run of the protocol; success means the claim is out of checkpoint, claim-devices and specs and nothing else changed |
| DeviceState.DeviceState.Reconcile | cmd/kubeletplugin/reconcile.go:80-159 | a run of the protocol; says exactly when it succeeds, that the tracked set is the specified pass over the enumeration, that claim-devices is pruned and what both change flags mean |
| DeviceState.DeviceState.ApplyPass | cmd/kubeletplugin/reconcile.go:106-158 | the in-memory part: new tracked set, canonical resources, both flags |
| DeviceState.PruneClaimDevices | cmd/kubeletplugin/state.go:294-310 | for every map order keeps exactly the checkpointed claims and reports whether any was dropped |
| DeviceState.RemoveClaim | cmd/kubeletplugin/state.go:140-140 | removes every occurrence of the claim and keeps the order of the rest |
| Protocol.WithoutKeepsOrder | cmd/kubeletplugin/state.go:140-140 | what is left are the other claims, each of them, in their order |
| DeviceState.NewDeviceState | cmd/kubeletplugin/state.go:69-89 | a restart over an existing directory; it comes up iff the files are readable and a needed prune is written |
| Driver.HealthReport | cmd/kubeletplugin/reconcile.go:202-225 | one entry per tracked device, for every map order, all in the node's pool, with one clock reading and a lease of thirty seconds |
| Driver.FirstPassStarts | cmd/kubeletplugin/driver.go:47-87 | the first pass over any claims and enumeration gives a state runs start from |
| Driver.NoLostHealthUpdate | cmd/kubeletplugin/driver.go:113-237 | under every interleaving, when the watcher waits, its channel is empty and no pass is about to notify, the last report delivered has exactly the tracked devices, each once, with their status and message, in the node's pool |
| Driver.NoLostWakeUp | cmd/kubeletplugin/driver.go:100-214 | the loop is never parked with an empty channel while a returned Unprepare has not been followed by a pass that read the checkpoint after it |
| Driver.RetainedOnlyWhileClaimed | cmd/kubeletplugin/driver.go:202-214 | at rest after a successful pass, a retained device was held by a claim that pass read, and that claim still holds the same devices, was prepared again since the pass (and may hold others now), or had its Unprepare fail |
| Driver.UnpreparedDropped | cmd/kubeletplugin/driver.go:202-214 | once a successful pass has read the table after an Unprepare, with no Prepare of the claim since, the claim is out of the table and a device neither enumerated nor held by another claim is not tracked |
| Driver.AtRestUnpreparedDropped | cmd/kubeletplugin/driver.go:202-214 | with the loop at rest after a successful pass this holds of every returned Unprepare |
| Driver.NoSpuriousWakeUp | cmd/kubeletplugin/driver.go:128-146 | in every run the loop is woken by its channel at most once per returned Unprepare, and the watcher at most once per pass that changed health |
| Coupling.DriverSimulation | cmd/kubeletplugin/driver.go:173-207 | every driver step acts on the claim table as the file-level Prepare or Unprepare it stands for, all others not at all |
| Coupling.DriverRefinesTable | cmd/kubeletplugin/driver.go:173-207 | a run of the driver replays as a run of the claim table the files refine |
| Driver.DeltaPublishing | cmd/kubeletplugin/driver.go:113-126 | publishing on change leaves what publishing after every pass would leave, the tracked set, if the last publication succeeded |
| Driver.CycleInStep | cmd/kubeletplugin/driver.go:113-126 | from every reachable state at rest, in step or not, one reconcileAndPublish ends in step iff its pass finds content other than the last one and publishing succeeds, or finds what the API server holds already; otherwise the API server keeps what it had |
| Driver.FailureSticks | cmd/kubeletplugin/driver.go:113-126 | over any interleaved run in which every pass finds the content found before, the API server keeps what it had, so a failed publication is never made up for |
| Driver.OutOfStepReached | cmd/kubeletplugin/driver.go:121-125 | a state at rest with published content other than the tracked set's is reached |

## Left out

- Reading sysfs and /dev (SoC detection, uevent files, node groups): their results are inputs.
- JSON encoding, temporary files, permissions, the CDI cache and the kubelet plugin helper library: maps and cells under the assumptions above.
- Cdi.BuildSpec: an entry holds the prepared device in place of its container edits, and the spec's version is left out, because both are tables settled by reading one branch.
- Two plugin processes overlapping on one directory during a rolling update: the mutex does not span processes.
- Several concurrent `WatchHealthStatus` streams: they would share one token, and only the resend timer would serve the others.
- Timers and the health lease: ticks and resends are steps that may happen at any time; shutdown is not modelled.
- Flags, logging, metrics, the Kubernetes client, charts and release scripts: plumbing.
- Discovery.DiscoverVPU: `slices.SortFunc` is library code and appears as an insertion sort; `Devices.CanonicalPublication` and `Discovery.ListingOrderIrrelevant` show that any other sort gives the same result when no two elements compare equal.
