# Naglfar scheduler, verified model

Naglfar lends physical machines to tests. A request asks for resources (cores, memory, exclusive disks), a scheduler
places them on machines, and one `Relationship` object records who sits where. This project models, in Dafny 4.11,

- the allocator: what is left on a machine (`Machine.Rest`), fitting one item, co-located groups, candidate order and the
  all-or-nothing `tryRequest`, as methods on the copy of the record they edit, proved against specification functions;
- the shared record as a transition system: the machine, resource and request controllers read and commit in any
  interleaving, each commit refused unless the record is still at the version it was read at;
- the claim protocol and the completion detector of test workloads;
- the diff that turns one TiDB topology into the next, the admission checks before it, and the reconcile between edits.

`dafny verify dfyconfig.toml` checks everything.

## Layout

| files | content |
|---|---|
| `Refs`, `Resources`, `CpuSets`, `Sorting` | references and keys, the records of the API, CPU id sets, sorting |
| `Machines`, `Capacity` | `Available`, `Rest` and what they mean without their loops |
| `Relationships` | the record, each controller's edit of it, and its version-checked store |
| `Placement`, `PlacementLaws`, `Grouping`, `Scheduler`, `GroupLaws` | the allocator |
| `RequestLaws` | what an acceptance or a refusal means for items, machines and locks, field by field |
| `Cluster`, `Invariants` | the transition system and its invariant |
| `RecordLaws`, `Frames`, `MachineSteps`, `ResourceSteps`, `RequestSteps`, `AcceptStep` | why each step keeps it |
| `Safety`, `Guarantees`, `Edits` | the invariant on all runs, what follows for every reachable state and every run, and when a machine may be edited |
| `Witness` | runs that exist |
| `Workload`, `Claims`, `ClaimLaws` | the completion detector, the claim protocol, and what one pass or release does to the nodes |
| `ScaleDiff`, `Topology` | the scale patch and the reconcile that applies it |

## Assumptions

- Every committed update raises an object's version, and reads return the current object. Reads of different objects are
  separate steps. A status update that fails leaves the stored object alone.
- Reconciles of one object do not overlap, and a crash or an error abandons the reconcile at any point.
- UIDs are never reused. Namespaces, names and UIDs contain no slash.
- Machine names are unique in a namespace, as the API server sees to; `getMachines` and the lock table go by names alone.
- The items and machines of a request are not edited after the webhook admitted it. That item names are distinct is not
  assumed: a request in which they are not never reaches `tryRequest` (`AcceptStep.ListedIsFaithful`).
- A ready machine's reserve and exclusive disks are edited only while it hosts nothing and no acceptance that could still
  commit could place anything on it; its info is not edited. The code enforces neither half. Given the first, the second is
  exactly what is needed (`Edits.EditSafeIff`).
- Resources are created by requests and deleted only through their request, and a resource holds its finalizer before it is
  bound. The code enforces neither; `Guarantees.FinalizedIffNeverLeaks` shows that the second is exactly what is needed.
- Only an object that holds its finalizer is marked for deletion; without one it disappears at once.
- Nodes persist while test workloads use them.
- The entries of a topology have distinct addresses.

Sizes are integers of bytes. The source keeps them as formatted strings, so `Config.round` says what formatting and parsing
does to a difference; results hold for every rounding, for those accurate to e bytes, or for exact ones, as each says.
`Config.byDevice` switches one line: the code deletes from the remaining disks under the name of the requested disk
(`controllers/testresourcerequest_controller.go:334`), and with the switch on it deletes the device just given away, the
evident intent. Go map iteration is a nondeterministic choice throughout.

## Where the code falls short of its intent

- Deleting by disk name can put two disks of one item on one device and make the machine unallocatable
  (`PlacementLaws.TwoDisksOnOneDevice`); `PlacementLaws.CodedDisksDistinctIff` says exactly when it cannot, and
  `Safety.AllocatableIff` what it means for a machine.
- Bindings leak when an acceptance outruns a finalizer (`Witness.SomeBindingLeaks`), and only then
  (`Guarantees.FinalizedIffNeverLeaks`).
- The Machine resource is namespaced, but locks go by names. An exclusive machine is safe by reference
  (`Guarantees.ExclusiveAsAsked`), but a machine of the same name elsewhere may count as locked by a stranger
  (`Witness.SomeNameIsShared`); `Guarantees.LockedHostsOnlyHolder` says exactly when that cannot happen.
- Nothing ties a commit to the machine specs it read, so an edit of an idle machine in between can leave more bound on it than
  it has (`Witness.EditOverCommits`); `Edits.EditSafeIff` says exactly when it cannot.
- `uninstallWorkload` does not look at who claimed a node, so two workloads can run on one (`Claims.TwoRunOnOneNode`,
  `Claims.ReleaseEndsExclusion`). `Claims.MutualExclusionIff` says exactly which releases do that harm: to free a node whose
  holder does not run, and whose pass has not counted it or cannot end well any more, is harmless.
- It also tests the wrong error after the update, so a conflict loses the release (`Claims.ConflictLosesRelease`), for good if
  releases respected claims (`Claims.LostForGood`); `Claims.GoneHoldsNothing` says when none is lost.
- A topology edited before its first pass, or after an update whose status was lost, can settle on a deployment that is not
  the one asked for (`Topology.EditBeforeFirstPass`, `Topology.EditAfterLostUpdate`); `Topology.DeploysSpecIff` says exactly
  which edits do.
- The completion detector misses the end of a workload with no items or with a name used twice
  (`Workload.NeverMissesIff`).
- The size-based admission checks accept replacements the scale patch cannot perform
  (`ScaleDiff.ReplacementWhileShrinking`, `ScaleDiff.ReplacementAtEqualSize`).

## Model

| member | source | states |
|---|---|---|
| `Safety.NextKeepsInv` | controllers/testresourcerequest_controller.go:66-478 | Whichever controller takes the next step, and however its reads are separated from its commit, the invariant of the whole cluster still holds. |
| `Safety.InvOnRuns` | controllers/testresourcerequest_controller.go:66-478 | The invariant holds in every state of every run that starts from an empty record. |
| `Safety.MapsMirror` | controllers/testresourcerequest_controller.go:289-316 | In every reachable state a resource is in a machine's list with a binding if and only if the other map files that machine and binding under its key; no list holds a resource twice. |
| `Safety.ReleaseNeverOnEmptyList` | controllers/testresource_controller.go:48-57 | Whenever a release is about to call refsRemove on its copy, fresh or stale, the list holds the resource, so its capacity is never negative. |
| `Safety.CapacityConserved` | api/v1/machine_types.go:224-250 | In every reachable state, if resources ask for at most one disk or disks are deleted by device, Rest answers, idle and bound CPUs are a disjoint union of the offered ones, likewise devices, and with exact sizes memory adds up and is not over-committed. |
| `Safety.EachIsIdleOrBound` | api/v1/machine_types.go:153-250 | In every reachable state in which Rest answers: a CPU is idle or bound, never both, if and only if it is a thread from the reserved number on; so a device, if and only if it is present and declared exclusive. |
| `Safety.NeverShared` | controllers/testresourcerequest_controller.go:318-357 | As coded, for any disk order: no resource gets a CPU below the reserved number or beyond the threads, or a device that is not present and exclusive; no two resources on a machine share a CPU or a device; exact memory is not over-committed. |
| `Safety.AllocatableIff` | api/v1/machine_types.go:235-246 | As coded, a machine of known capacity can be allocated on in a reachable state if and only if no binding on it uses one device twice. |
| `Safety.PlanWithinMemory` | pkg/util/bytes_size.go:41-47 | If each Sub is accurate to e bytes, an acceptance leaves at most the available memory plus e for each binding bound on every machine it used. |
| `Safety.ShutdownStrandsNothing` | controllers/machine_controller.go:174-214 | Every binding's machine exists under the same UID, has known capacity, keeps its finalizer and its entry, and is the only machine of its namespace and name. |
| `Safety.RemovedHostsNothing` | controllers/machine_controller.go:181-212 | When an entry or a machine object is removed, no resource is bound to that machine. |
| `Guarantees.LockedHostsOnlyHolder` | controllers/testresourcerequest_controller.go:263-284 | Over every run: machines under a locked name, in whatever namespace, host resources of the lock's holder only, if and only if every acceptance locks only names under which no machine of any namespace hosts anything. |
| `Guarantees.HeldByNameStep` | controllers/testresourcerequest_controller.go:281-283 | The same for a single step: it keeps that law if and only if the names it locks are free in that sense. |
| `Guarantees.UniqueNamesAreFree` | controllers/testresourcerequest_controller.go:432-445 | Where machine names are not shared by namespaces, every step locks free names only. |
| `Witness.SomeNameIsShared` | controllers/testresourcerequest_controller.go:432-445 | As coded, a request takes one of two machines of the same name for itself, and the other, on which another request sits, counts as locked by it. |
| `Safety.LocksChangeByHolder` | controllers/testresourcerequest_controller.go:196-208 | A step changes a lock only if it is the acceptance of the request that takes it or the deletion of the request that held it. |
| `Guarantees.ExclusiveAsAsked` | controllers/testresourcerequest_controller.go:263-284 | In every reachable state, if the last entry of the request's list under the logical machine that a bound resource names says exclusive, the name of its host is locked by the resource's owner, and everything in the host's list belongs to that owner. |
| `Guarantees.ExclusiveUntilDropped` | controllers/testresourcerequest_controller.go:192-208 | On every run, a machine that is a request's alone stays so until that request is deleted and gives up its locks. |
| `Guarantees.UnlockedHostsNothing` | controllers/testresourcerequest_controller.go:192-208 | When a deletion gives up locks, nothing is bound on a machine that was the request's alone. |
| `Safety.AcceptanceBindsEveryItem` | controllers/testresourcerequest_controller.go:217-287 | A committed tryRequest has bound each item's own resource, none of which was bound before, and appended the request once to an accept list that did not hold it. |
| `Safety.OnlyAcceptanceBinds` | controllers/testresource_controller.go:284-320 | A resource becomes bound in no step but the acceptance of the request that owns it. |
| `Safety.ReadyMeansAccepted` | controllers/testresourcerequest_controller.go:151-157 | A request with at least one item that is ready and not being deleted is in the accept list. |
| `Safety.AcceptedAtMostOnce` | controllers/testresourcerequest_controller.go:163-168 | No run accepts one request twice, not even after its place was given up. |
| `Safety.TryRequestIsCalledRight` | controllers/testresourcerequest_controller.go:106-170 | Whenever tryRequest runs, it is handed one resource for each item under the item's name, item names are distinct, and every named machine is declared. |
| `Guarantees.NamedItemsShareAMachine` | controllers/testresourcerequest_controller.go:251-273 | In every reachable state, bound resources of one request that name one logical machine have the same host; the request lists that machine, and if the last entry of the list under its name asks for a test machine, the host has that name. |
| `Guarantees.BoundAsSpecified` | controllers/testresourcerequest_controller.go:318-357 | In every reachable state a bound resource has the memory and number of CPUs it asked for, none of them reserved, and for each disk it asked for an exclusive device that is present, of the kind asked for, with at least the size asked for unused, mounted where the device was and where the disk is wanted. |
| `Guarantees.AcceptedStaysBound` | controllers/testresourcerequest_controller.go:217-287 | In every reachable state, an accepted request that is not being deleted has, for each of its items, a resource of its own under the item's name that is bound. |
| `Witness.SomeRequestBecomesReady` | controllers/testresourcerequest_controller.go:106-170 | Some run of the system accepts a request and makes it ready, so the laws about reachable states are not empty. |
| `Witness.SomeRequestIsGivenBack` | controllers/testresourcerequest_controller.go:180-215 | Some run accepts a request, makes it ready, deletes it with its resource, and ends with nothing bound, accepted or locked. |
| `Witness.SomeBindingLeaks` | controllers/testresourcerequest_controller.go:217-287 | Some run reaches a commit that binds a resource without a finalizer, and goes on to lose the resource but not its binding. |
| `Guarantees.BoundNeverLost` | controllers/testresource_controller.go:104-147 | In every reachable state a bound resource exists and holds its finalizer. |
| `Guarantees.FinalizedIffNeverLeaks` | controllers/testresourcerequest_controller.go:470-478 | After an acceptance as coded, no continuation loses the resource of a binding, if and only if every listed resource held its finalizer when it was committed. |
| `MachineSteps.StepMachineKeeps` | controllers/machine_controller.go:57-139 | The steps of one machine object keep the invariant, under every interleaving. |
| `MachineSteps.CreateMachineKeeps` | controllers/machine_controller.go:57-112 | A new machine keeps the invariant; its name may be in use in another namespace. |
| `MachineSteps.EditMachineKeeps` | controllers/testresourcerequest_controller.go:432-445 | An edit of the reserve or the exclusive disks of an idle ready machine keeps the invariant, if no acceptance that could still commit could place anything on the machine. |
| `Edits.EditSafeIff` | controllers/testresourcerequest_controller.go:217-287 | With exact sizes, an idle ready machine can be edited in any way without any continuation ever binding CPUs, devices or memory that a machine does not have, if and only if no acceptance that could still commit has a plan that uses the machine. |
| `Witness.EditOverCommits` | controllers/testresourcerequest_controller.go:432-445 | As coded, an idle machine is edited between a request's read of it and the commit, which then binds more memory than it has. |
| `MachineSteps.EntryCommitKeeps` | controllers/machine_controller.go:158-212 | Adding a ready machine's entry and removing an idle one at shutdown keep the invariant. |
| `MachineSteps.MachineGoneKeeps` | controllers/machine_controller.go:211-213 | Dropping the machine's finalizer keeps the invariant: it hosts nothing. |
| `ResourceSteps.StepResourceKeeps` | controllers/testresource_controller.go:91-165 | The steps of one resource object keep the invariant. |
| `ResourceSteps.FoundIsBound` | controllers/testresource_controller.go:117-124 | The machine fetched by the namespace and name of a binding is the very machine that was bound. |
| `ResourceSteps.ReleaseKeeps` | controllers/testresource_controller.go:134-144 | The version-checked release keeps the invariant. |
| `ResourceSteps.ResourceGoneKeeps` | controllers/testresource_controller.go:143-145 | Dropping a resource's finalizer keeps the invariant: it is bound nowhere. |
| `RequestSteps.CreateRequestKeeps` | api/v1/testresourcerequest_webhook.go:52-62 | A request admitted by the webhook keeps the invariant. |
| `RequestSteps.StepRequestKeeps` | controllers/testresourcerequest_controller.go:66-170 | The reads and state changes of one request object keep the invariant. |
| `RequestSteps.ReadyIsAccepted` | controllers/testresourcerequest_controller.go:124-157 | If every listed resource has left pending, the request is in the accept list. |
| `RequestSteps.CreateResourceKeeps` | controllers/testresourcerequest_controller.go:132-149 | Creating the resource of an item keeps the invariant. |
| `RequestSteps.DeleteResourceKeeps` | controllers/testresourcerequest_controller.go:470-478 | Deleting an owned resource keeps the invariant, whether it is only marked or goes at once. |
| `RequestSteps.DropKeeps` | controllers/testresourcerequest_controller.go:180-215 | Leaving the accept list and giving up the locks keeps the invariant. |
| `RequestSteps.RequestGoneKeeps` | controllers/testresourcerequest_controller.go:212-214 | Dropping a request's finalizer keeps the invariant: it owns nothing and is not accepted. |
| `AcceptStep.ListedIsFaithful` | controllers/testresourcerequest_controller.go:131-149 | As many listed resources as items means one resource for each item and no item name used twice. |
| `AcceptStep.CommitAccepts` | controllers/testresourcerequest_controller.go:217-287 | A commit that passes the version check places unbound resources of its own request on live, unlocked machines, and locks only live machines that host nothing. |
| `AcceptStep.AcceptKeeps` | controllers/testresourcerequest_controller.go:217-287 | The commit that binds a whole request keeps the invariant. |
| `RecordLaws.BindKeepsRecord` | controllers/testresourcerequest_controller.go:304-311 | Binding an unbound resource within what is left on a live machine keeps the two maps mirrored and every machine's list sound. |
| `RecordLaws.ReleaseKeepsRecord` | controllers/testresource_controller.go:134-137 | Releasing a bound resource keeps the maps mirrored and the lists sound, and the list it is taken from is not empty. |
| `RecordLaws.SameListsKeepsRecord` | controllers/machine_controller.go:164-206 | Empty entries come and go without touching the mirror or any list's soundness. |
| `RecordLaws.PlanKeepsRecord` | controllers/testresourcerequest_controller.go:251-285 | Any number of such bindings in sequence keeps the record. |
| `Scheduler.TryRequest` | controllers/testresourcerequest_controller.go:217-287 | Either one commit places every item within what is left, on unlocked ready machines, or the stored record is unchanged. After the commit, whatever the last entry under a name in the request's list says holds of each item naming it: it is on the machine asked for, and if exclusive on one that hosted nothing and is now locked by the request. It refuses for a missing explicit machine exactly when some entry asks for one that is not ready, for lack of machines only after placing some groups and finding the next refused everywhere it may go, and for a conflict only when the record moved on. |
| `Scheduler.PlaceGroups` | controllers/testresourcerequest_controller.go:239-279 | The loop over groups: the copy holds exactly the plan so far and each placed group has its machine; it gives up at the first group that every machine it may go to refuses, which may leave the copy half changed. |
| `Scheduler.PlaceGroup` | controllers/testresourcerequest_controller.go:251-279 | A named group gets the machine asked for, idle if exclusive; any group, named or not and whatever its disks, is put on a non-explicit machine only if every explicit candidate that its declaration allows refuses it; no machine is found only if every eligible one refuses. |
| `Scheduler.TryBindResource` | controllers/testresourcerequest_controller.go:289-316 | The group goes to the first candidate that takes it, each item within what the items before it leave, and both maps record it; every candidate before it, or all when there is none, overflowed at some item and, for a group in which only the last item has disks and no more than one, cannot host it in any way. |
| `Scheduler.TryMachine` | controllers/testresourcerequest_controller.go:291-313 | One candidate: it takes the whole group and both maps record it, or nothing changes and the group overflowed there, with no grants that would fit if only the last item has disks and no more than one. |
| `Scheduler.MachinesToTry` | controllers/testresourcerequest_controller.go:252-268 | Exactly the candidates that the group's declaration allows, in the sorted order: the machine asked for, only idle ones if exclusive; none when the machine asked for is no candidate. |
| `Scheduler.AllocateGroup` | controllers/testresourcerequest_controller.go:295-303 | Allocates the group's items on one machine on top of its list, or stops at an item that overflows what the ones before it left; if only the last item has disks, and no more than one, it succeeds if and only if some sequence of grants does. |
| `Scheduler.RecordGroup` | controllers/testresourcerequest_controller.go:304-311 | Both maps of the copy become those of the plan applied to them. |
| `Scheduler.CommitRequest` | controllers/testresourcerequest_controller.go:281-286 | Succeeds if and only if nothing was committed since the copy was read, and then stores the plan, the locks and the accepted request; otherwise stores nothing. |
| `Scheduler.ReadDeclarations` | controllers/testresourcerequest_controller.go:228-238 | Goes through exactly if every machine asked for is ready; then each listed name maps to the last entry under it, unchanged, and the explicit machines are those asked for. |
| `Scheduler.DeclaredAsIs` | controllers/testresourcerequest_controller.go:228-238 | A name is declared by the last entry under it, with all its fields, and by none if and only if there is no such entry. |
| `Scheduler.AcceptsAsDeclared` | controllers/testresourcerequest_controller.go:251-279 | In every acceptance an item sits where the last entry under its logical machine asks, and if that is exclusive, on a machine that hosted nothing and whose name is to be locked. |
| `RequestLaws.ItemsArePlaced` | controllers/testresourcerequest_controller.go:239-279 | An acceptance has as many placements as items, each item has one and each is an item's. |
| `RequestLaws.PlacementIsGranted` | controllers/testresourcerequest_controller.go:318-357 | Each placement is on a ready machine whose name is not locked and got, out of what was left there at that moment, the memory asked for, that many of the first idle CPUs, and for each disk a device of its kind with at least its size. |
| `RequestLaws.PlacedIsAllowed` | controllers/testresourcerequest_controller.go:251-268 | Each item of an acceptance is on a machine that its last declaration, read from the request's list, and the locks allow. |
| `RequestLaws.PlanIsRecorded` | controllers/testresourcerequest_controller.go:304-311 | Every placement of a plan files its machine and binding under the resource's key. |
| `RequestLaws.PlanIsListed` | controllers/testresourcerequest_controller.go:304-311 | An entry is in a machine's list after a plan if and only if it was there before or a placement on that machine put it there. |
| `RequestLaws.LocksAre` | controllers/testresourcerequest_controller.go:274-283 | A name is locked if and only if an item whose last declaration is exclusive was placed on a machine of that name. |
| `RequestLaws.LocksAreAdded` | controllers/testresourcerequest_controller.go:281-285 | The committed record lists the request once more, keeps every lock there was, and adds exactly those names, none of which was locked, under the request. |
| `RequestLaws.ExplicitMachinesWereFull` | controllers/testresourcerequest_controller.go:241-268 | If an item that names no logical machine and asks for at most one disk is not on an explicit machine, then each explicit machine that was ready and unlocked lacked the memory, the CPUs or a device of the kind and size at that moment. |
| `RequestLaws.GroupIsPreferred` | controllers/testresourcerequest_controller.go:251-279 | The items that name a logical machine are placed one after another, in request order, on that machine's host. |
| `RequestLaws.ExplicitMachinesRefused` | controllers/testresourcerequest_controller.go:241-268 | If a logical machine's host is not an explicit machine, then each explicit machine that was ready, unlocked and, if it is to be exclusive, empty refused its group. |
| `RequestLaws.OneItemGivesUp` | controllers/testresourcerequest_controller.go:217-279 | A request for one item with at most one disk is given up only if every machine that the locks and its last declaration allow lacks the memory, the CPUs or a device of the kind and size. |
| `RequestLaws.OneItemIsPlaced` | controllers/testresourcerequest_controller.go:217-279 | And it is accepted only with a placement where all of that is left. |
| `Scheduler.LockMachines` | controllers/testresourcerequest_controller.go:281-283 | Every machine to lock is held by the request and other locks stay. |
| `Scheduler.LoopAccepts` | controllers/testresourcerequest_controller.go:251-279 | What the loop leaves behind is an acceptance: a placement of each item once that follows its logical machine, each named group placed in one go and with explicit machines preferred. |
| `Scheduler.LocksAreHosts` | controllers/testresourcerequest_controller.go:274-279 | The machines collected for locking are the hosts of the exclusive logical machines, no more and no fewer. |
| `Scheduler.FirstFitIsExplicitFirst` | controllers/testresourcerequest_controller.go:241-268 | First fit along the sorted list, or along what a declaration leaves of it, passes over the explicit machines that the group may go to only if each of them refuses the group, whatever its disks. |
| `GroupLaws.GroupFitsIff` | controllers/testresourcerequest_controller.go:295-303 | With exact sizes a disk-free group fits if and only if Rest answers and the sums of its cores and memory are at most the idle CPUs and the rest memory. |
| `GroupLaws.RestAfterDiskFree` | api/v1/machine_types.go:231-233 | A disk-free binding leaves exactly its memory and its number of CPUs less. |
| `Grouping.GroupCoLocatedItems` | controllers/testresourcerequest_controller.go:360-385 | For any map order: one group for each machine named, with the items naming it in request order, then the unnamed items one by one. |
| `Grouping.GroupsPartitionItems` | controllers/testresourcerequest_controller.go:360-385 | The groups hold every item's resource exactly once. |
| `Grouping.NamingMembers` | controllers/testresourcerequest_controller.go:369-378 | A named group holds exactly the resources of the items that name its machine. |
| `Grouping.NamingIs` | controllers/testresourcerequest_controller.go:369-378 | And in request order, missing none. |
| `Grouping.SortMachines` | controllers/testresourcerequest_controller.go:387-411 | For any shuffle and any unstable sort the result is a permutation of the candidates in the comparator's order. |
| `Grouping.ComparatorIsStrictWeakOrder` | controllers/testresourcerequest_controller.go:397-409 | The comparator is a strict weak order, as sort.Slice demands. |
| `Grouping.SortedMeans` | controllers/testresourcerequest_controller.go:397-409 | In a sorted list explicit machines come first, and the length of the hosted list never rises within a class. |
| `Grouping.SelectNonLockMachines` | controllers/testresourcerequest_controller.go:413-421 | Exactly the machines whose name carries no lock. |
| `Grouping.FilterIdle` | controllers/testresourcerequest_controller.go:263-267 | The machines that host nothing at that moment, as a filtered sequence. |
| `Grouping.IdleOnesMean` | controllers/testresourcerequest_controller.go:263-267 | Exactly the machines given that host nothing. |
| `Grouping.IdleOnesKeepOrder` | controllers/testresourcerequest_controller.go:422-430 | Filtering keeps the order: what stands first among the idle stood first among all. |
| `Grouping.CheckItems` | api/v1/testresourcerequest_webhook.go:72-85 | Accepts if and only if every machine an item names is declared. |
| `Placement.ResourceOverflow` | controllers/testresourcerequest_controller.go:318-357 | A granted binding has the requested memory, the first idle CPUs, and for each disk a device that is left, of its kind and at least its size, recorded with that device's size and path. A refusal with room means that some disk's suitable devices were all deleted before it was served, and with at most one disk that every device left is of another kind or too small. |
| `Placement.GrantIs` | controllers/testresourcerequest_controller.go:323-346 | What any grant consists of, field by field: memory, CPUs, and the kind, size, device and paths of each disk. |
| `Placement.ServeDisks` | controllers/testresourcerequest_controller.go:329-346 | For any order of both maps: each served disk has a device of its kind and at least its size that was not deleted before, and for each unserved one every such device was deleted: as coded, it is named like a served disk. |
| `Placement.PickCpuSet` | controllers/testresource_controller.go:64-72 | The first i ids if there are that many, otherwise none. |
| `PlacementLaws.OneDiskFitsIff` | controllers/testresourcerequest_controller.go:318-357 | An item with at most one disk fits if and only if Rest answers, enough memory and CPUs are left, and some device left is of its disk's kind and at least its size. |
| `PlacementLaws.CodedFitsIff` | controllers/testresourcerequest_controller.go:329-356 | As coded, for any number of disks: an item can fit if and only if Rest answers, enough memory and CPUs are left, and in some order of its disks each finds a device of its kind and size that is named like no disk before it. |
| `PlacementLaws.OneDiskOverflowExact` | controllers/testresourcerequest_controller.go:329-346 | An item with at most one disk is refused only where no grant fits: the greedy loop misses nothing. |
| `PlacementLaws.DiskFreeFitsIff` | controllers/testresourcerequest_controller.go:348-354 | An item without disks fits if and only if Rest answers and enough memory and CPUs are left. |
| `PlacementLaws.ServedOnDistinctDevices` | controllers/testresourcerequest_controller.go:329-346 | With at most one disk, or with deletion by device, the disks of one item are on distinct devices. |
| `PlacementLaws.CodedDisksDistinctIff` | controllers/testresourcerequest_controller.go:331-334 | As coded, for any names: the disks of an item are always on distinct devices, unless in some order in which each disk finds a device two of them find the same one, named like no disk served before the second. When no disk is named like a device that means that no device suits two of them, or the item cannot be served at all. |
| `PlacementLaws.TwoDisksOnOneDevice` | controllers/testresourcerequest_controller.go:334 | As coded, two disks of one item can get the same of two free devices, after which Rest answers nothing for that machine. |
| `PlacementLaws.SoundAfterGrant` | controllers/testresourcerequest_controller.go:318-357 | A granted binding takes nothing that another binding of the machine holds. |
| `PlacementLaws.SoundAfterRelease` | controllers/testresource_controller.go:48-57 | Removing a resource keeps a list's CPUs and devices apart and its memory within bounds. |
| `PlacementLaws.SoundIsConserved` | api/v1/machine_types.go:224-250 | For a list whose CPUs and devices are apart and offered, what Rest returns and what is bound split what the machine offers. |
| `PlacementLaws.MemoryBoundUnderRounding` | controllers/testresourcerequest_controller.go:348-350 | With sizes accurate to e bytes, n bindings after an acceptance exceed the available memory by at most n times e. |
| `PlacementLaws.AllocateThenRelease` | controllers/testresource_controller.go:48-57 | Releasing what was just allocated gives back the very list and the very rest. |
| `PlacementLaws.ReleaseRestores` | controllers/testresource_controller.go:48-57 | Releasing any one binding adds exactly its CPUs, its devices and its memory to the rest, none of which was free before. |
| `Machines.Rest` | api/v1/machine_types.go:224-250 | Computes the rest by its recursive specification, with None when capacity is unknown or a bound device is not there to take; whenever it answers, the CPUs are the threads from the reserved number on that no binding holds, and the devices those present, exclusive and in no binding. |
| `Machines.Available` | api/v1/machine_types.go:153-187 | None exactly if the info is unknown; otherwise the ids from the reserved number on and below the number of threads, in ascending order, the memory less the reserved, and the devices present and declared exclusive with their total less used size and mount point. |
| `Machines.OfferedCpus` | api/v1/machine_types.go:158-160 | The CPUs offered are, in ascending order, the ids from the reserved number on and below the number of threads. |
| `Machines.OfferedIs` | api/v1/machine_types.go:153-187 | A machine of unknown info offers nothing; otherwise the memory less the reserved, and the present and exclusive devices with their total less used size and their mount point. |
| `Machines.OfferedKindIs` | api/v1/machine_types.go:177-181 | A device is NVMe if and only if the last element of its path starts with nvme, whatever directories come before it and slashes after it. |
| `Machines.DeleteCPUSet` | api/v1/machine_types.go:196-211 | Through any map order, the strictly ascending set difference. |
| `Machines.MakeCPUSet` | api/v1/machine_types.go:189-194 | The ids below the number of threads in ascending order. |
| `Machines.TakeDisks` | api/v1/machine_types.go:235-246 | Removes the binding's devices, or gives up exactly when one is missing or used twice. |
| `Capacity.RestIsDifference` | api/v1/machine_types.go:224-250 | Whenever Rest answers, its CPUs and disks are what is offered less what is bound. |
| `Machines.IdleCpusAre` | api/v1/machine_types.go:231-232 | The CPUs left are, in ascending order, the threads from the reserved number on that are in no binding. |
| `Machines.IdleDisksAre` | api/v1/machine_types.go:235-246 | The devices left are those present, exclusive and in no binding, with the sizes and paths measured. |
| `Capacity.RestAfterOneMore` | api/v1/machine_types.go:231-246 | One more binding takes its memory, its CPUs and its devices from the rest, and nothing else. |
| `Capacity.StillAnswersIff` | api/v1/machine_types.go:235-242 | Rest still answers after one more binding if and only if that takes devices that are left, none of them twice. |
| `Capacity.RestAnswersIff` | api/v1/machine_types.go:227-246 | Rest answers if and only if capacity is known and every bound device is offered and bound once. |
| `Capacity.RestIsUnordered` | api/v1/machine_types.go:231-247 | Rest depends on which bindings there are, not on their order. |
| `Capacity.RestMemoryWithin` | pkg/util/bytes_size.go:41-43 | The running subtraction drifts by at most e for each Sub. |
| `Capacity.RestMemoryExact` | api/v1/machine_types.go:233 | With exact sizes, rest memory and bound memory add up to the available memory. |
| `Relationships.RefsRemove` | controllers/testresource_controller.go:48-57 | The list without the resource's entries; must not be called on an empty list. |
| `Relationships.Clone` | api/v1/relationship_types.go:74-80 | The same list. |
| `Relationships.IfExist` | api/v1/relationship_types.go:50-60 | True if and only if the request is in the list. |
| `Relationships.Relationship.RemoveAccepted` | api/v1/relationship_types.go:62-70 | The accept list without the request, in order. |
| `Relationships.Relationship.ReleaseResource` | controllers/testresource_controller.go:134-136 | The machine's list loses the resource's entries, the other map its key; every other list, the accept list and the locks stay. |
| `Relationships.Relationship.EnsureEntry` | controllers/machine_controller.go:164-167 | An empty entry exactly if there was none. |
| `Relationships.Relationship.DeleteEntry` | controllers/machine_controller.go:183-205 | Removes the entry if and only if it is empty or missing, and nothing else. |
| `Relationships.Relationship.DropAcceptedRequest` | controllers/testresourcerequest_controller.go:195-207 | The accept list loses the request, and the lock table exactly the locks it holds; both maps stay. |
| `Relationships.Store.Update` | controllers/testresourcerequest_controller.go:285 | Stores the copy if and only if it was read at the current version. |
| `Refs.ParseKeyInvertsKey` | pkg/ref/ref.go:39-60 | Parsing a reference's key gives the reference back if and only if no field contains a slash. |
| `Refs.KeyInvertsParseKey` | pkg/ref/ref.go:39-60 | A key that parses is the key of what it parses to. |
| `Refs.KeyInjective` | pkg/ref/ref.go:58-60 | Slash-free references with the same key are the same. |
| `Refs.KeyCollision` | pkg/ref/ref.go:58-60 | With slashes, two references can share a key. |
| `Workload.TestWorkload.ReconcileRunning` | controllers/testworkload_controller.go:198-254 | A pass goes through exactly if every node is there and uninitialized, ready or finished; otherwise the first that is not decides between a failed lookup and a panic, and nothing is stored. While some item has no final phase on record, a pass that finds every node in one of those states with a final phase stores succeeded if all succeeded and failed otherwise. |
| `Workload.TestWorkload.InspectAll` | controllers/testworkload_controller.go:204-241 | The loop: stops at the first node that is missing, new, pending or being destroyed, and otherwise records every phase and counts changes, successes and failures. |
| `Workload.RecordIs` | controllers/testworkload_controller.go:219-228 | With distinct names, a pass over such nodes leaves each item's phase on record and touches no other. |
| `Workload.StateIs` | controllers/testworkload_controller.go:242-251 | The stored state moves only if some phase is not the one on record, and then to succeeded if all succeeded and to failed if all came to an end otherwise. |
| `Workload.StoppedStoresNothing` | controllers/testworkload_controller.go:205-217 | A node that is missing, new, pending or being destroyed makes the pass store nothing. |
| `Workload.TestWorkload.Inspect` | controllers/testworkload_controller.go:219-228 | Records the node's phase and counts no change if and only if that phase was on record. |
| `Workload.RunningIsUnfinished` | controllers/testworkload_controller.go:198-254 | With at least one item and distinct names, a stored state of running has an item with no final phase on record. |
| `Workload.CompletionIsSeen` | controllers/testworkload_controller.go:242-251 | Then the pass that finds every node uninitialized, ready or finished with a final phase stores succeeded if all succeeded and failed otherwise, whatever was seen before, passes that stored nothing included. |
| `Workload.NeverMissesIff` | controllers/testworkload_controller.go:198-254 | The detector never misses an end, on any run of observations, if and only if there is at least one item and no name is used twice. |
| `Workload.DuplicateNameMisses` | controllers/testworkload_controller.go:221-228 | With a name used twice, two passes leave the workload running for good. |
| `Claims.StepKeepsInv` | controllers/testworkload_controller.go:106-196 | Guarded or not, a step that takes no node from a workload counting on it keeps every running workload's claims on all its nodes. |
| `Claims.MutualExclusion` | controllers/testworkload_controller.go:137-192 | With a release limited to the holder, a running workload holds every node it uses and no two running ones use one node, in any run. |
| `Claims.RunsAsIfGuarded` | controllers/testworkload_controller.go:316-335 | A run in which no release starts to free a node that another holds is a run of the guarded protocol. |
| `Claims.HarmlessStepIff` | controllers/testworkload_controller.go:316-335 | As coded, for any step: it takes a node from nobody who runs on it, or whose pass has counted it and holds all it has yet to count, if and only if exclusion holds after it and would go on holding if from there on no release wrote a node. |
| `Claims.MutualExclusionAsCoded` | controllers/testworkload_controller.go:316-335 | As coded, exclusion holds at the end of every run in which no release takes a node from a workload that counts on it. |
| `Claims.MutualExclusionIff` | controllers/testworkload_controller.go:316-335 | As coded, for any run: no release did such harm, if and only if exclusion holds in every state of the run and would go on holding in each if from there on no release wrote a node. |
| `Claims.ReleaseEndsExclusion` | controllers/testworkload_controller.go:316-335 | From any state reached as coded in which a release is about to read a node that could be uninstalled and that another workload claims and runs on, some continuation has that workload and any newcomer both running on it. |
| `Claims.TwoRunOnOneNode` | controllers/testworkload_controller.go:325-331 | As coded, deleting a workload that never ran frees another's node, and a third workload then runs on it beside the second. |
| `Claims.GoneHoldsNothing` | controllers/testworkload_controller.go:316-335 | In every run, guarded or not, a workload that is gone holds no node, if its release found none it held new, pending or already being destroyed, and none changed between its read and its update. |
| `ClaimLaws.ReleaseFrees` | controllers/testworkload_controller.go:316-335 | A release that nothing interferes with, of a deleted workload whose nodes are all uninitialized, ready or finished: the workload goes, each of these nodes is left in the destroy state with no claim, and it holds none. |
| `ClaimLaws.ReadIs` | controllers/testworkload_controller.go:325 | A release goes for a node it holds exactly if that is uninitialized, ready or finished when it is read. |
| `ClaimLaws.FreeIs` | controllers/testworkload_controller.go:326-331 | Its update leaves a node that is as it was read destroyed and unclaimed, and any other as it is; the release goes on either way. |
| `ClaimLaws.RunsIffAllUp` | controllers/testworkload_controller.go:131-192 | A pass that nothing interferes with makes a pending workload running if and only if every item's node is there, claimed by it, and ready or finished. |
| `ClaimLaws.WalkIs` | controllers/testworkload_controller.go:137-179 | The next node counts if and only if it is the workload's own and ready or finished, is passed if uninitialized with the item's image, claimed if uninitialized without an image, where unclaimed or its own, and ends the pass otherwise. |
| `ClaimLaws.WalkEnds` | controllers/testworkload_controller.go:184-192 | Behind the last node the workload starts running if and only if every node counted. |
| `ClaimLaws.ClaimIs` | controllers/testworkload_controller.go:148-162 | A claim writes itself and the item's image into a node that is as it was read, and nothing into any other. |
| `Claims.LostForGood` | controllers/testworkload_controller.go:316-335 | With the guard, a node that a workload still holds when it is gone stays claimed by it in every continuation. |
| `Claims.ConflictLosesRelease` | controllers/testworkload_controller.go:329-331 | Guarded or not, such runs exist: the node changes between the read and the update, the workload goes, and its claim stays. |
| `ScaleDiff.GetScaleInNode` | pkg/tiup/cluster/deploy.go:975-1023 | The addresses of the old entries not literally among the new, and the default port written into those entries of the shared slices and no others. |
| `ScaleDiff.ScaleInPart` | pkg/tiup/cluster/deploy.go:977-991 | The same for one component. |
| `ScaleDiff.ScaleOutPart` | pkg/tiup/cluster/deploy.go:1027-1046 | The new entries not literally among the old, with host and ports filled in. |
| `ScaleDiff.CheckSimultaneousScaleOutAndScaleIn` | api/v1/testclustertopology_webhook.go:171-208 | Accepts if and only if no component shrinks while another grows and, with all sizes equal, each component keeps some host. |
| `ScaleDiff.CheckImmutableFieldChanged` | api/v1/testclustertopology_webhook.go:301-340 | Accepts if and only if an old and a new entry of one ID are equal. |
| `ScaleDiff.CheckAtMostOneKindUpdation` | api/v1/testclustertopology_webhook.go:367-387 | Accepts if and only if no two of scale, server configuration and version change together. |
| `ScaleDiff.IsConfigModified` | pkg/tiup/cluster/deploy.go:103-127 | True if and only if the server configurations differ or two entries of one component on one host are configured differently. |
| `ScaleDiff.ScaleInMeans` | pkg/tiup/cluster/deploy.go:975-1023 | An address is scaled in if and only if it is that of an old entry that is not literally among the new of its component. |
| `ScaleDiff.GoneIs` | pkg/tiup/cluster/deploy.go:984-1018 | An old entry that is not among the new goes under its host's address and its port, or 4000, 2379 or 20160 for none. |
| `ScaleDiff.AddedIs` | pkg/tiup/cluster/deploy.go:1036-1089 | A new entry that is not among the old is added on its host's address with its ports, or 4000 and 10080, 2379 and 2380, 20160 and 20180 for none, and otherwise as it is. |
| `ScaleDiff.CommonStays` | pkg/tiup/cluster/deploy.go:975-1092 | An entry of both topologies is neither removed nor added. |
| `ScaleDiff.ScaleInCorrectIff` | pkg/tiup/cluster/deploy.go:506-532 | Given distinct addresses, a scale-in turns the old deployment into the new if and only if every new entry is literally an old one. |
| `ScaleDiff.ScaleOutCorrectIff` | pkg/tiup/cluster/deploy.go:580-633 | Given distinct addresses, a scale-out does so on fresh instances only if and only if every old entry is literally still there. |
| `ScaleDiff.AcceptedScaleCorrectIff` | controllers/testclustertopology_controller.go:617-663 | For an accepted update that scales, the patch is right exactly when the cluster purely shrinks or purely grows. |
| `ScaleDiff.EqualSizeCorrectIff` | controllers/testclustertopology_controller.go:617-663 | With equal sizes nothing is patched, which is right if and only if old and new have the same entries, field by field up to default ports. |
| `Topology.DeploysSpecIff` | controllers/testclustertopology_controller.go:139-234 | Over every run of edits and passes, whatever calls fail and whatever status updates are lost: whenever nothing is left to do the deployment is that of the specification, if and only if every edit lands well. |
| `Topology.LandsWellIff` | controllers/testclustertopology_controller.go:617-663 | For any previous, deployed and new specification with distinct addresses: the patch deploys the new one if and only if, shrinking, its entries are all deployed, share addresses only with literal entries of the previous one, and all that is deployed is at an address of either; growing, all that is deployed is among its entries and what both have is deployed; otherwise the deployed and new entries are the same up to default ports. |
| `Topology.EditIff` | api/v1/testclustertopology_webhook.go:115-151 | On a topology that is on course, all passes after an edit settle right if and only if the edit lands well, and then it is on course again. |
| `Topology.PassKeepsOutcome` | controllers/testclustertopology_controller.go:139-234 | No pass, whatever fails and whatever is not stored, changes what the passes to come will have deployed. |
| `Topology.TwoPassesSettle` | controllers/testclustertopology_controller.go:139-234 | Two passes that go well leave nothing to do, from every state. |
| `Topology.EditBeforeFirstPass` | controllers/testclustertopology_controller.go:149-154 | As coded, any edit between the installation and the first pass is taken for deployed, and is so only if it changes no entry. |
| `Topology.EditAfterLostUpdate` | controllers/testclustertopology_controller.go:214-232 | As coded, after any update whose status was lost, taking the edit back is admitted and taken for done, and what the update deployed stays. |
| `Topology.SomeEditsAreLost` | api/v1/testclustertopology_webhook.go:115-117 | Both happen to a cluster of one TiKV that is to have a second one. |
| `Topology.PureUpdateLands` | api/v1/testclustertopology_webhook.go:114-151 | An admitted update followed from what is deployed lands well if it is pure, and one that does not grow only then. |
| `Topology.TestClusterTopology.Reconcile` | controllers/testclustertopology_controller.go:139-234 | A pass over the stored object, call by call, does what the transition of the state machine says, also when a call fails or its status update is not taken. |
| `Topology.TestClusterTopology.UpdateTiDBCluster` | controllers/testclustertopology_controller.go:617-663 | Succeeds exactly when the upgrade, configuration, scale-in and scale-out calls that it needs do, in that order, and then the deployment is the patched one; it stops at the first that fails, and keeps a scale-in that went before. |
| `Topology.TestClusterTopology.ScaleIn` | pkg/tiup/cluster/deploy.go:506-532 | The deployment loses exactly the nodes at the addresses to scale in, and the copy of the previous specification gets their default ports. |
| `Topology.TestClusterTopology.ScaleOut` | pkg/tiup/cluster/deploy.go:580-633 | The deployment gains exactly the added nodes. |
| `Topology.PatchIsIdempotent` | controllers/testclustertopology_controller.go:617-663 | Repeating a patch in one direction on its own result changes nothing. |
| `Topology.MarkedDeploysSame` | pkg/tiup/cluster/deploy.go:984-990 | Writing default ports into the shared entries does not change what they stand for. |
| `ScaleDiff.ReplacementWhileShrinking` | api/v1/testclustertopology_webhook.go:171-178 | The webhook accepts (n1, n2, n3) to (n1, n4), and n4 is never deployed. |
| `ScaleDiff.ReplacementAtEqualSize` | api/v1/testclustertopology_webhook.go:179-205 | The webhook accepts (n1, n2, n3) to (n1, n2, n4), and nothing is patched. |

## Left out

- Docker, SSH, HTTP and gRPC calls: what they find or do is a nondeterministic observation or a step that may fail.
- The states of a resource after pending (uninitialized, ready, finish, destroy): the scheduler only asks whether it left pending.
- `TestResourceReconciler.resourceOverflow`: a second copy of the request controller's, which nothing calls.
- go-units formatting and parsing of sizes, and the panic on a size string that does not parse: a requested size is a natural number.
- The 32-bit width of thread and core counts: both are unbounded integers here, and no arithmetic is done on them but comparison.
- The Relationship initialiser: the record starts with four empty collections.
- Event recording, logging, requeue delays, and progress: nothing is proved about what must eventually happen.
- Reads served from a cache that lags behind the API server.
- `BuildSpecification`, server configuration files, and what an upgrade or a configuration update does: here they succeed or fail, and do not change which instances are deployed.
- What a tiup call does when it fails half way: a call that fails changes nothing here.
- A topology edited before it is installed: the model starts with what the installation deployed.
- Edits of a machine that hosts something, or is shutting down.
- The pending, deletion and Flink or DM branches of a topology's reconcile, and the pruning of offline TiKVs beyond the flag it clears.
- The other admission checks of a topology (unsupported components, download URLs, required fields, offline TiKVs): they only reject more.
- The difference between an absent and an empty component list in `checkSimultaneousScaleOutAndScaleIn`: both are the empty sequence.
- Decimal formatting of ports is a parameter: the scale results hold for every formatting that keeps the addresses distinct.
- DM and Flink topologies, process chaos, the CLI and client packages, and the workflow controller.
- ReconcilePending of a workload beyond claims: topology readiness and container environments are not modelled.
