/** What holds in every reachable state of the cluster. */
module Invariants {
  import opened Options
  import opened Refs
  import opened Resources
  import opened Machines
  import opened Relationships
  import opened Placement
  import opened PlacementLaws
  import opened Grouping
  import opened Scheduler
  import opened Cluster

  // ---- The record ------------------------------------------------------------------------

  /** An entry of a machine's list is what the other map says about its resource. */
  ghost predicate EntryMirrored(rel: RelationshipStatus, machineKey: string, e: ResourceRef) {
    && Key(e.ref) in rel.resourceToMachine
    && Key(rel.resourceToMachine[Key(e.ref)].ref) == machineKey
    && rel.resourceToMachine[Key(e.ref)].binding == e.binding
  }

  /** A bound resource occurs in the list of the machine it is bound to. */
  ghost predicate BindingMirrored(rel: RelationshipStatus, resourceKey: string)
    requires resourceKey in rel.resourceToMachine
  {
    exists e :: e in ListOf(rel, Key(rel.resourceToMachine[resourceKey].ref))
                && Key(e.ref) == resourceKey && e.binding == rel.resourceToMachine[resourceKey].binding
  }

  ghost predicate EntriesMirrored(rel: RelationshipStatus) {
    forall k, e :: k in rel.machineToResources && e in rel.machineToResources[k] ==> EntryMirrored(rel, k, e)
  }

  ghost predicate ListsDistinct(rel: RelationshipStatus) {
    forall k :: k in rel.machineToResources ==> RefsDistinct(rel.machineToResources[k])
  }

  /** The two maps tell the same story, and no resource occurs twice. */
  ghost predicate Mirror(rel: RelationshipStatus) {
    && EntriesMirrored(rel)
    && ListsDistinct(rel)
    && (forall r :: r in rel.resourceToMachine ==> BindingMirrored(rel, r))
  }

  /** The binding gives what was asked for. */
  ghost predicate Meets(spec: TestResourceSpec, b: ResourceBinding) {
    && b.memory == spec.memory && |b.cpuSet| == Max0(spec.cores) && b.disks.Keys == spec.disks.Keys
    && forall n :: n in spec.disks ==>
         && b.disks[n].kind == spec.disks[n].kind && spec.disks[n].size <= b.disks[n].size
         && b.disks[n].mountPath == spec.disks[n].mountPath
  }

  /** The resource of an entry exists, can only leave through a release, has what it asked for and its disks apart where promised. */
  ghost predicate EntryLive(cfg: Config, resources: map<Ref, ResourceObj>, e: ResourceRef) {
    && e.ref in resources && resources[e.ref].finalizer && Meets(resources[e.ref].resource.spec, e.binding)
    && (cfg.byDevice || |resources[e.ref].resource.spec.disks| <= 1 ==> DistinctDevices(e.binding))
  }

  /** A machine that may host: its capacity is settled and its entry was not removed. */
  ghost predicate Settled(o: MachineObj) {
    (o.state.MachineReady? || o.state.MachineShutdown?) && !o.pc.MStrip?
  }

  ghost predicate HostLive(machines: map<Ref, MachineObj>, host: Ref) {
    host in machines && Settled(machines[host])
  }

  /** The part of the invariant that each single binding keeps. */
  ghost predicate Record(cfg: Config, rel: RelationshipStatus, machines: map<Ref, MachineObj>, resources: map<Ref, ResourceObj>) {
    && Mirror(rel)
    && (forall k, e :: k in rel.machineToResources && e in rel.machineToResources[k] ==> EntryLive(cfg, resources, e))
    && (forall r :: r in rel.resourceToMachine ==> HostLive(machines, rel.resourceToMachine[r].ref))
    && (forall m :: m in machines ==> Sound(cfg.round, machines[m].machine, ListOf(rel, Key(m))))
  }

  ghost predicate NoRepeats(list: seq<Ref>) {
    forall i, j :: 0 <= i < j < |list| ==> list[i] != list[j]
  }

  /** A bound resource belongs to an accepted request. */
  ghost predicate EntryOwned(s: State, e: ResourceRef)
    requires e.ref in s.resources
  {
    s.resources[e.ref].owner in s.rel.acceptedRequests
  }

  /** Requests are accepted once, and stay while they are. */
  ghost predicate AcceptedLive(accepted: seq<Ref>, requests: map<Ref, RequestObj>) {
    && NoRepeats(accepted)
    && forall q :: q in accepted ==> q in requests && requests[q].finalizer
  }

  ghost predicate HoldersAccepted(locks: map<string, Ref>, accepted: seq<Ref>) {
    forall n :: n in locks ==> locks[n] in accepted
  }

  ghost predicate EntriesOwned(s: State) {
    forall k, e :: k in s.rel.machineToResources && e in s.rel.machineToResources[k] ==>
      e.ref in s.resources && Key(e.ref) in s.rel.resourceToMachine && EntryOwned(s, e)
  }

  ghost predicate Ownership(s: State) {
    && AcceptedLive(s.rel.acceptedRequests, s.requests)
    && HoldersAccepted(s.rel.machineLocks, s.rel.acceptedRequests)
    && EntriesOwned(s)
  }

  // ---- What an accepted request was promised ---------------------------------------------

  /** The request holds the lock on the machine's name, and nobody else has anything on the machine. */
  ghost predicate Exclusive(s: State, host: Ref, q: Ref) {
    && host.name in s.rel.machineLocks && s.rel.machineLocks[host.name] == q
    && forall e :: e in ListOf(s.rel, Key(host)) ==> e.ref in s.resources && s.resources[e.ref].owner == q
  }

  /** The machine is the one asked for, if one is, and exclusive if it is to be. */
  ghost predicate AsDeclared(s: State, declared: Option<MachineRequest>, host: Ref, q: Ref) {
    && declared.Some?
    && (declared.value.testMachineResource != "" ==> host.name == declared.value.testMachineResource)
    && (declared.value.exclusive ==> Exclusive(s, host, q))
  }

  /** A bound resource that names a logical machine is where that machine was declared to be. */
  ghost predicate EntryAsAsked(s: State, e: ResourceRef) {
    && e.ref in s.resources && Key(e.ref) in s.rel.resourceToMachine && s.resources[e.ref].owner in s.requests
    && var o, host := s.resources[e.ref], s.rel.resourceToMachine[Key(e.ref)].ref;
    && (o.resource.spec.machine != "" ==>
          AsDeclared(s, DeclaredAs(s.requests[o.owner].request.machines, o.resource.spec.machine), host, o.owner))
  }

  ghost predicate EntriesAsAsked(s: State) {
    forall k, e :: k in s.rel.machineToResources && e in s.rel.machineToResources[k] ==> EntryAsAsked(s, e)
  }

  /** Two resources of one request that name the same logical machine. */
  ghost predicate Together(resources: map<Ref, ResourceObj>, e: ResourceRef, f: ResourceRef) {
    && e.ref in resources && f.ref in resources && resources[e.ref].owner == resources[f.ref].owner
    && resources[e.ref].resource.spec.machine == resources[f.ref].resource.spec.machine != ""
  }

  ghost predicate CoLocated(rel: RelationshipStatus, resources: map<Ref, ResourceObj>) {
    forall k, e, l, f ::
      (k in rel.machineToResources && e in rel.machineToResources[k]
       && l in rel.machineToResources && f in rel.machineToResources[l] && Together(resources, e, f)) ==> k == l
  }

  /** Some resource of the request under this name is bound. */
  ghost predicate ItemBound(s: State, q: Ref, name: string) {
    exists r :: r in s.resources && s.resources[r].owner == q && r.name == name && Key(r) in s.rel.resourceToMachine
  }

  /** Until it is deleted, an accepted request has every item bound. */
  ghost predicate Fulfilled(s: State, q: Ref)
    requires q in s.requests
  {
    !s.requests[q].deleting ==>
      forall i :: 0 <= i < |s.requests[q].request.items| ==> ItemBound(s, q, s.requests[q].request.items[i].name)
  }

  ghost predicate Promises(s: State) {
    && EntriesAsAsked(s)
    && CoLocated(s.rel, s.resources)
    && forall q :: q in s.rel.acceptedRequests && q in s.requests ==> Fulfilled(s, q)
  }

  // ---- Objects and reconciles in flight --------------------------------------------------

  /** A copy of the record is never newer than the record, and equal to it at the same version. */
  ghost predicate GoodSnap(s: State, snap: Snapshot) {
    && snap.version <= s.version
    && (snap.version == s.version ==> snap.rel == s.rel)
    && Mirror(snap.rel)
  }

  ghost predicate MachineIds(machines: map<Ref, MachineObj>, uids: set<string>) {
    && (forall m :: m in machines ==> machines[m].machine.ref == m && Valid(m) && m.uid in uids)
    && (forall a, b :: a in machines && b in machines && a.namespace == b.namespace && a.name == b.name ==> a == b)
  }

  ghost predicate ResourceIds(resources: map<Ref, ResourceObj>, uids: set<string>) {
    && (forall r :: r in resources ==> resources[r].resource.ref == r && Valid(r) && r.uid in uids)
    && (forall a, b :: a in resources && b in resources && a.namespace == b.namespace && a.name == b.name ==> a == b)
  }

  ghost predicate RequestIds(requests: map<Ref, RequestObj>, uids: set<string>) {
    && (forall q :: q in requests ==> requests[q].request.ref == q && Valid(q) && q.uid in uids)
    && (forall a, b :: a in requests && b in requests && a.namespace == b.namespace && a.name == b.name ==> a == b)
    && (forall a, b :: a in requests && b in requests && a.uid == b.uid ==> a == b)
  }

  /** Objects are filed under their own reference, and names and UIDs are not shared. */
  ghost predicate Identities(s: State) {
    MachineIds(s.machines, s.uids) && ResourceIds(s.resources, s.uids) && RequestIds(s.requests, s.uids)
  }

  ghost predicate MachineOk(s: State, m: Ref, o: MachineObj) {
    && (!o.finalizer ==> o.state.MachineNew? && o.pc.MIdle?)
    && (o.state.MachineShutdown? ==> o.deleting)
    && (o.pc.MRemove? || o.pc.MStrip? ==> o.state.MachineShutdown?)
    && (o.pc.MStrip? ==> ListOf(s.rel, Key(m)) == [])
    && (o.pc.MEnsure? ==> GoodSnap(s, o.pc.snap))
    && (o.pc.MRemove? ==> GoodSnap(s, o.pc.snap))
  }

  /** The resource was made from an item of its owner. */
  ghost predicate MadeFrom(request: TestResourceRequest, resource: TestResource) {
    exists i :: 0 <= i < |request.items| && request.items[i].name == resource.ref.name && request.items[i].spec == resource.spec
  }

  /** A copy read by the resource's own release still shows its binding, for nobody else removes it. */
  ghost predicate SeesOwnBinding(s: State, r: Ref, snap: Snapshot) {
    && GoodSnap(s, snap)
    && (Key(r) in snap.rel.resourceToMachine <==> Key(r) in s.rel.resourceToMachine)
    && (Key(r) in snap.rel.resourceToMachine ==> snap.rel.resourceToMachine[Key(r)] == s.rel.resourceToMachine[Key(r)])
  }

  ghost predicate ResourceOk(s: State, r: Ref, o: ResourceObj) {
    && o.owner in s.requests && s.requests[o.owner].finalizer && o.owner.namespace == r.namespace
    && MadeFrom(s.requests[o.owner].request, o.resource)
    && (!o.finalizer ==> o.state.ResourceNew? && o.pc.RIdle? && !o.deleting)
    && (o.deleting ==> s.requests[o.owner].deleting)
    && (o.state.Required? && !o.deleting ==> Key(r) in s.rel.resourceToMachine)
    && (o.pc.RBound? ==> Key(r) in s.rel.resourceToMachine)
    && (o.pc.RRelease? ==> o.deleting && SeesOwnBinding(s, r, o.pc.snap))
    && (o.pc.RFinalized? ==>
          && o.deleting && SeesOwnBinding(s, r, o.pc.snap)
          && Key(r) in s.rel.resourceToMachine && s.rel.resourceToMachine[Key(r)].ref == o.pc.host)
    && (o.pc.RStrip? ==> o.deleting && Key(r) !in s.rel.resourceToMachine)
  }

  /** What reconcilePending listed is still there: its resources are its own and are not being deleted. */
  ghost predicate ListingOk(s: State, q: Ref, listed: map<string, Listed>) {
    forall n :: n in listed ==>
      var r := listed[n].resource.ref;
      && r in s.resources && s.resources[r].resource == listed[n].resource && s.resources[r].owner == q && r.name == n
      && (listed[n].required ==> s.resources[r].state.Required?)
  }

  /** No resource that belongs to q is being deleted. */
  ghost predicate NoneDeleting(s: State, q: Ref) {
    forall r :: r in s.resources && s.resources[r].owner == q ==> !s.resources[r].deleting
  }

  ghost predicate OwnsNothing(s: State, q: Ref) {
    forall r :: r in s.resources ==> s.resources[r].owner != q
  }

  /** The machines read after a still current record may still host. */
  ghost predicate BookOk(s: State, book: map<string, Machine>) {
    forall n :: n in book ==> HostLive(s.machines, book[n].ref)
  }

  /** A machine on which an acceptance that can still commit could place something is as it was read. */
  ghost predicate PlanCurrent(cfg: Config, s: State, o: RequestObj) {
    o.pc.QMachines? && o.pc.snap.version == s.version ==>
      forall n :: n in o.pc.book && CouldPlaceOn(cfg, o.request, o.pc, o.pc.book[n].ref) ==>
        o.pc.book[n].ref in s.machines && s.machines[o.pc.book[n].ref].machine == o.pc.book[n]
  }

  ghost predicate PlansCurrent(cfg: Config, s: State) {
    forall q :: q in s.requests ==> PlanCurrent(cfg, s, s.requests[q])
  }

  ghost predicate RequestOk(s: State, q: Ref, o: RequestObj) {
    && ItemsDeclared(o.request)
    && (!o.finalizer ==> o.state.RequestNew? && o.pc.QIdle?)
    && (o.pc.QStarted? || o.pc.QListed? || o.pc.QRead? || o.pc.QMachines? ==> NoneDeleting(s, q))
    && (o.pc.QListed? ==> ListingOk(s, q, o.pc.resources))
    && (o.pc.QRead? ==>
          ListingOk(s, q, o.pc.resources) && |o.pc.resources| == |o.request.items|
          && GoodSnap(s, o.pc.snap) && q !in o.pc.snap.rel.acceptedRequests)
    && (o.pc.QMachines? ==>
          ListingOk(s, q, o.pc.resources) && |o.pc.resources| == |o.request.items|
          && GoodSnap(s, o.pc.snap) && q !in o.pc.snap.rel.acceptedRequests
          && WellNamed(o.pc.book) && (o.pc.snap.version == s.version ==> BookOk(s, o.pc.book)))
    && (o.pc.QDeleting? ==>
          && o.deleting && (o.pc.owned == {} ==> OwnsNothing(s, q))
          && forall r :: r in o.pc.owned ==> r.uid in s.uids && (r in s.resources ==> s.resources[r].owner == q))
    && (o.pc.QDrop? ==> o.deleting && OwnsNothing(s, q) && GoodSnap(s, o.pc.snap))
    && (o.pc.QStrip? ==> o.deleting && OwnsNothing(s, q) && q !in s.rel.acceptedRequests)
    && (o.state.RequestReady? && o.request.items != [] && !o.deleting ==> q in s.rel.acceptedRequests)
  }

  ghost predicate MachinesOk(s: State) {
    forall m :: m in s.machines ==> MachineOk(s, m, s.machines[m])
  }

  ghost predicate ResourcesOk(s: State) {
    forall r :: r in s.resources ==> ResourceOk(s, r, s.resources[r])
  }

  ghost predicate RequestsOk(s: State) {
    forall q :: q in s.requests ==> RequestOk(s, q, s.requests[q])
  }

  ghost predicate Inv(cfg: Config, s: State) {
    && Identities(s)
    && Record(cfg, s.rel, s.machines, s.resources)
    && Ownership(s)
    && Promises(s)
    && MachinesOk(s)
    && ResourcesOk(s)
    && RequestsOk(s)
    && PlansCurrent(cfg, s)
  }

  lemma InitInv(cfg: Config, s: State)
    requires Init(s)
    ensures Inv(cfg, s)
  {
  }
}
