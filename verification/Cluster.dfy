/**
 * The three controllers as a transition system. Each step reads one object, or commits one update
 * that succeeds only against the version it was computed from; anything may happen in between.
 */
module Cluster {
  import opened Options
  import opened Refs
  import opened Resources
  import opened Relationships
  import opened Placement
  import opened Grouping
  import opened Scheduler

  // ---- State -----------------------------------------------------------------------------

  /** A copy of the relationship and the version it was read at. */
  datatype Snapshot = Snapshot(rel: RelationshipStatus, version: nat)

  datatype MachineState = MachineNew | MachineStarting | MachineReady | MachineShutdown

  /** Where the machine's reconcile stands: MEnsure creates its entry, MRemove removes it, MStrip drops the finalizer. */
  datatype MachinePc = MIdle | MEnsure(snap: Snapshot) | MRemove(snap: Snapshot) | MStrip

  datatype MachineObj = MachineObj(machine: Machine, state: MachineState, deleting: bool, finalizer: bool, pc: MachinePc)

  /** Required stands for uninitialized, ready, finish and destroy. */
  datatype ResourceState = ResourceNew | ResourcePending | Required

  /**
   * RStarted and RBound: leaving pending. RRelease: the record was read for the release; RFinalized: the
   * machine was found and cleaned; RStrip: only the finalizer is left to drop.
   */
  datatype ResourcePc =
    | RIdle | RStarted | RBound
    | RRelease(snap: Snapshot) | RFinalized(snap: Snapshot, host: Ref) | RStrip

  datatype ResourceObj =
    ResourceObj(resource: TestResource, owner: Ref, state: ResourceState, deleting: bool, finalizer: bool, pc: ResourcePc)

  datatype RequestState = RequestNew | RequestPending | RequestReady

  datatype Listed = Listed(resource: TestResource, required: bool)

  /** QStarted to QMachines are the reads of reconcilePending; QDeleting to QStrip those of reconcileDeletion. */
  datatype RequestPc =
    | QIdle
    | QStarted
    | QListed(resources: map<string, Listed>)
    | QRead(resources: map<string, Listed>, snap: Snapshot)
    | QMachines(resources: map<string, Listed>, snap: Snapshot, book: map<string, Machine>)
    | QDeleting(owned: set<Ref>)
    | QDrop(snap: Snapshot)
    | QStrip

  datatype RequestObj =
    RequestObj(request: TestResourceRequest, state: RequestState, deleting: bool, finalizer: bool, pc: RequestPc)

  datatype State = State(
    rel: RelationshipStatus,
    version: nat,
    machines: map<Ref, MachineObj>,
    resources: map<Ref, ResourceObj>,
    requests: map<Ref, RequestObj>,
    uids: set<string>)

  ghost predicate Init(s: State) {
    s == State(EMPTY_STATUS, 0, map[], map[], map[], {})
  }

  function Now(s: State): Snapshot {
    Snapshot(s.rel, s.version)
  }

  function Commit(s: State, rel: RelationshipStatus): State {
    s.(rel := rel, version := s.version + 1)
  }

  function WithMachine(s: State, m: Ref, o: MachineObj): State {
    s.(machines := s.machines[m := o])
  }

  function WithResource(s: State, r: Ref, o: ResourceObj): State {
    s.(resources := s.resources[r := o])
  }

  function WithRequest(s: State, q: Ref, o: RequestObj): State {
    s.(requests := s.requests[q := o])
  }

  ghost predicate Fresh(s: State, r: Ref) {
    Valid(r) && r.uid !in s.uids
  }

  // ---- MachineReconciler and the machine's owner -----------------------------------------

  /** The API server refuses a name in use in the namespace; another namespace may use it. */
  ghost predicate CreateMachine(s: State, s': State, m: Ref) {
    && Fresh(s, m)
    && (forall x :: x in s.machines ==> x.namespace != m.namespace || x.name != m.name)
    && exists machine: Machine :: machine.ref == m
         && s' == WithMachine(s, m, MachineObj(machine, MachineNew, false, false, MIdle)).(uids := s.uids + {m.uid})
  }

  /** Steps that change one machine object and nothing else. */
  ghost predicate MachineMove(s: State, o: MachineObj, o': MachineObj) {
    || (!o.deleting && !o.finalizer && o.pc.MIdle? && o' == o.(finalizer := true))
    // the user asks for deletion of an object that has its finalizer
    || (o.finalizer && o' == o.(deleting := true))
    // the user edits the spec before the machine is ready
    || ((o.state.MachineNew? || o.state.MachineStarting?) && o' == o.(machine := o'.machine) && o'.machine.ref == o.machine.ref)
    || (o.deleting && o.finalizer && o.pc.MIdle? && o' == o.(state := MachineShutdown))
    || (!o.deleting && o.finalizer && o.pc.MIdle? && o.state.MachineNew? && o' == o.(state := MachineStarting))
    // fetchMachineInfo
    || (!o.deleting && o.finalizer && o.pc.MIdle? && o.state.MachineStarting?
        && exists info :: o' == o.(state := MachineReady, machine := o.machine.(info := Some(info))))
    || (o.finalizer && o.pc.MIdle? && o.state.MachineReady? && o' == o.(pc := MEnsure(Now(s))))
    || (o.finalizer && o.pc.MIdle? && o.state.MachineShutdown? && o' == o.(pc := MRemove(Now(s))))
    // an error, a conflict, or nothing to do
    || o' == o.(pc := MIdle)
  }

  ghost predicate StepMachine(s: State, s': State, m: Ref) {
    && m in s.machines
    && exists o' :: MachineMove(s, s.machines[m], o') && s' == WithMachine(s, m, o')
  }

  /** The user edits the spec of a ready machine that hosts nothing. */
  ghost predicate EditUnchecked(s: State, s': State, m: Ref) {
    && m in s.machines && s.machines[m].state.MachineReady? && ListOf(s.rel, Key(m)) == []
    && exists reserve, disks ::
         s' == WithMachine(s, m, s.machines[m].(machine := s.machines[m].machine.(reserve := reserve, exclusiveDisks := disks)))
  }

  ghost predicate EnsureEntryCommit(s: State, s': State, m: Ref) {
    && m in s.machines && s.machines[m].pc.MEnsure?
    && var snap := s.machines[m].pc.snap;
    && snap.version == s.version && Key(m) !in snap.rel.machineToResources
    && s' == Commit(WithMachine(s, m, s.machines[m].(pc := MIdle)), AddEntry(snap.rel, Key(m)))
  }

  ghost predicate RemoveEntryCommit(s: State, s': State, m: Ref) {
    && m in s.machines && s.machines[m].pc.MRemove?
    && var snap := s.machines[m].pc.snap;
    && snap.version == s.version && ListOf(snap.rel, Key(m)) == []
    && s' == Commit(WithMachine(s, m, s.machines[m].(pc := MStrip)), RemoveEntry(snap.rel, Key(m)))
  }

  /** The last finalizer goes, or the user deletes an object that never got one. */
  ghost predicate MachineGone(s: State, s': State, m: Ref) {
    && m in s.machines
    && ((s.machines[m].pc.MStrip? && s.machines[m].deleting) || !s.machines[m].finalizer)
    && s' == s.(machines := s.machines - {m})
  }

  // ---- TestResourceReconciler ------------------------------------------------------------

  /** The machine found under the namespace and name of a reference. */
  ghost predicate FoundMachine(s: State, target: Ref, host: Ref) {
    host in s.machines && host.namespace == target.namespace && host.name == target.name
  }

  ghost predicate ResourceMove(s: State, r: Ref, o: ResourceObj, o': ResourceObj) {
    || (!o.deleting && !o.finalizer && o.pc.RIdle? && o' == o.(finalizer := true))
    || (!o.deleting && o.finalizer && o.pc.RIdle? && o.state.ResourceNew? && o' == o.(state := ResourcePending))
    || (!o.deleting && o.finalizer && o.pc.RIdle? && o.state.ResourcePending? && o' == o.(pc := RStarted))
    // requestResource sees the binding
    || (o.pc.RStarted? && Key(r) in s.rel.resourceToMachine && o' == o.(pc := RBound))
    || (o.pc.RBound? && o' == o.(state := Required, pc := RIdle))
    || (o.deleting && o.finalizer && o.pc.RIdle? && o' == o.(pc := RRelease(Now(s))))
    || (o.pc.RRelease? && Key(r) in o.pc.snap.rel.resourceToMachine
        && exists host :: FoundMachine(s, o.pc.snap.rel.resourceToMachine[Key(r)].ref, host) && o' == o.(pc := RFinalized(o.pc.snap, host)))
    || (o.pc.RRelease? && Key(r) !in o.pc.snap.rel.resourceToMachine && o' == o.(pc := RStrip))
    || o' == o.(pc := RIdle)
  }

  ghost predicate StepResource(s: State, s': State, r: Ref) {
    && r in s.resources
    && exists o' :: ResourceMove(s, r, s.resources[r], o') && s' == WithResource(s, r, o')
  }

  ghost predicate ReleaseCommit(s: State, s': State, r: Ref) {
    && r in s.resources && s.resources[r].pc.RFinalized?
    && var pc := s.resources[r].pc;
    && pc.snap.version == s.version
    && s' == Commit(WithResource(s, r, s.resources[r].(pc := RStrip)), Release(pc.snap.rel, Key(pc.host), r))
  }

  ghost predicate ResourceGone(s: State, s': State, r: Ref) {
    && r in s.resources && s.resources[r].pc.RStrip? && s.resources[r].deleting
    && s' == s.(resources := s.resources - {r})
  }

  // ---- TestResourceRequestReconciler -----------------------------------------------------

  /** Created through the admission webhook. */
  ghost predicate CreateRequest(s: State, s': State, q: Ref) {
    && Fresh(s, q)
    && (forall x :: x in s.requests ==> x.namespace != q.namespace || x.name != q.name)
    && exists request: TestResourceRequest :: request.ref == q && ItemsDeclared(request)
         && s' == WithRequest(s, q, RequestObj(request, RequestNew, false, false, QIdle)).(uids := s.uids + {q.uid})
  }

  /** listResources: everything in the namespace, by name. */
  ghost predicate IsListing(s: State, namespace: string, listed: map<string, Listed>) {
    && (forall r :: r in s.resources && r.namespace == namespace ==> r.name in listed)
    && (forall n :: n in listed ==>
          var r := listed[n].resource.ref;
          && r in s.resources && r.namespace == namespace && r.name == n
          && listed[n] == Listed(s.resources[r].resource, s.resources[r].state.Required?))
  }

  /** getMachines: the ready machines, by name alone; of machines that share a name some one is kept. */
  ghost predicate IsBook(s: State, book: map<string, Machine>) {
    && (forall m :: m in s.machines && s.machines[m].state.MachineReady? ==> m.name in book)
    && (forall n :: n in book ==>
          var m := book[n].ref;
          m in s.machines && m.name == n && s.machines[m].state.MachineReady? && s.machines[m].machine == book[n])
  }

  /** listOwnedResources: by namespace and by the owner's name. */
  ghost function Owned(s: State, q: Ref): set<Ref> {
    set r | r in s.resources && r.namespace == q.namespace && s.resources[r].owner.name == q.name
  }

  ghost predicate AllRequired(listed: map<string, Listed>) {
    forall n :: n in listed ==> listed[n].required
  }

  ghost predicate RequestMove(s: State, q: Ref, o: RequestObj, o': RequestObj) {
    || (!o.deleting && !o.finalizer && o.pc.QIdle? && o' == o.(finalizer := true))
    || (o.finalizer && o' == o.(deleting := true))
    || (!o.deleting && o.finalizer && o.pc.QIdle? && o.state.RequestNew? && o' == o.(state := RequestPending))
    || (!o.deleting && o.finalizer && o.pc.QIdle? && o.state.RequestPending? && o' == o.(pc := QStarted))
    || (o.pc.QStarted?
        && (forall r :: r in s.resources && r.namespace == q.namespace ==> s.resources[r].owner.uid == q.uid)
        && exists listed :: IsListing(s, q.namespace, listed) && o' == o.(pc := QListed(listed)))
    || (o.pc.QListed? && |o.pc.resources| == |o.request.items| && AllRequired(o.pc.resources)
        && o' == o.(state := RequestReady, pc := QIdle))
    || (o.pc.QListed? && |o.pc.resources| == |o.request.items| && !AllRequired(o.pc.resources)
        && q !in s.rel.acceptedRequests && o' == o.(pc := QRead(o.pc.resources, Now(s))))
    || (o.pc.QRead? && exists book :: IsBook(s, book) && o' == o.(pc := QMachines(o.pc.resources, o.pc.snap, book)))
    || (o.deleting && o.finalizer && o.pc.QIdle? && o' == o.(pc := QDeleting(Owned(s, q))))
    || (o.pc.QDeleting? && o.pc.owned == {} && o' == o.(pc := QDrop(Now(s))))
    || o' == o.(pc := QIdle)
  }

  ghost predicate StepRequest(s: State, s': State, q: Ref) {
    && q in s.requests
    && exists o' :: RequestMove(s, q, s.requests[q], o') && s' == WithRequest(s, q, o')
  }

  /** reconcilePending creates the resource of an item that has none; the API server refuses a name in use. */
  ghost predicate CreateResource(s: State, s': State, q: Ref, r: Ref) {
    && q in s.requests && s.requests[q].pc.QListed?
    && Fresh(s, r) && r.namespace == q.namespace && r.name !in s.requests[q].pc.resources
    && (forall x :: x in s.resources ==> x.namespace != r.namespace || x.name != r.name)
    && exists i :: 0 <= i < |s.requests[q].request.items| && s.requests[q].request.items[i].name == r.name
         && s' == WithResource(s, r, ResourceObj(TestResource(r, s.requests[q].request.items[i].spec), q, ResourceNew, false, false, RIdle))
                  .(uids := s.uids + {r.uid})
  }

  /** removeAllResources, one resource at a time: marked when it holds a finalizer, gone when it does not. */
  ghost predicate DeleteResource(s: State, s': State, q: Ref, r: Ref) {
    && q in s.requests && s.requests[q].pc.QDeleting? && r in s.requests[q].pc.owned && r in s.resources
    && s' == if s.resources[r].finalizer then WithResource(s, r, s.resources[r].(deleting := true))
             else s.(resources := s.resources - {r})
  }

  function ResourcesOfListing(listed: map<string, Listed>): map<string, TestResource> {
    map n | n in listed :: listed[n].resource
  }

  /** tryRequest commits, as coded: nothing checks that the listed resources hold their finalizers. */
  ghost predicate AcceptUnchecked(cfg: Config, s: State, s': State, q: Ref) {
    && q in s.requests && s.requests[q].pc.QMachines?
    && var o, pc := s.requests[q], s.requests[q].pc;
    && var resources := ResourcesOfListing(pc.resources);
    && pc.snap.version == s.version && Resolved(o.request.items, resources)
    && exists plan, hosts :: Accepts(cfg, pc.snap.rel, o.request, resources, pc.book, plan, hosts)
         && s' == Commit(WithRequest(s, q, o.(pc := QIdle)), Accepted(pc.snap.rel, q, plan, LocksOf(o.request, hosts)))
  }

  ghost predicate Finalized(s: State, listed: map<string, Listed>) {
    forall n :: n in listed && listed[n].resource.ref in s.resources ==> s.resources[listed[n].resource.ref].finalizer
  }

  /** The same under the assumption about timing that TestResourceReconciler got to every listed resource first. */
  ghost predicate AcceptCommit(cfg: Config, s: State, s': State, q: Ref) {
    AcceptUnchecked(cfg, s, s', q) && Finalized(s, s.requests[q].pc.resources)
  }

  ghost predicate DropCommit(s: State, s': State, q: Ref) {
    && q in s.requests && s.requests[q].pc.QDrop?
    && var snap := s.requests[q].pc.snap;
    && snap.version == s.version
    && s' == Commit(WithRequest(s, q, s.requests[q].(pc := QStrip)), DropRequest(snap.rel, q))
  }

  ghost predicate RequestGone(s: State, s': State, q: Ref) {
    && q in s.requests
    && ((s.requests[q].pc.QStrip? && s.requests[q].deleting) || !s.requests[q].finalizer)
    && s' == s.(requests := s.requests - {q})
  }

  // ---- Edits of an idle machine ----------------------------------------------------------

  ghost predicate UsesMachine(plan: seq<Placed>, m: Ref) {
    exists i :: 0 <= i < |plan| && plan[i].machine.ref == m
  }

  /** From what the request has read, tryRequest may place something on the machine. */
  ghost predicate CouldPlaceOn(cfg: Config, request: TestResourceRequest, pc: RequestPc, m: Ref)
    requires pc.QMachines?
  {
    var resources := ResourcesOfListing(pc.resources);
    Resolved(request.items, resources)
    && exists plan, hosts :: Accepts(cfg, pc.snap.rel, request, resources, pc.book, plan, hosts) && UsesMachine(plan, m)
  }

  /** No acceptance that could still commit could place anything on the machine. */
  ghost predicate Unneeded(cfg: Config, s: State, m: Ref) {
    forall q :: q in s.requests && s.requests[q].pc.QMachines? && s.requests[q].pc.snap.version == s.version ==>
      !CouldPlaceOn(cfg, s.requests[q].request, s.requests[q].pc, m)
  }

  /** The edit under the assumption about timing that no such acceptance is in flight; nothing checks it. */
  ghost predicate EditMachine(cfg: Config, s: State, s': State, m: Ref) {
    EditUnchecked(s, s', m) && Unneeded(cfg, s, m)
  }

  // ---- Runs ------------------------------------------------------------------------------

  datatype Step =
    | DoCreateMachine(m: Ref) | DoStepMachine(m: Ref) | DoEditMachine(m: Ref) | DoEnsureEntry(m: Ref) | DoRemoveEntry(m: Ref) | DoMachineGone(m: Ref)
    | DoStepResource(r: Ref) | DoRelease(r: Ref) | DoResourceGone(r: Ref)
    | DoCreateRequest(q: Ref) | DoStepRequest(q: Ref) | DoCreateResource(q: Ref, r: Ref) | DoDeleteResource(q: Ref, r: Ref)
    | DoAccept(q: Ref) | DoDrop(q: Ref) | DoRequestGone(q: Ref)

  ghost predicate MachineNext(cfg: Config, s: State, s': State, step: Step) {
    match step
    case DoCreateMachine(m) => CreateMachine(s, s', m)
    case DoStepMachine(m) => StepMachine(s, s', m)
    case DoEditMachine(m) => EditMachine(cfg, s, s', m)
    case DoEnsureEntry(m) => EnsureEntryCommit(s, s', m)
    case DoRemoveEntry(m) => RemoveEntryCommit(s, s', m)
    case DoMachineGone(m) => MachineGone(s, s', m)
    case _ => false
  }

  ghost predicate ResourceNext(s: State, s': State, step: Step) {
    match step
    case DoStepResource(r) => StepResource(s, s', r)
    case DoRelease(r) => ReleaseCommit(s, s', r)
    case DoResourceGone(r) => ResourceGone(s, s', r)
    case _ => false
  }

  ghost predicate OwnedResourceNext(s: State, s': State, step: Step) {
    match step
    case DoCreateResource(q, r) => CreateResource(s, s', q, r)
    case DoDeleteResource(q, r) => DeleteResource(s, s', q, r)
    case _ => false
  }

  ghost predicate RequestNext(cfg: Config, s: State, s': State, step: Step) {
    match step
    case DoCreateRequest(q) => CreateRequest(s, s', q)
    case DoStepRequest(q) => StepRequest(s, s', q)
    case DoAccept(q) => AcceptCommit(cfg, s, s', q)
    case DoDrop(q) => DropCommit(s, s', q)
    case DoRequestGone(q) => RequestGone(s, s', q)
    case _ => false
  }

  ghost predicate NextBy(cfg: Config, s: State, s': State, step: Step) {
    MachineNext(cfg, s, s', step) || ResourceNext(s, s', step) || OwnedResourceNext(s, s', step) || RequestNext(cfg, s, s', step)
  }

  /** Any interleaving of the controllers' steps. */
  ghost predicate IsRun(cfg: Config, run: seq<State>, steps: seq<Step>) {
    && |run| == |steps| + 1 && Init(run[0])
    && forall i :: 0 <= i < |steps| ==> NextBy(cfg, run[i], run[i + 1], steps[i])
  }

  ghost predicate Reachable(cfg: Config, s: State) {
    exists run, steps :: IsRun(cfg, run, steps) && run[|run| - 1] == s
  }
}
