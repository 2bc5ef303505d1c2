/** What each part of the invariant depends on. */
module Frames {
  import opened Refs
  import opened Resources
  import opened Relationships
  import opened Placement
  import opened PlacementLaws
  import opened Cluster
  import opened Invariants
  import opened RecordLaws

  lemma HasValidKeys(s: State)
    requires Identities(s)
    ensures ValidKeys(s.machines, s.resources)
  {
  }

  /** The record stays as it is, or a commit moved it one version on. */
  ghost predicate Advances(s: State, s': State) {
    (s'.version == s.version && s'.rel == s.rel) || s'.version == s.version + 1
  }

  lemma FrameMachine(s: State, s': State, m: Ref, o: MachineObj)
    requires Advances(s, s') && MachineOk(s, m, o)
    requires o.pc.MStrip? ==> ListOf(s'.rel, Key(m)) == []
    ensures MachineOk(s', m, o)
  {
  }

  ghost predicate SameBinding(s: State, s': State, r: Ref) {
    && (Key(r) in s'.rel.resourceToMachine <==> Key(r) in s.rel.resourceToMachine)
    && (Key(r) in s.rel.resourceToMachine ==> s'.rel.resourceToMachine[Key(r)] == s.rel.resourceToMachine[Key(r)])
  }

  /** The owner keeps its spec and its finalizer, and a deletion stays a deletion. */
  ghost predicate OwnerKept(s: State, s': State, q: Ref) {
    q in s.requests && s.requests[q].finalizer ==>
      && q in s'.requests && s'.requests[q].finalizer && s'.requests[q].request == s.requests[q].request
      && (s.requests[q].deleting ==> s'.requests[q].deleting)
  }

  lemma FrameResource(s: State, s': State, r: Ref, o: ResourceObj)
    requires Advances(s, s') && ResourceOk(s, r, o) && SameBinding(s, s', r) && OwnerKept(s, s', o.owner)
    ensures ResourceOk(s', r, o)
  {
  }

  /** The resources of q are the same, apart from progress of their own. */
  ghost predicate ResourcesKept(s: State, s': State, q: Ref) {
    && (forall r :: r in s.resources && s.resources[r].owner == q ==>
          && r in s'.resources && s'.resources[r].owner == q && s'.resources[r].resource == s.resources[r].resource
          && (s.resources[r].state.Required? ==> s'.resources[r].state.Required?))
    && (forall r :: r in s'.resources && s'.resources[r].owner == q ==>
          r in s.resources && s.resources[r].owner == q && (s'.resources[r].deleting ==> s.resources[r].deleting))
  }

  /** A resource that is new to the store has a new UID. */
  ghost predicate NoForgery(s: State, s': State) {
    && s.uids <= s'.uids
    && (forall r :: r in s'.resources ==>
          (r in s.resources && s'.resources[r].owner == s.resources[r].owner) || r.uid !in s.uids)
  }

  ghost predicate HostsKept(s: State, s': State) {
    forall m :: HostLive(s.machines, m) ==> HostLive(s'.machines, m) && s'.machines[m].machine == s.machines[m].machine
  }

  lemma FrameListing(s: State, s': State, q: Ref, listed: map<string, Listed>)
    requires ResourcesKept(s, s', q) && ListingOk(s, q, listed)
    ensures ListingOk(s', q, listed)
  {
    forall n | n in listed
      ensures var r := listed[n].resource.ref;
              && r in s'.resources && s'.resources[r].resource == listed[n].resource && s'.resources[r].owner == q && r.name == n
              && (listed[n].required ==> s'.resources[r].state.Required?)
    {
      assert listed[n].resource.ref in s.resources;
    }
  }

  lemma FrameBook(s: State, s': State, book: map<string, Machine>)
    requires HostsKept(s, s') && BookOk(s, book)
    ensures BookOk(s', book)
  {
    forall n | n in book ensures HostLive(s'.machines, book[n].ref) {
      assert HostLive(s.machines, book[n].ref);
    }
  }

  lemma FrameRequest(s: State, s': State, q: Ref, o: RequestObj)
    requires Advances(s, s') && RequestOk(s, q, o) && ResourcesKept(s, s', q) && NoForgery(s, s')
    requires s'.version == s.version ==> HostsKept(s, s')
    requires q in s'.rel.acceptedRequests <==> q in s.rel.acceptedRequests
    ensures RequestOk(s', q, o)
  {
    match o.pc
    case QListed(listed) => FrameListing(s, s', q, listed);
    case QRead(listed, snap) => FrameListing(s, s', q, listed);
    case QMachines(listed, snap, book) =>
      FrameListing(s, s', q, listed);
      if s'.version == s.version && snap.version == s.version {
        FrameBook(s, s', book);
      }
    case _ =>
  }

  /** Nothing the ownership of entries depends on was taken away. */
  lemma FrameOwnership(s: State, s': State)
    requires Ownership(s) && s'.rel == s.rel && AcceptedLive(s.rel.acceptedRequests, s'.requests)
    requires forall r :: r in s.resources && Key(r) in s.rel.resourceToMachine ==>
               r in s'.resources && s'.resources[r].owner == s.resources[r].owner
    ensures Ownership(s')
  {
    forall k, e | k in s'.rel.machineToResources && e in s'.rel.machineToResources[k]
      ensures e.ref in s'.resources && Key(e.ref) in s'.rel.resourceToMachine && EntryOwned(s', e)
    {
      assert EntryOwned(s, e);
    }
  }

  // ---- The same for whole stores; "own" are the objects the step itself writes ------------

  lemma FrameMachines(s: State, s': State, own: set<Ref>)
    requires Advances(s, s') && MachinesOk(s)
    requires forall m :: m in s'.machines && m !in own ==>
               m in s.machines && s'.machines[m] == s.machines[m] && (s.machines[m].pc.MStrip? ==> ListOf(s'.rel, Key(m)) == [])
    requires forall m :: m in s'.machines && m in own ==> MachineOk(s', m, s'.machines[m])
    ensures MachinesOk(s')
  {
    forall m | m in s'.machines && m !in own ensures MachineOk(s', m, s'.machines[m]) {
      FrameMachine(s, s', m, s.machines[m]);
    }
  }

  lemma FrameResources(s: State, s': State, own: set<Ref>)
    requires Advances(s, s') && ResourcesOk(s)
    requires forall r :: r in s'.resources && r !in own ==>
               r in s.resources && s'.resources[r] == s.resources[r] && SameBinding(s, s', r)
    requires forall r :: r in s.resources ==> OwnerKept(s, s', s.resources[r].owner)
    requires forall r :: r in s'.resources && r in own ==> ResourceOk(s', r, s'.resources[r])
    ensures ResourcesOk(s')
  {
    forall r | r in s'.resources && r !in own ensures ResourceOk(s', r, s'.resources[r]) {
      assert ResourceOk(s, r, s.resources[r]);
      FrameResource(s, s', r, s.resources[r]);
    }
  }

  lemma FrameRequests(s: State, s': State, own: set<Ref>)
    requires Advances(s, s') && RequestsOk(s) && NoForgery(s, s')
    requires s'.version == s.version ==> HostsKept(s, s')
    requires forall q :: q in s'.requests && q !in own ==>
               && q in s.requests && s'.requests[q] == s.requests[q] && ResourcesKept(s, s', q)
               && (q in s'.rel.acceptedRequests <==> q in s.rel.acceptedRequests)
    requires forall q :: q in s'.requests && q in own ==> RequestOk(s', q, s'.requests[q])
    ensures RequestsOk(s')
  {
    forall q | q in s'.requests && q !in own ensures RequestOk(s', q, s'.requests[q]) {
      FrameRequest(s, s', q, s.requests[q]);
    }
  }

  /** Machines may change as long as those that host stay live with the same capacity. */
  lemma FrameRecordMachines(cfg: Config, rel: RelationshipStatus, ms: map<Ref, MachineObj>, ms': map<Ref, MachineObj>, rs: map<Ref, ResourceObj>)
    requires Record(cfg, rel, ms, rs)
    requires forall r :: r in rel.resourceToMachine ==> HostLive(ms', rel.resourceToMachine[r].ref)
    requires forall m :: m in ms' ==> (m in ms && ms'[m].machine == ms[m].machine) || ListOf(rel, Key(m)) == []
    ensures Record(cfg, rel, ms', rs)
  {
    forall m | m in ms' ensures Sound(cfg.round, ms'[m].machine, ListOf(rel, Key(m))) {
      assert m in ms ==> Sound(cfg.round, ms[m].machine, ListOf(rel, Key(m)));
    }
  }

  /** Resources may change as long as those with entries stay, with their finalizer and spec. */
  lemma FrameRecordResources(cfg: Config, rel: RelationshipStatus, ms: map<Ref, MachineObj>, rs: map<Ref, ResourceObj>, rs': map<Ref, ResourceObj>)
    requires Record(cfg, rel, ms, rs)
    requires forall r :: r in rs && rs[r].finalizer && Key(r) in rel.resourceToMachine ==>
               r in rs' && rs'[r].finalizer && rs'[r].resource == rs[r].resource
    ensures Record(cfg, rel, ms, rs')
  {
    forall k, e | k in rel.machineToResources && e in rel.machineToResources[k] ensures EntryLive(cfg, rs', e) {
      assert EntryLive(cfg, rs, e) && EntryMirrored(rel, k, e);
    }
  }

  /** Empty lists come and go without changing who owns what. */
  lemma FrameOwnershipSameLists(s: State, s': State)
    requires Ownership(s) && SameLists(s.rel, s'.rel) && s'.resources == s.resources && s'.requests == s.requests
    requires s'.rel.acceptedRequests == s.rel.acceptedRequests && s'.rel.machineLocks == s.rel.machineLocks
    ensures Ownership(s')
  {
    forall k, e | k in s'.rel.machineToResources && e in s'.rel.machineToResources[k]
      ensures e.ref in s'.resources && Key(e.ref) in s'.rel.resourceToMachine && EntryOwned(s', e)
    {
      assert e in ListOf(s.rel, k);
      assert EntryOwned(s, e);
    }
  }

  /** A commit leaves no acceptance in flight that could still pass its version check. */
  lemma CommitEndsPlans(cfg: Config, s: State, s': State)
    requires RequestsOk(s) && s'.version > s.version
    requires forall q :: q in s'.requests && s'.requests[q].pc.QMachines? ==> q in s.requests && s'.requests[q] == s.requests[q]
    ensures PlansCurrent(cfg, s')
  {
    forall q | q in s'.requests && s'.requests[q].pc.QMachines? ensures PlanCurrent(cfg, s', s'.requests[q]) {
      assert RequestOk(s, q, s.requests[q]);
    }
  }

  lemma FramePlan(cfg: Config, s: State, s': State, q: Ref, o: RequestObj)
    requires s'.version == s.version && HostsKept(s, s') && RequestOk(s, q, o) && PlanCurrent(cfg, s, o)
    ensures PlanCurrent(cfg, s', o)
  {
    if o.pc.QMachines? && o.pc.snap.version == s.version {
      forall n | n in o.pc.book && CouldPlaceOn(cfg, o.request, o.pc, o.pc.book[n].ref)
        ensures o.pc.book[n].ref in s'.machines && s'.machines[o.pc.book[n].ref].machine == o.pc.book[n]
      {
        assert HostLive(s.machines, o.pc.book[n].ref);
      }
    }
  }

  lemma FramePlans(cfg: Config, s: State, s': State)
    requires s'.version == s.version && HostsKept(s, s') && RequestsOk(s) && PlansCurrent(cfg, s)
    requires forall q :: q in s'.requests && s'.requests[q].pc.QMachines? ==>
               (q in s.requests && s'.requests[q] == s.requests[q]) || PlanCurrent(cfg, s', s'.requests[q])
    ensures PlansCurrent(cfg, s')
  {
    forall q | q in s'.requests && s'.requests[q].pc.QMachines? ensures PlanCurrent(cfg, s', s'.requests[q]) {
      if q in s.requests && s'.requests[q] == s.requests[q] {
        FramePlan(cfg, s, s', q, s.requests[q]);
      }
    }
  }

  // ---- Promises --------------------------------------------------------------------------

  /** What is bound keeps its owner and its spec, and its owner keeps its declarations. */
  ghost predicate BoundKept(s: State, s': State) {
    && (forall r :: r in s.resources && Key(r) in s.rel.resourceToMachine ==>
          r in s'.resources && s'.resources[r].owner == s.resources[r].owner && s'.resources[r].resource == s.resources[r].resource)
    && (forall q :: q in s.rel.acceptedRequests && q in s.requests ==>
          && q in s'.requests && s'.requests[q].request == s.requests[q].request
          && (s.requests[q].deleting ==> s'.requests[q].deleting))
  }

  /** The record is the same up to empty lists. */
  ghost predicate SameRecord(s: State, s': State) {
    && SameLists(s.rel, s'.rel)
    && s'.rel.acceptedRequests == s.rel.acceptedRequests && s'.rel.machineLocks == s.rel.machineLocks
  }

  lemma FrameExclusive(s: State, s': State, host: Ref, q: Ref)
    requires SameRecord(s, s') && BoundKept(s, s') && EntriesOwned(s) && Exclusive(s, host, q)
    ensures Exclusive(s', host, q)
  {
    forall e | e in ListOf(s'.rel, Key(host)) ensures e.ref in s'.resources && s'.resources[e.ref].owner == q {
      assert e in ListOf(s.rel, Key(host));
      assert Key(host) in s.rel.machineToResources && e in s.rel.machineToResources[Key(host)];
    }
  }

  lemma FrameEntryAsAsked(s: State, s': State, k: string, e: ResourceRef)
    requires SameRecord(s, s') && BoundKept(s, s') && EntriesOwned(s) && EntriesAsAsked(s)
    requires k in s.rel.machineToResources && e in s.rel.machineToResources[k]
    ensures EntryAsAsked(s', e)
  {
    assert EntryOwned(s, e) && EntryAsAsked(s, e);
    var o, host := s.resources[e.ref], s.rel.resourceToMachine[Key(e.ref)].ref;
    if Exclusive(s, host, o.owner) {
      FrameExclusive(s, s', host, o.owner);
    }
  }

  lemma FrameEntriesAsAsked(s: State, s': State)
    requires SameRecord(s, s') && BoundKept(s, s') && EntriesOwned(s) && EntriesAsAsked(s)
    ensures EntriesAsAsked(s')
  {
    forall k, e | k in s'.rel.machineToResources && e in s'.rel.machineToResources[k] ensures EntryAsAsked(s', e) {
      assert e in ListOf(s.rel, k);
      FrameEntryAsAsked(s, s', k, e);
    }
  }

  lemma FrameCoLocated(s: State, s': State)
    requires SameRecord(s, s') && BoundKept(s, s') && EntriesOwned(s) && CoLocated(s.rel, s.resources)
    ensures CoLocated(s'.rel, s'.resources)
  {
    forall k, e, l, f | k in s'.rel.machineToResources && e in s'.rel.machineToResources[k]
                        && l in s'.rel.machineToResources && f in s'.rel.machineToResources[l] && Together(s'.resources, e, f)
      ensures k == l
    {
      assert e in ListOf(s.rel, k) && f in ListOf(s.rel, l);
      assert Together(s.resources, e, f);
    }
  }

  lemma FrameFulfilled(s: State, s': State, q: Ref)
    requires SameRecord(s, s') && BoundKept(s, s') && q in s.rel.acceptedRequests && q in s.requests && Fulfilled(s, q)
    ensures Fulfilled(s', q)
  {
    if !s'.requests[q].deleting {
      forall i | 0 <= i < |s'.requests[q].request.items| ensures ItemBound(s', q, s'.requests[q].request.items[i].name) {
        assert ItemBound(s, q, s.requests[q].request.items[i].name);
      }
    }
  }

  lemma FramePromises(s: State, s': State)
    requires SameRecord(s, s') && BoundKept(s, s') && Ownership(s) && Promises(s)
    ensures Promises(s')
  {
    FrameEntriesAsAsked(s, s');
    FrameCoLocated(s, s');
    forall q | q in s'.rel.acceptedRequests && q in s'.requests ensures Fulfilled(s', q) {
      FrameFulfilled(s, s', q);
    }
  }
}
